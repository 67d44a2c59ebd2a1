/** When a stream can pause for good: the session waits for a full batch while the
    producer waits for a commitment. Exactly when `(k_max - 1) * price >= max_unpaid`. */
module PauseDeadlock {
  import opened Types
  import opened Commitment
  import opened EndToEnd
  import S = Session
  import M = SessionMeter
  import P = Producer
  import R = ProducerRuns

  /** Nothing in flight: every sent token is absorbed, every commitment accepted. */
  predicate Quiescent(s: System) {
    && s.session.outcome == S.Streaming
    && s.session.tokens == s.producer.delivered
    && P.Ack(s.producer.last) == |s.session.sent|
  }

  predicate IsPaused(c: Config, s: System) {
    P.Unpaid(c.deal, s.producer.delivered, s.producer.last) >= c.deal.maxUnpaid
  }

  predicate DepositCovers(c: Config, tokens: nat) {
    c.deal.prepaid + tokens * c.deal.price <= c.deal.deposit
  }

  /** At quiescence, and while the deposit lasts, what the producer counts as unpaid is
      the tokens since the last commitment. */
  lemma QuiescentUnpaid(c: Config, s: System)
    requires ConfigOk(c) && SystemOk(c, s) && Quiescent(s) && DepositCovers(c, s.session.tokens)
    ensures P.Unpaid(c.deal, s.producer.delivered, s.producer.last) == s.session.since * c.deal.price
  {
    QuiescentHeld(c, s);
    DepositNotReached(c.deal.price, c.deal.prepaid, c.deal.deposit, s.session.tokens, s.session.since);
  }

  lemma DepositNotReached(price: nat, prepaid: nat, deposit: nat, tokens: nat, since: nat)
    requires since <= tokens && prepaid + tokens * price <= deposit
    ensures tokens * price - Max(0, Min(deposit, prepaid + (tokens - since) * price) - prepaid) == since * price
  {
    MulMonotone(tokens - since, tokens, price);
    assert tokens * price == (tokens - since) * price + since * price;
  }

  lemma QuiescentHeld(c: Config, s: System)
    requires ConfigOk(c) && SystemOk(c, s) && Quiescent(s)
    ensures 0 <= s.session.tokens - s.session.since
    ensures P.Cumulative(c.deal, s.producer.last) == M.Meter(c.terms, s.session.tokens - s.session.since)
  {
    var n := |s.session.sent|;
    if n > 0 {
      var i: nat :| i < n && s.session.sent[i] == s.producer.last.value.message;
      assert i == n - 1;
      M.LastCommitment(c.terms, s.session);
    }
  }

  /** No deadlock: if a batch never outgrows the producer's tolerance, a quiescent
      producer is never paused. */
  lemma NeverPausedForGood(c: Config, s0: System, events: seq<Event>)
    requires ConfigOk(c) && Initial(c, s0) && Legal(c, s0, events)
    requires (c.terms.kMax - 1) * c.deal.price < c.deal.maxUnpaid
    requires Quiescent(RunAll(c, s0, events)) && DepositCovers(c, RunAll(c, s0, events).session.tokens)
    ensures !IsPaused(c, RunAll(c, s0, events))
  {
    RunKeepsSystem(c, s0, events);
    var s := RunAll(c, s0, events);
    QuiescentUnpaid(c, s);
    MulMonotone(s.session.since, c.terms.kMax - 1, c.deal.price);
  }

  // ------------------------------------------------------- the converse

  // Producer and session in step, the generator waiting for token `n`.
  ghost predicate InStep(c: Config, s: System, n: nat) {
    && Quiescent(s) && s.session.tokens == n
    && s.producer.point == P.AwaitToken
    && s.producer.first == (n == 0)
    && !s.producer.halted && s.producer.lastAt == s.producer.now
  }

  /** What the witness run needs of its surroundings: a signer whose signatures verify,
      no evaluator, a timeout that has not already run out, and room for `n` tokens. */
  ghost predicate Roomy(c: Config, sign: Bytes -> Signature, n: nat) {
    && (forall m: Bytes :: c.deal.valid(c.deal.sessionKey, m, sign(m)))
    && c.terms.evaluator == None
    && c.deal.pauseTimeoutMs >= 1
    && n <= |c.tokens| && n < 0x1_0000_0000 && DepositCovers(c, n)
  }

  lemma Extend(c: Config, s0: System, events: seq<Event>, e: Event)
    requires Legal(c, s0, events) && Allowed(c, RunAll(c, s0, events), e)
    ensures Legal(c, s0, events + [e])
    ensures RunAll(c, s0, events + [e]) == Next(c, RunAll(c, s0, events), e)
  {
    assert (events + [e])[..|events|] == events;
  }

  // The producer sends its next token.
  lemma SendNext(c: Config, s0: System, events: seq<Event>, sign: Bytes -> Signature, n: nat)
    returns (run: seq<Event>)
    requires ConfigOk(c) && Initial(c, s0) && Legal(c, s0, events) && Roomy(c, sign, n + 1)
    requires InStep(c, RunAll(c, s0, events), n) && !IsPaused(c, RunAll(c, s0, events))
    ensures Legal(c, s0, run)
    ensures var s, p := RunAll(c, s0, events), RunAll(c, s0, run).producer;
            RunAll(c, s0, run) == s.(producer := p)
            && p.point == P.AtYield && !p.first && !p.halted && p.lastAt == p.now
            && p.last == s.producer.last && p.delivered == n + 1 && |p.out| == n + 1
  {
    hide SystemOk, ConfigOk, Legal, Allowed, P.Unpaid;
    SendNextFacts(c, s0, events, sign, n);
    run := events + [Produce(P.Resume(0))];
    Extend(c, s0, events, Produce(P.Resume(0)));
    if n > 0 {
      Extend(c, s0, run, Produce(P.Resume(0)));
      run := run + [Produce(P.Resume(0))];
    }
  }

  lemma SendNextFacts(c: Config, s0: System, events: seq<Event>, sign: Bytes -> Signature, n: nat)
    requires ConfigOk(c) && Initial(c, s0) && Legal(c, s0, events) && Roomy(c, sign, n + 1)
    requires InStep(c, RunAll(c, s0, events), n)
    ensures var p := RunAll(c, s0, events).producer;
            |p.out| == p.delivered == p.next == n && n < |c.tokens|
    ensures forall s :: Allowed(c, s, Produce(P.Resume(0)))
  {
    RunKeepsSystem(c, s0, events);
  }

  // The session's newest commitment passes the verifier, and is unforged.
  lemma NewestIsAccepted(c: Config, s: System, signed: SignedCommitment)
    requires ConfigOk(c) && SystemOk(c, s) && s.session.sent != []
    requires signed.message == s.session.sent[|s.session.sent| - 1]
    requires P.Ack(s.producer.last) == |s.session.sent| - 1
    requires InRange(signed.message) ==> P.SignatureOk(c.deal, signed)
    ensures P.Rejection(c.deal, s.producer.last, signed) == None
    ensures signed.message.sequence == |s.session.sent| && Allowed(c, s, Produce(P.Arrive(0, signed)))
  {
    var n := |s.session.sent|;
    assert EncodeCommitmentBytes(signed.message) == Some(MessageBytes(signed.message));
    M.ChainOrdered(c.terms, s.session, n - 1, n - 1);
    if s.producer.last.Some? {
      SentInOrder(c, s, s.producer.last.value.message, signed.message);
    }
  }

  // The commitment the session has just signed is accepted.
  lemma {:induction false} Deliver(c: Config, s0: System, events: seq<Event>, sign: Bytes -> Signature, n: nat)
    returns (run: seq<Event>)
    requires ConfigOk(c) && Initial(c, s0) && Legal(c, s0, events) && Roomy(c, sign, n)
    requires var s := RunAll(c, s0, events);
             s.session.sent != [] && P.Ack(s.producer.last) == |s.session.sent| - 1
    ensures Legal(c, s0, run) && |run| == |events| + 1 && run[..|events|] == events
    ensures var s, s' := RunAll(c, s0, events), RunAll(c, s0, run);
            && s' == s.(producer := s'.producer)
            && P.Ack(s'.producer.last) == |s.session.sent|
            && s'.producer == s.producer.(last := s'.producer.last, lastAt := s.producer.now)
  {
    RunKeepsSystem(c, s0, events);
    var s := RunAll(c, s0, events);
    var m := s.session.sent[|s.session.sent| - 1];
    var signed := SignedCommitment(m, sign(MessageBytes(m)));
    NewestIsAccepted(c, s, signed);
    hide SystemOk, ConfigOk, P.Rejection;
    run := events + [Produce(P.Arrive(0, signed))];
    Extend(c, s0, events, Produce(P.Arrive(0, signed)));
  }

  // The token is out and absorbed; at most the commitment it called for is in flight.
  ghost predicate InFlight(c: Config, s: System, n: nat) {
    && s.session.outcome == S.Streaming && s.session.tokens == n == s.producer.delivered
    && s.producer.point == P.AtYield && !s.producer.first
    && !s.producer.halted && s.producer.lastAt == s.producer.now
    && (P.Ack(s.producer.last) == |s.session.sent|
        || (s.session.sent != [] && P.Ack(s.producer.last) == |s.session.sent| - 1))
  }

  lemma SendAndAbsorb(c: Config, s0: System, events: seq<Event>, sign: Bytes -> Signature, n: nat)
    returns (run: seq<Event>)
    requires ConfigOk(c) && Initial(c, s0) && Legal(c, s0, events) && Roomy(c, sign, n + 1)
    requires InStep(c, RunAll(c, s0, events), n) && !IsPaused(c, RunAll(c, s0, events))
    ensures Legal(c, s0, run) && InFlight(c, RunAll(c, s0, run), n + 1)
    ensures RunAll(c, s0, run).ledger == RunAll(c, s0, events).ledger
  {
    var s := RunAll(c, s0, events);
    RunKeepsSystem(c, s0, events);
    assert M.SessionOk(c.terms, s.session);
    hide SystemOk, ConfigOk, M.SessionOk, S.Step, P.Unpaid, Legal, Allowed, RunAll;
    run := SendNext(c, s0, events, sign, n);
    var e := Consume(false, 0, true);
    HonestMoves(c, RunAll(c, s0, run));
    Extend(c, s0, run, e);
    Absorbs(c, s.session, RunAll(c, s0, run + [e]).session);
    run := run + [e];
  }

  // One token end to end, its commitment included if one falls due.
  lemma OneRound(c: Config, s0: System, events: seq<Event>, sign: Bytes -> Signature, n: nat)
    returns (run: seq<Event>)
    requires ConfigOk(c) && Initial(c, s0) && Legal(c, s0, events) && Roomy(c, sign, n + 1)
    requires InStep(c, RunAll(c, s0, events), n) && !IsPaused(c, RunAll(c, s0, events))
    ensures Legal(c, s0, run) && InStep(c, RunAll(c, s0, run), n + 1)
    ensures RunAll(c, s0, run).ledger == RunAll(c, s0, events).ledger
  {
    hide ConfigOk, Legal, Allowed, RunAll, Roomy;
    run := SendAndAbsorb(c, s0, events, sign, n);
    if P.Ack(RunAll(c, s0, run).producer.last) != |RunAll(c, s0, run).session.sent| {
      run := Deliver(c, s0, run, sign, n + 1);
    }
    HonestMoves(c, RunAll(c, s0, run));
    Extend(c, s0, run, Produce(P.Resume(0)));
    run := run + [Produce(P.Resume(0))];
  }

  lemma HonestMoves(c: Config, s: System)
    ensures Allowed(c, s, Produce(P.Resume(0)))
    ensures s.session.outcome == S.Streaming && s.session.tokens < |s.producer.out| ==>
              Allowed(c, s, Consume(false, 0, true))
  {
  }

  lemma NextFits(c: Config, s: S.State)
    requires ConfigOk(c) && M.SessionOk(c.terms, s) && s.outcome == S.Streaming
    requires s.tokens + 1 < 0x1_0000_0000
    ensures s.sequence + 1 <= U64_MAX
    ensures 0 <= M.Meter(c.terms, s.tokens + 1) <= U64_MAX
  {
    M.CoveredAtLeast(c.terms, |s.sent|);
    M.MeterBounds(c.terms, s.tokens + 1);
    hide M.Meter;
    assert c.terms.deposit == c.start.depositMicro;
  }

  // A posted turn without evaluator or silence keeps the session streaming.
  lemma Absorbs(c: Config, s: S.State, s': S.State)
    requires ConfigOk(c) && M.SessionOk(c.terms, s) && s.outcome == S.Streaming && c.terms.evaluator == None
    requires s.tokens + 1 < 0x1_0000_0000
    requires exists text :: s' == S.Step(c.terms, s, S.Token(text, false, 0, true))
    ensures s'.outcome == S.Streaming && s'.tokens == s.tokens + 1
    ensures s'.sent == s.sent || |s'.sent| == |s.sent| + 1
  {
    var text :| s' == S.Step(c.terms, s, S.Token(text, false, 0, true));
    assert s.paid == M.Meter(c.terms, s.tokens);
    M.PaidIsMeter(c.terms, s, text);
    NextFits(c, s);
    hide M.SessionOk, M.Meter, S.NextK;
  }

  // While nobody is stuck, the run goes on in step for as many tokens as we like.
  lemma {:induction false} PausedOrInStep(c: Config, s0: System, sign: Bytes -> Signature, n: nat)
    returns (run: seq<Event>)
    requires ConfigOk(c) && Initial(c, s0) && Roomy(c, sign, n)
    ensures Legal(c, s0, run)
    ensures var s := RunAll(c, s0, run);
            && Quiescent(s) && s.session.tokens <= n && DepositCovers(c, s.session.tokens)
            && (InStep(c, s, n) || (s.producer.point == P.AwaitToken && IsPaused(c, s)))
    ensures RunAll(c, s0, run).ledger == s0.ledger
  {
    hide ConfigOk, Initial, Legal, P.Unpaid, RunAll, Roomy;
    RoomyForLess(c, sign, n);
    if n == 0 {
      run := StartsInStep(c, s0, sign);
    } else {
      run := PausedOrInStep(c, s0, sign, n - 1);
      var s := RunAll(c, s0, run);
      if InStep(c, s, n - 1) && !IsPaused(c, s) {
        run := OneRound(c, s0, run, sign, n - 1);
      }
    }
  }

  lemma RoomyForLess(c: Config, sign: Bytes -> Signature, n: nat)
    requires Roomy(c, sign, n)
    ensures DepositCovers(c, n) && (n > 0 ==> Roomy(c, sign, n - 1) && DepositCovers(c, n - 1))
  {
    if n > 0 { MulMonotone(n - 1, n, c.deal.price); }
  }

  lemma StartsInStep(c: Config, s0: System, sign: Bytes -> Signature) returns (run: seq<Event>)
    requires ConfigOk(c) && Initial(c, s0) && Roomy(c, sign, 0)
    ensures Legal(c, s0, run) && InStep(c, RunAll(c, s0, run), 0)
    ensures Quiescent(RunAll(c, s0, run)) && DepositCovers(c, 0) && RunAll(c, s0, run).ledger == s0.ledger
  {
    var e := Produce(P.Resume(0));
    Extend(c, s0, [], e);
    run := [] + [e];
    RunKeepsSystem(c, s0, []);
  }

  // Below the bound nobody gets stuck: the run reaches any number of tokens.
  lemma StaysInStep(c: Config, s0: System, sign: Bytes -> Signature, n: nat) returns (run: seq<Event>)
    requires ConfigOk(c) && Initial(c, s0) && Roomy(c, sign, n)
    requires (c.terms.kMax - 1) * c.deal.price < c.deal.maxUnpaid
    ensures Legal(c, s0, run) && InStep(c, RunAll(c, s0, run), n) && RunAll(c, s0, run).ledger == s0.ledger
    ensures n >= 1 ==> RunAll(c, s0, run).session.sent != []
  {
    run := PausedOrInStep(c, s0, sign, n);
    NeverPausedForGood(c, s0, run);
    RunKeepsSystem(c, s0, run);
    assert M.Covered(c.terms, 0) == 0 && M.BatchSize(c.terms, 0) <= 1;
  }

  // After `Covered(ramp) + k_max - 1` tokens a full batch but one is outstanding.
  lemma OutstandingBatch(t: S.Terms, s: S.State, ramp: nat)
    requires S.TermsOk(t) && M.SessionOk(t, s) && s.outcome == S.Streaming
    requires t.unpaidCap > 0 && M.Pow2(ramp) >= t.kMax
    requires s.tokens == M.Covered(t, ramp) + t.kMax - 1
    ensures s.since == t.kMax - 1
  {
    var n := |s.sent|;
    M.BatchDoubles(t, n);
    assert M.BatchSize(t, ramp) == t.kMax;
    if n < ramp {
      M.CoveredIncreases(t, n + 1, ramp);
    } else if ramp < n {
      M.CoveredIncreases(t, ramp + 1, n);
    }
  }

  lemma QuiescentStreams(s: System)
    requires Quiescent(s)
    ensures s.session.outcome == S.Streaming
  {
  }

  lemma OutstandingMeansPaused(c: Config, s: System, ramp: nat)
    requires ConfigOk(c) && SystemOk(c, s) && Quiescent(s) && DepositCovers(c, s.session.tokens)
    requires (c.terms.kMax - 1) * c.deal.price >= c.deal.maxUnpaid && M.Pow2(ramp) >= c.terms.kMax
    requires s.session.tokens == M.Covered(c.terms, ramp) + c.terms.kMax - 1
    ensures IsPaused(c, s)
  {
    assert S.TermsOk(c.terms) && M.SessionOk(c.terms, s.session) && c.terms.unpaidCap > 0;
    hide ConfigOk, SystemOk, M.SessionOk, M.Covered, M.Pow2, P.Unpaid, Quiescent, DepositCovers, S.TermsOk;
    assert s.session.outcome == S.Streaming by { QuiescentStreams(s); }
    QuiescentUnpaid(c, s);
    OutstandingBatch(c.terms, s.session, ramp);
  }

  lemma EnterPause(c: Config, s0: System, run: seq<Event>)
    requires Legal(c, s0, run)
    requires var s := RunAll(c, s0, run);
             && Quiescent(s) && IsPaused(c, s) && s.producer.point == P.AwaitToken
             && s.producer.next < |c.tokens|
    ensures var run' := run + [Produce(P.Resume(0))];
            var s := RunAll(c, s0, run');
            && Legal(c, s0, run') && s.session == RunAll(c, s0, run).session
            && Quiescent(s) && IsPaused(c, s) && s.producer.point.PauseSleep?
  {
    Extend(c, s0, run, Produce(P.Resume(0)));
  }

  /** And the bound is tight: otherwise some legal run, with everybody honest and nothing
      lost, ends quiescent with the producer in the pause loop. */
  lemma {:induction false} DeadlockOtherwise(c: Config, s0: System, sign: Bytes -> Signature, ramp: nat)
    returns (run: seq<Event>)
    requires ConfigOk(c) && Initial(c, s0)
    requires (c.terms.kMax - 1) * c.deal.price >= c.deal.maxUnpaid
    requires M.Pow2(ramp) >= c.terms.kMax
    requires Roomy(c, sign, Max(0, M.Covered(c.terms, ramp) + c.terms.kMax))
    ensures Legal(c, s0, run)
    ensures var s := RunAll(c, s0, run);
            && Quiescent(s) && DepositCovers(c, s.session.tokens)
            && IsPaused(c, s) && s.producer.point.PauseSleep?
  {
    M.CoveredAtLeast(c.terms, ramp);
    var n := M.Covered(c.terms, ramp) + c.terms.kMax - 1;
    MulMonotone(n, n + 1, c.deal.price);
    run := PausedOrInStep(c, s0, sign, n);
    RunKeepsSystem(c, s0, run);
    if InStep(c, RunAll(c, s0, run), n) {
      OutstandingMeansPaused(c, RunAll(c, s0, run), ramp);
    }
    EnterPause(c, s0, run);
    run := run + [Produce(P.Resume(0))];
  }

  ghost predicate DeadlockFree(c: Config, s0: System) {
    forall run ::
      (Legal(c, s0, run) && Quiescent(RunAll(c, s0, run)) && DepositCovers(c, RunAll(c, s0, run).session.tokens))
      ==> !IsPaused(c, RunAll(c, s0, run))
  }

  /** The exact condition, which either side can check from the published terms. */
  lemma DeadlockFreeIff(c: Config, s0: System, sign: Bytes -> Signature, ramp: nat)
    requires ConfigOk(c) && Initial(c, s0) && M.Pow2(ramp) >= c.terms.kMax
    requires Roomy(c, sign, Max(0, M.Covered(c.terms, ramp) + c.terms.kMax))
    ensures DeadlockFree(c, s0) <==> (c.terms.kMax - 1) * c.deal.price < c.deal.maxUnpaid
  {
    if (c.terms.kMax - 1) * c.deal.price < c.deal.maxUnpaid {
      forall run | Legal(c, s0, run) && Quiescent(RunAll(c, s0, run))
                   && DepositCovers(c, RunAll(c, s0, run).session.tokens)
        ensures !IsPaused(c, RunAll(c, s0, run))
      {
        NeverPausedForGood(c, s0, run);
      }
    } else {
      var run := DeadlockOtherwise(c, s0, sign, ramp);
    }
  }
}
