/** A commitment accepted while the producer's settle is on its way. The settle carries what
    was held when the stream ended; the session signs its final commitment after that. */
module InFlightSettle {
  import opened Types
  import opened Commitment
  import opened Ed25519
  import opened ChannelState
  import opened TapProgram
  import opened LedgerRuns
  import opened Netting
  import opened EndToEnd
  import opened PauseDeadlock
  import S = Session
  import M = SessionMeter
  import P = Producer
  import R = ProducerRuns

  // -------------------------------------------- what the settle then misses

  /** A session that ended by the sentinel: its forced, final commitment adds less than a
      full batch to the one before. */
  predicate FinalBatchSmall(t: S.Terms, s: S.State) {
    s.outcome == S.Finished ==>
      s.sent != [] && 0 <= s.tokens - CoveredBy(s.sent, |s.sent| - 1) < t.kMax
  }

  lemma StepKeepsFinal(t: S.Terms, s: S.State, e: S.Event)
    requires S.TermsOk(t) && M.SessionOk(t, s) && FinalBatchSmall(t, s)
    ensures FinalBatchSmall(t, S.Step(t, s, e))
  {
    hide M.Meter, M.ChainOk;
    if s.outcome == S.Streaming && e.Done? {
      assert M.Covered(t, 0) == 0;
      M.BatchDoubles(t, |s.sent|);
      hide M.Covered, M.BatchSize;
    }
  }

  lemma {:induction false} RunKeepsFinal(c: Config, s0: System, events: seq<Event>)
    requires ConfigOk(c) && Initial(c, s0) && Legal(c, s0, events)
    ensures FinalBatchSmall(c.terms, RunAll(c, s0, events).session)
  {
    if events != [] {
      var n := |events| - 1;
      RunKeepsFinal(c, s0, events[..n]);
      RunKeepsSystem(c, s0, events[..n]);
      var s := RunAll(c, s0, events[..n]);
      match events[n]
      case Consume(silent, at, posted) =>
        StepKeepsFinal(c.terms, s.session, S.Token(s.producer.out[s.session.tokens].0, silent, at, posted));
      case StreamEnds(e) => StepKeepsFinal(c.terms, s.session, e);
      case _ =>
    }
  }

  /** When the final commitment of a sentinel-ended session misses the record, and the one
      before it (or none, if there is none) is on it, the channel pays the exact price of
      the tokens that one covers: fewer than `k_max` authorized tokens go uncollected. */
  lemma {:induction false} MissedFinalCommitment(c: Config, s0: System, events: seq<Event>)
    requires ConfigOk(c) && Initial(c, s0) && Legal(c, s0, events)
    requires c.deal.channel in RunAll(c, s0, events).ledger.channels
    requires var s := RunAll(c, s0, events);
             s.session.outcome == S.Finished
             && s.ledger.channels[c.deal.channel].lastSequence == |s.session.sent| - 1
    ensures var s := RunAll(c, s0, events);
            var covered := CoveredBy(s.session.sent, |s.session.sent| - 1);
            && Payout(s.ledger.channels[c.deal.channel])
               == Min(c.deal.deposit, c.deal.prepaid + covered * c.deal.price)
            && 0 <= s.session.tokens - covered < c.terms.kMax
  {
    hide ConfigOk, Initial, Legal, RunAll, Payout;
    RunKeepsFinal(c, s0, events);
    PayoutIsMeterOfRecord(c, s0, events);
  }

  // ------------------------------------------------------- and it does miss

  /** The stream is over for the producer, which builds its settle now. */
  ghost predicate StreamOver(c: Config, s: System, n: nat) {
    && Quiescent(s) && s.session.tokens == n && s.session.sent != []
    && s.producer.point.Returned? && s.producer.last.Some? && |s.producer.out| == n
  }

  lemma FinalFits(c: Config, s: S.State)
    requires ConfigOk(c) && M.SessionOk(c.terms, s) && s.outcome == S.Streaming && s.tokens < 0x1_0000_0000
    ensures s.sequence + 1 <= U64_MAX && s.paid == M.Meter(c.terms, s.tokens) && 0 <= s.paid <= U64_MAX
  {
    M.CoveredAtLeast(c.terms, |s.sent|);
    M.MeterBounds(c.terms, s.tokens);
    hide M.Meter;
    assert c.terms.deposit == c.start.depositMicro;
  }

  lemma DoneSigns(c: Config, s: S.State)
    requires ConfigOk(c) && M.SessionOk(c.terms, s) && s.outcome == S.Streaming && s.tokens < 0x1_0000_0000
    ensures var s' := S.Step(c.terms, s, S.Done(0, true));
            && s'.outcome == S.Finished && s'.tokens == s.tokens
            && |s'.sent| == |s.sent| + 1
            && s'.sent[|s.sent|].cumulativePaid == M.Meter(c.terms, s.tokens)
            && s'.sent[|s.sent|].sequence == |s.sent| + 1
  {
    FinalFits(c, s);
    hide M.Meter, M.Covered, M.BatchSize, M.ChainOk;
  }

  // Every token out, absorbed and committed for as far as batches are full.
  lemma StreamToTheEnd(c: Config, s0: System, sign: Bytes -> Signature) returns (run: seq<Event>)
    requires ConfigOk(c) && Initial(c, s0) && Roomy(c, sign, |c.tokens|) && c.tokens != []
    requires (c.terms.kMax - 1) * c.deal.price < c.deal.maxUnpaid
    ensures Legal(c, s0, run) && StreamOver(c, RunAll(c, s0, run), |c.tokens|)
    ensures RunAll(c, s0, run).ledger == s0.ledger
  {
    hide ConfigOk, Legal, Allowed;
    var before := StaysInStep(c, s0, sign, |c.tokens|);
    HonestMoves(c, RunAll(c, s0, before));
    Extend(c, s0, before, Produce(P.Resume(0)));
    LastResume(c, s0, before);
    run := before + [Produce(P.Resume(0))];
  }

  lemma LastResume(c: Config, s0: System, before: seq<Event>)
    requires ConfigOk(c) && Initial(c, s0) && Legal(c, s0, before) && c.tokens != []
    requires InStep(c, RunAll(c, s0, before), |c.tokens|) && RunAll(c, s0, before).session.sent != []
    ensures var s := RunAll(c, s0, before);
            var p := P.Resumed(c.deal, c.tokens, s.producer);
            && p == s.producer.(point := P.Returned)
            && p.last.Some? && |p.out| == |c.tokens|
  {
    RunKeepsSystem(c, s0, before);
    hide M.SessionOk, LedgerOk;
  }

  /** The final commitment is accepted, the settle lands in time, and what it records is the
      commitment before; what is then missing is the price of the unfinished batch. */
  ghost predicate Missed(c: Config, was: System, s: System, rest: Instruction) {
    && c.deal.channel in s.ledger.channels && was.producer.last.Some?
    && var held := was.producer.last.value;
    && Wire(held)
    && s.session.outcome == S.Finished && s.session.tokens == s.producer.delivered
    && P.Ack(s.producer.last) == |s.session.sent| == held.message.sequence + 1
    && SettleRecords(c, s, held, rest)
    && P.Cumulative(c.deal, s.producer.last) - held.message.cumulativePaid == was.session.since * c.deal.price
  }

  lemma EndIsAllowed(c: Config, was: System, n: nat)
    requires StreamOver(c, was, n)
    ensures Allowed(c, was, StreamEnds(S.Done(0, true)))
  {
  }

  lemma NewestHeld(c: Config, s: System)
    requires ConfigOk(c) && SystemOk(c, s) && s.session.sent != []
    requires P.Ack(s.producer.last) == |s.session.sent|
    ensures s.producer.last.Some?
    ensures s.producer.last.value.message == s.session.sent[|s.session.sent| - 1]
  {
    hide R.ProducerOk, LedgerOk;
    assert M.ChainOk(c.terms, s.session);
    hide M.SessionOk, M.Meter;
    var i: nat :| i < |s.session.sent| && s.session.sent[i] == s.producer.last.value.message;
  }

  lemma UncollectedBatch(c: Config, was: System, s: System, n: nat)
    requires ConfigOk(c) && SystemOk(c, was) && SystemOk(c, s) && StreamOver(c, was, n)
    requires n < 0x1_0000_0000 && DepositCovers(c, n)
    requires s.session == S.Step(c.terms, was.session, S.Done(0, true))
    requires P.Ack(s.producer.last) == |s.session.sent|
    ensures s.session.outcome == S.Finished && s.session.tokens == n
    ensures |s.session.sent| == P.Ack(was.producer.last) + 1
    ensures P.Cumulative(c.deal, s.producer.last) - P.Cumulative(c.deal, was.producer.last)
         == was.session.since * c.deal.price
  {
    assert M.SessionOk(c.terms, was.session) && c.terms.deposit == c.deal.deposit;
    assert c.terms.prepaid == c.deal.prepaid && c.terms.price == c.deal.price;
    hide ConfigOk, SystemOk, R.ProducerOk, M.SessionOk, LedgerOk, S.Step;
    DoneSigns(c, was.session);
    NewestHeld(c, s);
    QuiescentHeld(c, was);
    BatchPrice(c.deal.price, c.deal.prepaid, c.deal.deposit, n, was.session.since);
  }

  lemma BatchPrice(price: nat, prepaid: nat, deposit: nat, n: nat, since: nat)
    requires since <= n && prepaid + n * price <= deposit
    ensures Min(deposit, prepaid + n * price) - Min(deposit, prepaid + (n - since) * price) == since * price
  {
    MulMonotone(n - since, n, price);
    assert n * price == (n - since) * price + since * price;
  }

  lemma SettleMisses(c: Config, was: System, s: System, n: nat, rest: Instruction)
    requires ConfigOk(c) && SystemOk(c, was) && SystemOk(c, s) && StreamOver(c, was, n)
    requires n < 0x1_0000_0000 && DepositCovers(c, n)
    requires s.session == S.Step(c.terms, was.session, S.Done(0, true))
    requires P.Ack(s.producer.last) == |s.session.sent| && s.producer.delivered == was.producer.delivered
    requires c.deal.channel in s.ledger.channels && rest.programId != ED25519_PROGRAM_ID
    requires SettleInTime(s.ledger.channels[c.deal.channel], s.ledger.now)
    ensures Missed(c, was, s, rest)
  {
    hide ConfigOk, SystemOk, S.Step, SettleRecords, Wire;
    UncollectedBatch(c, was, s, n);
    SettleEffect(c, was, s, rest);
  }

  lemma FinalIsPending(c: Config, was: System, n: nat)
    requires ConfigOk(c) && SystemOk(c, was) && StreamOver(c, was, n) && n < 0x1_0000_0000
    ensures var s := S.Step(c.terms, was.session, S.Done(0, true));
            s.sent != [] && P.Ack(was.producer.last) == |s.sent| - 1
  {
    DoneSigns(c, was.session);
    hide S.Step;
  }

  /** The run: an honest stream to its end, sentinel, final commitment, accepted. Nobody else
      touches the channel, and still the settle built when the stream ended, at `k`,
      records the commitment before the last. */
  lemma {:induction false} FinalCommitmentMissesSettle(
      c: Config, s0: System, sign: Bytes -> Signature, rest: Instruction)
    returns (run: seq<Event>, k: nat)
    requires ConfigOk(c) && Initial(c, s0) && Roomy(c, sign, |c.tokens|) && c.tokens != []
    requires (c.terms.kMax - 1) * c.deal.price < c.deal.maxUnpaid
    requires SettleInTime(c.start, s0.ledger.now) && rest.programId != ED25519_PROGRAM_ID
    ensures Legal(c, s0, run) && k <= |run| && StreamOver(c, RunAll(c, s0, run[..k]), |c.tokens|)
    ensures Missed(c, RunAll(c, s0, run[..k]), RunAll(c, s0, run), rest)
  {
    hide ConfigOk, SystemOk, Legal, Allowed, RunAll, StreamOver, Missed, S.Step;
    var n := |c.tokens|;
    var before := StreamToTheEnd(c, s0, sign);
    RunKeepsSystem(c, s0, before);
    var was := RunAll(c, s0, before);
    var over := before + [StreamEnds(S.Done(0, true))];
    EndIsAllowed(c, was, n);
    Extend(c, s0, before, StreamEnds(S.Done(0, true)));
    FinalIsPending(c, was, n);
    run := Deliver(c, s0, over, sign, n);
    k := |before|;
    assert over[..k] == before && run[..k] == run[..|over|][..k];
    RunKeepsSystem(c, s0, run);
    SettleMisses(c, was, RunAll(c, s0, run), n, rest);
  }
}
