/** Why the producer's floor needs a disputer: a stale settlement that lands first stands,
    because the producer's own transaction is a `settle`. */
module StaleSettlement {
  import opened Types
  import opened Commitment
  import opened Ed25519
  import opened ChannelState
  import opened TapProgram
  import opened LedgerRuns
  import opened Netting
  import opened EndToEnd
  import opened PauseDeadlock
  import S = Session
  import M = SessionMeter
  import P = Producer
  import R = ProducerRuns

  // The first commitment covers at most one token.
  predicate FirstIsSmall(s: S.State) { s.sent != [] ==> s.sent[0].tokensReceived <= 1 }

  lemma StepKeepsFirst(t: S.Terms, s: S.State, e: S.Event)
    requires S.TermsOk(t) && M.SessionOk(t, s) && FirstIsSmall(s)
    ensures FirstIsSmall(S.Step(t, s, e))
  {
    if s.sent == [] && s.outcome == S.Streaming {
      assert M.Covered(t, 0) == 0 && M.BatchSize(t, 0) <= 1;
    }
  }

  lemma {:induction false} RunKeepsFirst(c: Config, s0: System, events: seq<Event>)
    requires ConfigOk(c) && Initial(c, s0) && Legal(c, s0, events)
    ensures FirstIsSmall(RunAll(c, s0, events).session)
  {
    if events != [] {
      var n := |events| - 1;
      RunKeepsFirst(c, s0, events[..n]);
      RunKeepsSystem(c, s0, events[..n]);
      var s := RunAll(c, s0, events[..n]);
      match events[n]
      case Consume(silent, at, posted) =>
        StepKeepsFirst(c.terms, s.session, S.Token(s.producer.out[s.session.tokens].0, silent, at, posted));
      case StreamEnds(e) => StepKeepsFirst(c.terms, s.session, e);
      case _ =>
    }
  }

  /** Where the run below ends: the producer holds the session's newest commitment, its
      `settle` is refused, the dispute window is over, and what the channel will pay falls
      short of the delivered value by at least `max_unpaid` and a token. */
  ghost predicate ShortPaid(c: Config, s: System, rest: Instruction) {
    && c.deal.channel in s.ledger.channels
    && s.producer.last.Some? && Wire(s.producer.last.value)
    && P.Ack(s.producer.last) == |s.session.sent|
    && var ch := s.ledger.channels[c.deal.channel];
    && Execute(s.ledger, SettleOf(c, s, s.producer.last.value, rest)) == Err(ChannelNotActive)
    && CloseTimeError(ch, s.ledger.now).None?
    && Payout(ch) <= c.deal.prepaid + s.producer.delivered * c.deal.price - c.deal.maxUnpaid - c.deal.price
  }

  // The session's first commitment, as anybody who saw it may submit it.
  function FirstSigned(s: System, sign: Bytes -> Signature): SignedCommitment
    requires s.session.sent != [] && InRange(s.session.sent[0])
  {
    SignedCommitment(s.session.sent[0], sign(MessageBytes(s.session.sent[0])))
  }

  lemma FirstIsCheap(c: Config, s: System)
    requires ConfigOk(c) && SystemOk(c, s) && FirstIsSmall(s.session) && s.session.sent != []
    ensures var m := s.session.sent[0];
            InRange(m) && m.channel == c.deal.channel && m.sequence == 1 && m in s.session.sent
            && c.deal.prepaid <= m.cumulativePaid <= Min(c.deal.deposit, c.deal.prepaid + c.deal.price)
  {
    hide R.ProducerOk, LedgerOk;
    var m := s.session.sent[0];
    M.ChainOrdered(c.terms, s.session, 0, 0);
    M.MeterMonotone(c.terms, m.tokensReceived, 1);
  }

  lemma FirstSettles(c: Config, w: Ledger, sc: SignedCommitment, rest: Instruction)
    requires ConfigOk(c) && c.deal.channel in w.channels && w.channels[c.deal.channel] == c.start
    requires SettleInTime(c.start, w.now) && rest.programId != ED25519_PROGRAM_ID
    requires InRange(sc.message) && P.SignatureOk(c.deal, sc)
    requires sc.message.channel == c.deal.channel && sc.message.sequence == 1
    requires c.deal.prepaid <= sc.message.cumulativePaid <= Min(c.deal.deposit, c.deal.prepaid + c.deal.price)
    ensures var tx := SdkTx(c.deal.sessionKey, sc, rest);
            var w' := Apply(w, Exec(Settle(c.deal.channel, sc.message, sc.signature, tx)));
            && OwnDataOnly(tx) && RuntimePasses(c.deal.valid, tx)
            && w'.now == w.now && c.deal.channel in w'.channels
            && var ch := w'.channels[c.deal.channel];
               ch.status == Settling && ch.settledAt == w'.now && ch.disputeSecs == c.start.disputeSecs
               && Payout(ch) <= c.deal.prepaid + c.deal.price
  {
    SdkTransactionAcceptedIffValid(c.deal.valid, c.deal.sessionKey, sc.signature, MessageBytes(sc.message), rest);
    hide RuntimePasses, OwnDataOnly, HasSibling, Execute, Submit, SettleChannel, P.SignatureOk;
    SubmitIsLanding(c.deal, w, sc, rest);
    FirstIsRecorded(c, sc, w.now);
  }

  lemma FirstIsRecorded(c: Config, sc: SignedCommitment, now: i64)
    requires ConfigOk(c) && SettleInTime(c.start, now) && InRange(sc.message) && P.SignatureOk(c.deal, sc)
    requires sc.message.channel == c.deal.channel && sc.message.sequence == 1
    requires c.deal.prepaid <= sc.message.cumulativePaid <= Min(c.deal.deposit, c.deal.prepaid + c.deal.price)
    ensures var ch := Submit(c.deal, c.start, sc, now);
            ch.status == Settling && ch.settledAt == now && ch.disputeSecs == c.start.disputeSecs
            && Payout(ch) <= c.deal.prepaid + c.deal.price
  {
  }

  lemma FirstCanBeSettled(c: Config, s0: System, events: seq<Event>, sign: Bytes -> Signature, rest: Instruction)
    returns (ix: Ix)
    requires ConfigOk(c) && Initial(c, s0) && Legal(c, s0, events)
    requires forall m: Bytes :: c.deal.valid(c.deal.sessionKey, m, sign(m))
    requires rest.programId != ED25519_PROGRAM_ID
    requires var s := RunAll(c, s0, events);
             s.ledger == s0.ledger && s.session.sent != [] && SettleInTime(c.start, s.ledger.now)
    ensures Allowed(c, RunAll(c, s0, events), OnChain(Exec(ix)))
    ensures var s := RunAll(c, s0, events);
            var w' := Apply(s.ledger, Exec(ix));
            && w'.now == s.ledger.now && c.deal.channel in w'.channels
            && var ch := w'.channels[c.deal.channel];
               ch.status == Settling && ch.settledAt == w'.now && ch.disputeSecs == c.start.disputeSecs
               && Payout(ch) <= c.deal.prepaid + c.deal.price
  {
    hide SystemOk, RuntimePasses, OwnDataOnly, Execute, SdkTx, Legal, RunAll, ConfigOk;
    RunKeepsSystem(c, s0, events);
    RunKeepsFirst(c, s0, events);
    var s := RunAll(c, s0, events);
    FirstIsCheap(c, s);
    var sc := FirstSigned(s, sign);
    FirstSettles(c, s.ledger, sc, rest);
    assert EncodeCommitmentBytes(sc.message) == Some(MessageBytes(sc.message));
    ix := Settle(c.deal.channel, sc.message, sc.signature, SdkTx(c.deal.sessionKey, sc, rest));
  }

  lemma AppendStep(c: Config, s0: System, events: seq<Event>, step: Step)
    requires Legal(c, s0, events) && Allowed(c, RunAll(c, s0, events), OnChain(step))
    ensures Legal(c, s0, events + [OnChain(step)])
    ensures var s := RunAll(c, s0, events);
            RunAll(c, s0, events + [OnChain(step)]) == s.(ledger := Apply(s.ledger, step))
  {
    Extend(c, s0, events, OnChain(step));
  }

  // In step for `n` tokens, everything signed and accepted, the ledger as at the start.
  lemma AllAccepted(c: Config, s0: System, sign: Bytes -> Signature, n: nat) returns (run: seq<Event>)
    requires ConfigOk(c) && Initial(c, s0) && Roomy(c, sign, n) && n >= 1
    requires (c.terms.kMax - 1) * c.deal.price < c.deal.maxUnpaid
    ensures Legal(c, s0, run)
    ensures var s := RunAll(c, s0, run);
            s.ledger == s0.ledger && s.producer.delivered == n && s.session.sent != []
            && P.Ack(s.producer.last) == |s.session.sent| && s.producer.last.Some?
  {
    run := StaysInStep(c, s0, sign, n);
    RunKeepsSystem(c, s0, run);
  }

  /** The lower bound of the producer's loss is not its own to enforce: on any channel that
      can stream long enough there is a legal run, everybody else honest, in which somebody
      settles the session's first commitment before the producer settles its last. */
  lemma {:induction false} StaleSettlementStands(
      c: Config, s0: System, sign: Bytes -> Signature, n: nat, rest: Instruction)
    returns (run: seq<Event>)
    requires ConfigOk(c) && Initial(c, s0) && Roomy(c, sign, n)
    requires (c.terms.kMax - 1) * c.deal.price < c.deal.maxUnpaid
    requires n * c.deal.price >= c.deal.maxUnpaid + 2 * c.deal.price
    requires SettleInTime(c.start, s0.ledger.now) && s0.ledger.now + c.start.disputeSecs < I64_MAX
    requires rest.programId != ED25519_PROGRAM_ID
    ensures Legal(c, s0, run) && ShortPaid(c, RunAll(c, s0, run), rest)
  {
    hide ConfigOk, SystemOk, Initial, Legal, Allowed, RunAll, Execute, Payout, ShortPaid;
    run := AllAccepted(c, s0, sign, n);
    var s := RunAll(c, s0, run);
    var ix := FirstCanBeSettled(c, s0, run, sign, rest);
    AppendStep(c, s0, run, Exec(ix));
    run := run + [OnChain(Exec(ix))];
    AppendStep(c, s0, run, Wait(c.start.disputeSecs + 1));
    run := run + [OnChain(Wait(c.start.disputeSecs + 1))];
    RunKeepsSystem(c, s0, run);
    StandsAfterWindow(c, s, RunAll(c, s0, run), n, rest);
  }

  lemma StandsAfterWindow(c: Config, s: System, s': System, n: nat, rest: Instruction)
    requires ConfigOk(c) && SystemOk(c, s') && c.deal.channel in s'.ledger.channels
    requires s'.session == s.session && s'.producer == s.producer
    requires s.producer.delivered == n && s.producer.last.Some? && P.Ack(s.producer.last) == |s.session.sent|
    requires n * c.deal.price >= c.deal.maxUnpaid + 2 * c.deal.price
    requires rest.programId != ED25519_PROGRAM_ID
    requires var ch := s'.ledger.channels[c.deal.channel];
             && ch.status == Settling && ch.settledAt + ch.disputeSecs < s'.ledger.now
             && Payout(ch) <= c.deal.prepaid + c.deal.price
    ensures ShortPaid(c, s', rest)
  {
    SettleEffect(c, s', s', rest);
    hide SystemOk, ConfigOk, Execute, Payout, SettleOf, Wire, P.Ack;
    SettleRefused(c, s', rest);
  }

  lemma SettleRefused(c: Config, s: System, rest: Instruction)
    requires c.deal.channel in s.ledger.channels && s.ledger.channels[c.deal.channel].status == Settling
    requires s.producer.last.Some? && Wire(s.producer.last.value)
    ensures Execute(s.ledger, SettleOf(c, s, s.producer.last.value, rest)) == Err(ChannelNotActive)
  {
    hide Signed;
  }
}
