/** The whole protocol as one system: a session, a network that may lose, repeat and
    reorder commitments, the producer's stream, and the chain with anyone acting on it. */
module EndToEnd {
  import opened Types
  import opened Commitment
  import opened Ed25519
  import opened ChannelState
  import opened TapProgram
  import opened LedgerRuns
  import opened Netting
  import S = Session
  import M = SessionMeter
  import P = Producer
  import R = ProducerRuns

  datatype Config = Config(terms: S.Terms, deal: P.Deal, tokens: seq<Text>, start: Channel)

  /** Consumer, producer and chain hold the same terms for one freshly opened channel. */
  predicate ConfigOk(c: Config) {
    && S.TermsOk(c.terms) && R.DealOk(c.deal)
    && c.terms.channel == c.deal.channel
    && c.terms.price == c.deal.price
    && c.terms.prepaid == c.deal.prepaid
    && c.terms.deposit == c.deal.deposit
    && c.terms.unpaidCap == c.deal.maxUnpaid
    && FreshChannel(c.deal, c.start)
  }

  datatype System = System(session: S.State, producer: P.State, ledger: Ledger)

  datatype Event =
    | Produce(event: P.Event)                          // the producer's event loop turns
    | Consume(silent: bool, at: int, posted: bool)     // the next sent token reaches the session
    | StreamEnds(ending: S.Event)                      // the response ends, well or badly
    | OnChain(step: Step)                              // anyone acts on chain, or time passes

  ghost predicate Initial(c: Config, s: System) {
    && s.session == S.Initial(c.terms)
    && (exists now :: s.producer == P.Fresh(now))
    && LedgerOk(s.ledger)
    && c.deal.channel in s.ledger.channels && s.ledger.channels[c.deal.channel] == c.start
  }

  /** A signature under the session key verifies only over what the session has signed. */
  ghost predicate Unforged(c: Config, s: System, message: Bytes, signature: Bytes) {
    c.deal.valid(c.deal.sessionKey, message, signature) ==>
      exists m :: m in s.session.sent && EncodeCommitmentBytes(m) == Some(message)
  }

  /** What the environment may do. Commitments reaching the producer are arbitrary but
      unforged: any earlier one, any number of times, in any order, or none. Anybody may
      send any instruction; one that settles or disputes our channel has passed the
      runtime, and the triple the scanner finds in it is the one the runtime verified
      (`OwnDataOnly`, whose exact reach is `Ed25519.FoundIsValidIff`). */
  ghost predicate Allowed(c: Config, s: System, e: Event) {
    match e
    case Produce(Arrive(_, signed)) =>
      InRange(signed.message) ==> Unforged(c, s, MessageBytes(signed.message), signed.signature)
    case Produce(Resume(_)) => true
    case Consume(_, _, _) => s.session.outcome == S.Streaming && s.session.tokens < |s.producer.out|
    case StreamEnds(event) =>
      (event.Done? && s.producer.point == P.Returned && s.session.tokens == |s.producer.out|)
      || event.Eof? || event.Broken?
    case OnChain(Wait(_)) => true
    case OnChain(Donate(_, _, _)) => true
    case OnChain(Exec(ix)) =>
      if Target(ix) != c.deal.channel then true
      else match ix
        case Open(_) => false
        case Close(_, _, _) => true
        case Settle(_, m, sig, tx) =>
          OwnDataOnly(tx) && RuntimePasses(c.deal.valid, tx) && Unforged(c, s, MessageBytes(m), sig)
        case Dispute(_, m, sig, tx) =>
          OwnDataOnly(tx) && RuntimePasses(c.deal.valid, tx) && Unforged(c, s, MessageBytes(m), sig)
  }

  function Next(c: Config, s: System, e: Event): System {
    match e
    case Produce(event) => s.(producer := P.Step(c.deal, c.tokens, s.producer, event))
    case Consume(silent, at, posted) =>
      if s.session.tokens < |s.producer.out| then
        s.(session := S.Step(c.terms, s.session, S.Token(s.producer.out[s.session.tokens].0, silent, at, posted)))
      else s
    case StreamEnds(event) => s.(session := S.Step(c.terms, s.session, event))
    case OnChain(step) => s.(ledger := Apply(s.ledger, step))
  }

  function RunAll(c: Config, s: System, events: seq<Event>): System {
    if events == [] then s else Next(c, RunAll(c, s, events[..|events| - 1]), events[|events| - 1])
  }

  ghost predicate Legal(c: Config, s: System, events: seq<Event>) {
    events == [] ||
    var init := events[..|events| - 1];
    Legal(c, s, init) && Allowed(c, RunAll(c, s, init), events[|events| - 1])
  }

  /** An accepted `open_channel` on the agreed terms is such a start. */
  lemma OpenStartsTheProtocol(w: Ledger, a: OpenArgs, c: Config, now: int)
    requires LedgerOk(w) && Execute(w, Open(a)).Ok?
    requires S.TermsOk(c.terms) && R.DealOk(c.deal) && c.terms.channel == c.deal.channel == a.channel
    requires c.terms.price == c.deal.price == a.outputPriceMicro
    requires c.terms.prepaid == c.deal.prepaid == a.prepaidInputMicro
    requires c.terms.deposit == c.deal.deposit == a.depositMicro && c.terms.unpaidCap == c.deal.maxUnpaid
    requires c.deal.sessionKey == a.sessionKey && c.start == NewChannel(a, w.now)
    ensures ConfigOk(c) && Initial(c, System(S.Initial(c.terms), P.Fresh(now), Execute(w, Open(a)).value))
  {
    OpenIsSafe(w, a);
    var w' := ExecOpen(w, a).value;
    assert w'.channels[a.channel] == NewChannel(a, w.now);
  }

  // -------------------------------------------------------------- invariant

  ghost predicate Committed(sent: seq<CommitMessage>, sequence: int, paid: int) {
    exists m :: m in sent && m.sequence == sequence && m.cumulativePaid == paid
  }

  ghost predicate SystemOk(c: Config, s: System) {
    && M.SessionOk(c.terms, s.session)
    && R.ProducerOk(c.deal, c.tokens, s.producer)
    && LedgerOk(s.ledger)
    && s.session.tokens <= s.producer.delivered
    && (s.producer.last.Some? ==> s.producer.last.value.message in s.session.sent)
    && (c.deal.channel in s.ledger.channels ==>
          var ch := s.ledger.channels[c.deal.channel];
          && Later(c.start, ch)
          && (ch.status == Settling ==> Committed(s.session.sent, ch.lastSequence, ch.lastCumulativePaid)))
  }

  lemma SentOnlyGrows(t: S.Terms, s: S.State, e: S.Event)
    ensures forall m :: m in s.sent ==> m in S.Step(t, s, e).sent
  {
  }

  lemma CommittedGrows(a: seq<CommitMessage>, b: seq<CommitMessage>, sequence: int, paid: int)
    requires Committed(a, sequence, paid) && forall m :: m in a ==> m in b
    ensures Committed(b, sequence, paid)
  {
  }

  lemma SessionStepKeeps(c: Config, s: System, e: S.Event)
    requires ConfigOk(c) && SystemOk(c, s)
    requires e.Token? ==> s.session.tokens < s.producer.delivered
    ensures SystemOk(c, s.(session := S.Step(c.terms, s.session, e)))
  {
    hide M.SessionOk, R.ProducerOk, FreshChannel;
    M.StepKeepsSession(c.terms, s.session, e);
    SentOnlyGrows(c.terms, s.session, e);
    if c.deal.channel in s.ledger.channels && s.ledger.channels[c.deal.channel].status == Settling {
      var ch := s.ledger.channels[c.deal.channel];
      CommittedGrows(s.session.sent, S.Step(c.terms, s.session, e).sent, ch.lastSequence, ch.lastCumulativePaid);
    }
  }

  lemma UnforgedIsSigned(c: Config, s: System, m: WireMessage, signature: Bytes)
    requires Unforged(c, s, MessageBytes(m), signature)
    requires c.deal.valid(c.deal.sessionKey, MessageBytes(m), signature)
    ensures m in s.session.sent
  {
    var m' :| m' in s.session.sent && EncodeCommitmentBytes(m') == Some(MessageBytes(m));
    SignedBytesDetermineCommitment(m', m);
  }

  lemma ProducerStepKeeps(c: Config, s: System, e: P.Event)
    requires ConfigOk(c) && SystemOk(c, s) && Allowed(c, s, Produce(e))
    ensures SystemOk(c, Next(c, s, Produce(e)))
  {
    R.StepKeepsProducer(c.deal, c.tokens, s.producer, e);
    DeliveredOnlyGrows(c.deal, c.tokens, s.producer, e);
    if e.Arrive? && P.Rejection(c.deal, s.producer.last, e.signed) == None {
      UnforgedIsSigned(c, s, e.signed.message, e.signed.signature);
    }
  }

  lemma DeliveredOnlyGrows(d: P.Deal, tokens: seq<Text>, p: P.State, e: P.Event)
    ensures p.delivered <= P.Step(d, tokens, p, e).delivered
    ensures e.Resume? ==> P.Step(d, tokens, p, e).last == p.last
  {
  }

  lemma LaterTransitive(a: Channel, b: Channel, d: Channel)
    requires Later(a, b) && Later(b, d)
    ensures Later(a, d)
  {
  }

  // An accepted commitment on our channel is one the session signed.
  lemma AcceptedIsSigned(c: Config, s: System, ix: Ix)
    requires ConfigOk(c) && SystemOk(c, s) && Allowed(c, s, OnChain(Exec(ix)))
    requires Target(ix) == c.deal.channel && (ix.Settle? || ix.Dispute?) && Execute(s.ledger, ix).Ok?
    ensures ix.commitment in s.session.sent
    ensures var ch := Execute(s.ledger, ix).value.channels[c.deal.channel];
            ch.lastSequence == ix.commitment.sequence && ch.lastCumulativePaid == ix.commitment.cumulativePaid
  {
    hide LedgerOk, M.SessionOk, R.ProducerOk, Unforged, Execute, HasSibling;
    AcceptedMeansRecorded(s.ledger, ix);
    var ch := s.ledger.channels[c.deal.channel];
    FoundMeansValid(c.deal.valid, ix.tx, ch.sessionKey, ix.signature, MessageBytes(ix.commitment));
    UnforgedIsSigned(c, s, ix.commitment, ix.signature);
  }

  lemma ChainStepKeeps(c: Config, s: System, step: Step)
    requires ConfigOk(c) && SystemOk(c, s) && Allowed(c, s, OnChain(step))
    ensures SystemOk(c, Next(c, s, OnChain(step)))
  {
    var addr, w' := c.deal.channel, Apply(s.ledger, step);
    assert NoReopen([step], addr);
    StepEvolves(s.ledger, step, addr);
    StepIsSafe(s.ledger, step);
    if addr in w'.channels {
      LaterTransitive(c.start, s.ledger.channels[addr], w'.channels[addr]);
      if step.Exec? && Execute(s.ledger, step.ix).Ok? {
        if Target(step.ix) == addr {
          ExecEvolves(s.ledger, step.ix, addr);
          AcceptedIsSigned(c, s, step.ix);
        } else {
          assert (w'.channels - {Target(step.ix)})[addr] == (s.ledger.channels - {Target(step.ix)})[addr];
        }
      }
    }
  }

  lemma NextKeepsSystem(c: Config, s: System, e: Event)
    requires ConfigOk(c) && SystemOk(c, s) && Allowed(c, s, e)
    ensures SystemOk(c, Next(c, s, e))
  {
    match e
    case Produce(event) => ProducerStepKeeps(c, s, event);
    case Consume(silent, at, posted) =>
      SessionStepKeeps(c, s, S.Token(s.producer.out[s.session.tokens].0, silent, at, posted));
    case StreamEnds(event) => SessionStepKeeps(c, s, event);
    case OnChain(step) => ChainStepKeeps(c, s, step);
  }

  lemma {:induction false} RunKeepsSystem(c: Config, s: System, events: seq<Event>)
    requires ConfigOk(c) && Initial(c, s) && Legal(c, s, events)
    ensures SystemOk(c, RunAll(c, s, events))
  {
    if events == [] {
      var now :| s.producer == P.Fresh(now);
      assert s.producer == P.Run(c.deal, c.tokens, P.Fresh(now), []);
      R.RunKeepsProducer(c.deal, c.tokens, now, []);
      assert s.session == S.Run(c.terms, S.Initial(c.terms), []);
      M.RunKeepsSession(c.terms, []);
    } else {
      var n := |events| - 1;
      RunKeepsSystem(c, s, events[..n]);
      NextKeepsSystem(c, RunAll(c, s, events[..n]), events[n]);
    }
  }

  // ------------------------------------------------- moments within a run

  /** What the producer holds after the first `k` events. */
  function HeldAt(c: Config, s0: System, events: seq<Event>, k: nat): Option<SignedCommitment>
    requires k <= |events|
  {
    RunAll(c, s0, events[..k]).producer.last
  }

  /** Event `e` is a commitment the producer accepts. */
  predicate Accepts(c: Config, s: System, e: Event) {
    e.Produce? && e.event.Arrive? && P.Rejection(c.deal, s.producer.last, e.event.signed) == None
  }

  ghost predicate NothingAcceptedSince(c: Config, s0: System, events: seq<Event>, k: nat) {
    forall j: nat :: k <= j < |events| ==> !Accepts(c, RunAll(c, s0, events[..j]), events[j])
  }

  // How one event moves session and producer.
  ghost predicate Grows(s: System, s': System) {
    && (forall m :: m in s.session.sent ==> m in s'.session.sent)
    && s.producer.delivered <= s'.producer.delivered
    && P.Ack(s.producer.last) <= P.Ack(s'.producer.last)
    && (P.Ack(s.producer.last) == P.Ack(s'.producer.last) ==> s.producer.last == s'.producer.last)
    && (s.producer.point.Returned? ==>
          s'.producer.point.Returned? && s'.producer.delivered == s.producer.delivered)
  }

  lemma ProduceGrows(c: Config, s: System, e: P.Event)
    requires ConfigOk(c) && SystemOk(c, s) && Allowed(c, s, Produce(e))
    ensures Grows(s, Next(c, s, Produce(e)))
    ensures Accepts(c, s, Produce(e)) <==> P.Ack(s.producer.last) < P.Ack(Next(c, s, Produce(e)).producer.last)
  {
    DeliveredOnlyGrows(c.deal, c.tokens, s.producer, e);
    if Accepts(c, s, Produce(e)) {
      UnforgedIsSigned(c, s, e.signed.message, e.signed.signature);
      SentFromOne(c, s, e.signed.message);
    }
    hide SystemOk, ConfigOk, Allowed;
  }

  lemma NextGrows(c: Config, s: System, e: Event)
    requires ConfigOk(c) && SystemOk(c, s) && Allowed(c, s, e)
    ensures Grows(s, Next(c, s, e))
    ensures Accepts(c, s, e) <==> P.Ack(s.producer.last) < P.Ack(Next(c, s, e).producer.last)
  {
    match e
    case Produce(event) => ProduceGrows(c, s, event);
    case Consume(silent, at, posted) =>
      SentOnlyGrows(c.terms, s.session, S.Token(s.producer.out[s.session.tokens].0, silent, at, posted));
    case StreamEnds(event) => SentOnlyGrows(c.terms, s.session, event);
    case OnChain(_) =>
  }

  /** From any moment of a run to its end: what was signed stays signed, what is held only
      moves up the chain, and it has moved exactly if a commitment was accepted since. */
  lemma {:induction false} RunGrows(c: Config, s0: System, events: seq<Event>, k: nat)
    requires ConfigOk(c) && Initial(c, s0) && Legal(c, s0, events) && k <= |events|
    ensures Legal(c, s0, events[..k])
    ensures Grows(RunAll(c, s0, events[..k]), RunAll(c, s0, events))
    ensures P.Ack(HeldAt(c, s0, events, k)) == P.Ack(RunAll(c, s0, events).producer.last)
       <==> NothingAcceptedSince(c, s0, events, k)
  {
    hide SystemOk, ConfigOk, Initial, Allowed, Accepts, Next, Grows, NothingAcceptedSince, P.Ack;
    if k == |events| {
      assert events[..k] == events;
      NothingYet(c, s0, events);
    } else {
      var n := |events| - 1;
      RunGrows(c, s0, events[..n], k);
      RunKeepsSystem(c, s0, events[..n]);
      NextGrows(c, RunAll(c, s0, events[..n]), events[n]);
      assert events[..n][..k] == events[..k];
      GrowsOn(RunAll(c, s0, events[..k]), RunAll(c, s0, events[..n]), RunAll(c, s0, events));
      SinceExtends(c, s0, events, k);
    }
  }

  lemma NothingYet(c: Config, s0: System, events: seq<Event>)
    ensures NothingAcceptedSince(c, s0, events, |events|)
    ensures Grows(RunAll(c, s0, events), RunAll(c, s0, events))
  {
  }

  lemma GrowsOn(a: System, b: System, d: System)
    requires Grows(a, b) && Grows(b, d)
    ensures Grows(a, d)
    ensures P.Ack(a.producer.last) <= P.Ack(b.producer.last) <= P.Ack(d.producer.last)
  {
  }

  lemma SinceExtends(c: Config, s0: System, events: seq<Event>, k: nat)
    requires k < |events|
    ensures var n := |events| - 1;
            NothingAcceptedSince(c, s0, events, k)
            <==> NothingAcceptedSince(c, s0, events[..n], k) && !Accepts(c, RunAll(c, s0, events[..n]), events[n])
  {
    hide Accepts, RunAll;
    var n := |events| - 1;
    var init := events[..n];
    forall j: nat | j < n ensures init[..j] == events[..j] && init[j] == events[j] {}
  }

  // ------------------------------------------------------------ main results

  /** That commitment, or a later one, is what the chain holds; none asks for nothing. */
  predicate Recorded(held: Option<SignedCommitment>, ch: Channel) {
    P.Ack(held) <= ch.lastSequence
  }

  lemma SentBelowReceived(c: Config, s: System, m: CommitMessage)
    requires ConfigOk(c) && SystemOk(c, s) && m in s.session.sent
    ensures m.cumulativePaid <= c.deal.prepaid + s.session.tokens * c.deal.price
  {
    var i: nat :| i < |s.session.sent| && s.session.sent[i] == m;
    M.MeterMonotone(c.terms, m.tokensReceived, s.session.tokens);
  }

  lemma SentInOrder(c: Config, s: System, a: CommitMessage, b: CommitMessage)
    requires ConfigOk(c) && SystemOk(c, s) && a in s.session.sent && b in s.session.sent
    requires a.sequence <= b.sequence
    ensures a.cumulativePaid <= b.cumulativePaid
    ensures a.sequence == b.sequence ==> a == b
  {
    var i: nat :| i < |s.session.sent| && s.session.sent[i] == a;
    var j: nat :| j < |s.session.sent| && s.session.sent[j] == b;
    M.ChainOrdered(c.terms, s.session, i, j);
  }

  /** End-to-end bounded loss. In every legal run, whoever settles or disputes (with
      self-contained signature instructions, which `Allowed` asks and the program does not
      check), the payout never exceeds what was prepaid plus what was received. And take
      what the producer held at any moment `k`, when it built its settlement, say: once
      that commitment or a later one is on record, the payout is at least what the
      producer counted then, short of all it had delivered then by less than `max_unpaid`
      and one token; if the record is exactly that commitment, payout and count
      coincide. */
  lemma {:induction false} BoundedLoss(c: Config, s0: System, events: seq<Event>, k: nat)
    requires ConfigOk(c) && Initial(c, s0) && Legal(c, s0, events) && k <= |events|
    requires c.deal.channel in RunAll(c, s0, events).ledger.channels
    ensures var s, was := RunAll(c, s0, events), RunAll(c, s0, events[..k]);
            var ch, held := s.ledger.channels[c.deal.channel], HeldAt(c, s0, events, k);
            && Payout(ch) <= c.deal.prepaid + s.session.tokens * c.deal.price
            && s.session.tokens * c.deal.price <= s.producer.delivered * c.deal.price
            && (Recorded(held, ch) ==>
                  && P.Cumulative(c.deal, held) <= Payout(ch)
                  && c.deal.prepaid + was.producer.delivered * c.deal.price - c.deal.maxUnpaid - c.deal.price
                     < Payout(ch))
            && (ch.lastSequence == P.Ack(held) ==> Payout(ch) == P.Cumulative(c.deal, held))
  {
    hide SystemOk, ConfigOk, Initial, Legal, RunAll, Payout, P.Cumulative, Recorded;
    RunGrows(c, s0, events, k);
    RunKeepsSystem(c, s0, events[..k]);
    RunKeepsSystem(c, s0, events);
    PayoutBounds(c, RunAll(c, s0, events[..k]), RunAll(c, s0, events));
  }

  lemma PayoutBounds(c: Config, was: System, s: System)
    requires ConfigOk(c) && SystemOk(c, was) && SystemOk(c, s) && Grows(was, s)
    requires c.deal.channel in s.ledger.channels
    ensures var ch, held := s.ledger.channels[c.deal.channel], was.producer.last;
            && Payout(ch) <= c.deal.prepaid + s.session.tokens * c.deal.price
            && s.session.tokens * c.deal.price <= s.producer.delivered * c.deal.price
            && (Recorded(held, ch) ==>
                  && P.Cumulative(c.deal, held) <= Payout(ch)
                  && c.deal.prepaid + was.producer.delivered * c.deal.price - c.deal.maxUnpaid - c.deal.price
                     < Payout(ch))
            && (ch.lastSequence == P.Ack(held) ==> Payout(ch) == P.Cumulative(c.deal, held))
  {
    assert ConfigOk(c) && s.session.tokens <= s.producer.delivered;
    CountedBounds(c, was);
    PaidBelowReceived(c, s);
    PaidAboveHeld(c, s, was.producer.last);
    hide SystemOk, ConfigOk, Recorded, P.Cumulative, Payout;
    MulMonotone(s.session.tokens, s.producer.delivered, c.deal.price);
  }

  lemma PaidBelowReceived(c: Config, s: System)
    requires ConfigOk(c) && SystemOk(c, s) && c.deal.channel in s.ledger.channels
    ensures Payout(s.ledger.channels[c.deal.channel]) <= c.deal.prepaid + s.session.tokens * c.deal.price
  {
    hide R.ProducerOk, M.SessionOk;
    var ch := s.ledger.channels[c.deal.channel];
    MulMonotone(0, s.session.tokens, c.deal.price);
    if ch.status == Settling {
      var m :| m in s.session.sent && m.sequence == ch.lastSequence && m.cumulativePaid == ch.lastCumulativePaid;
      SentBelowReceived(c, s, m);
    }
  }

  lemma PaidAboveHeld(c: Config, s: System, held: Option<SignedCommitment>)
    requires ConfigOk(c) && SystemOk(c, s) && c.deal.channel in s.ledger.channels
    requires held.Some? ==> held.value.message in s.session.sent
    ensures var ch, counted := s.ledger.channels[c.deal.channel], P.Cumulative(c.deal, held);
            && (Recorded(held, ch) ==> counted <= Payout(ch))
            && (ch.lastSequence == P.Ack(held) ==> Payout(ch) == counted)
  {
    var ch := s.ledger.channels[c.deal.channel];
    if held.Some? { SentFromOne(c, s, held.value.message); }
    hide R.ProducerOk, M.SessionOk;
    if ch.status == Settling {
      var m :| m in s.session.sent && m.sequence == ch.lastSequence && m.cumulativePaid == ch.lastCumulativePaid;
      SentFromOne(c, s, m);
      if held.Some? && Recorded(held, ch) {
        SentInOrder(c, s, held.value.message, m);
      }
    }
  }

  lemma CountedBounds(c: Config, s: System)
    requires ConfigOk(c) && SystemOk(c, s)
    ensures var delivered := s.producer.delivered * c.deal.price;
            var counted := P.Cumulative(c.deal, s.producer.last);
            && 0 <= delivered
            && c.deal.prepaid + delivered - c.deal.maxUnpaid - c.deal.price < counted
            && c.deal.prepaid <= counted
    ensures s.producer.last.Some? ==> P.Ack(s.producer.last) >= 1
  {
    hide M.SessionOk, LedgerOk, FreshChannel;
    ExposureInCounted(c.deal, c.tokens, s.producer);
    if s.producer.last.Some? { SentFromOne(c, s, s.producer.last.value.message); }
  }

  lemma ExposureInCounted(d: P.Deal, tokens: seq<Text>, p: P.State)
    requires R.ProducerOk(d, tokens, p)
    ensures 0 <= p.delivered * d.price
    ensures d.prepaid + p.delivered * d.price - d.maxUnpaid - d.price < P.Cumulative(d, p.last)
    ensures d.prepaid <= P.Cumulative(d, p.last)
  {
    assert R.HeldOk(d, p.last) && R.ExposureOk(d, p);
  }

  lemma SentFromOne(c: Config, s: System, m: CommitMessage)
    requires SystemOk(c, s) && m in s.session.sent
    ensures 1 <= m.sequence
  {
    hide R.ProducerOk, LedgerOk;
    assert M.ChainOk(c.terms, s.session);
    var i: nat :| i < |s.session.sent| && s.session.sent[i] == m;
  }

  /** The tokens the first `n` commitments of a session cover. */
  function CoveredBy(sent: seq<CommitMessage>, n: nat): int
    requires n <= |sent|
  {
    if n == 0 then 0 else sent[n - 1].tokensReceived
  }

  /** In every legal run the payout is the exact price of the tokens that the commitment on
      record covers, none before anything is recorded. */
  lemma {:induction false} PayoutIsMeterOfRecord(c: Config, s0: System, events: seq<Event>)
    requires ConfigOk(c) && Initial(c, s0) && Legal(c, s0, events)
    requires c.deal.channel in RunAll(c, s0, events).ledger.channels
    ensures var s := RunAll(c, s0, events);
            var ch := s.ledger.channels[c.deal.channel];
            && ch.lastSequence <= |s.session.sent|
            && 0 <= CoveredBy(s.session.sent, ch.lastSequence) <= s.session.tokens
            && Payout(ch)
               == Min(c.deal.deposit, c.deal.prepaid + CoveredBy(s.session.sent, ch.lastSequence) * c.deal.price)
  {
    hide SystemOk, ConfigOk, Legal, Initial, RunAll;
    RunKeepsSystem(c, s0, events);
    RecordIsMetered(c, RunAll(c, s0, events));
  }

  lemma RecordIsMetered(c: Config, s: System)
    requires ConfigOk(c) && SystemOk(c, s) && c.deal.channel in s.ledger.channels
    ensures var ch := s.ledger.channels[c.deal.channel];
            && ch.lastSequence <= |s.session.sent|
            && 0 <= CoveredBy(s.session.sent, ch.lastSequence) <= s.session.tokens
            && Payout(ch)
               == Min(c.deal.deposit, c.deal.prepaid + CoveredBy(s.session.sent, ch.lastSequence) * c.deal.price)
  {
    hide R.ProducerOk;
    var ch := s.ledger.channels[c.deal.channel];
    assert ChannelOk(ch) && M.ChainOk(c.terms, s.session);
    hide LedgerOk, M.SessionOk;
    if ch.status == Settling {
      var m :| m in s.session.sent && m.sequence == ch.lastSequence && m.cumulativePaid == ch.lastCumulativePaid;
      var i: nat :| i < |s.session.sent| && s.session.sent[i] == m;
      assert InRange(m) && i + 1 == ch.lastSequence;
    }
  }

  /** A session that returned normally and whose last commitment is on record pays for
      exactly the tokens it received. */
  lemma {:induction false} CompleteSessionPaysExactly(c: Config, s0: System, events: seq<Event>)
    requires ConfigOk(c) && Initial(c, s0) && Legal(c, s0, events)
    requires c.deal.channel in RunAll(c, s0, events).ledger.channels
    requires var s := RunAll(c, s0, events);
             && (s.session.outcome == S.Finished || s.session.outcome == S.EvaluatorHalt)
             && s.ledger.channels[c.deal.channel].lastSequence == |s.session.sent|
    ensures var s := RunAll(c, s0, events);
            Payout(s.ledger.channels[c.deal.channel])
            == Min(c.deal.deposit, c.deal.prepaid + s.session.tokens * c.deal.price)
  {
    hide ConfigOk, Legal, Initial, RunAll, R.ProducerOk, LedgerOk, M.Core;
    RunKeepsSystem(c, s0, events);
    PayoutIsMeterOfRecord(c, s0, events);
  }

  /** When that channel is closed, this payout is what the producer's wallet gains and the
      rest of the deposit what the consumer's regains. */
  lemma {:induction false} CloseSettlesTheRun(
      c: Config, s0: System, events: seq<Event>, k: nat, producerUsdc: Pubkey, consumerUsdc: Pubkey)
    requires ConfigOk(c) && Initial(c, s0) && Legal(c, s0, events) && k <= |events|
    requires producerUsdc != consumerUsdc
    requires Execute(RunAll(c, s0, events).ledger, Close(c.deal.channel, producerUsdc, consumerUsdc)).Ok?
    ensures var s, was := RunAll(c, s0, events), RunAll(c, s0, events[..k]);
            var w, w' := s.ledger, Execute(s.ledger, Close(c.deal.channel, producerUsdc, consumerUsdc)).value;
            var gained := w'.wallets[producerUsdc].amount - w.wallets[producerUsdc].amount;
            && gained + (w'.wallets[consumerUsdc].amount - w.wallets[consumerUsdc].amount) == c.deal.deposit
            && c.deal.prepaid <= gained <= c.deal.prepaid + s.session.tokens * c.deal.price
            && (Recorded(HeldAt(c, s0, events, k), w.channels[c.deal.channel]) ==>
                  c.deal.prepaid + was.producer.delivered * c.deal.price - c.deal.maxUnpaid - c.deal.price
                  < gained)
  {
    RunKeepsSystem(c, s0, events);
    BoundedLoss(c, s0, events, k);
    hide M.SessionOk, R.ProducerOk, P.Cumulative;
    CloseSplitsDeposit(RunAll(c, s0, events).ledger, c.deal.channel, producerUsdc, consumerUsdc);
  }

  // ------------------------------------------- the producer's own settle

  /** The producer's own transaction, which is always a `settle`, of the commitment it held
      when it built it. */
  function SettleOf(c: Config, s: System, held: SignedCommitment, rest: Instruction): Ix
    requires c.deal.channel in s.ledger.channels && Wire(held)
  {
    Settle(c.deal.channel, held.message, held.signature,
           SdkTx(s.ledger.channels[c.deal.channel].sessionKey, held, rest))
  }

  ghost predicate SettleRecords(c: Config, s: System, held: SignedCommitment, rest: Instruction)
    requires c.deal.channel in s.ledger.channels && Wire(held)
  {
    var w' := Land(c.deal.valid, s.ledger, SettleOf(c, s, held, rest));
    && c.deal.channel in w'.channels
    && w'.channels[c.deal.channel].lastSequence == held.message.sequence
    && Payout(w'.channels[c.deal.channel]) == held.message.cumulativePaid
  }

  /** What it does. Built at moment `k`, it lands at the end of `events`, commitments and
      anything else arriving meanwhile: it is accepted if and only if the channel is still
      Active and not expired. Then what was held at `k` is on record and paid, and that is
      the producer's latest if and only if no commitment was accepted since; in every other
      case nothing changes. */
  lemma {:induction false} ProducerSettleRecordsIff(
      c: Config, s0: System, events: seq<Event>, k: nat, rest: Instruction)
    requires ConfigOk(c) && Initial(c, s0) && Legal(c, s0, events) && k <= |events|
    requires c.deal.channel in RunAll(c, s0, events).ledger.channels
    requires rest.programId != ED25519_PROGRAM_ID && HeldAt(c, s0, events, k).Some?
    ensures var s, held := RunAll(c, s0, events), HeldAt(c, s0, events, k).value;
            var inTime := SettleInTime(s.ledger.channels[c.deal.channel], s.ledger.now);
            && Wire(held)
            && (Execute(s.ledger, SettleOf(c, s, held, rest)).Ok? <==> inTime)
            && (inTime ==> SettleRecords(c, s, held, rest))
            && (!inTime ==> Land(c.deal.valid, s.ledger, SettleOf(c, s, held, rest)) == s.ledger)
            && held.message.cumulativePaid <= P.Cumulative(c.deal, s.producer.last)
            && (held.message.sequence == P.Ack(s.producer.last) <==> NothingAcceptedSince(c, s0, events, k))
            && (NothingAcceptedSince(c, s0, events, k) ==> s.producer.last == Some(held))
  {
    hide SystemOk, ConfigOk, Initial, Legal, RunAll, Execute, Land, SettleRecords, Wire, NothingAcceptedSince;
    RunGrows(c, s0, events, k);
    RunKeepsSystem(c, s0, events[..k]);
    RunKeepsSystem(c, s0, events);
    HeldIsBelow(c, RunAll(c, s0, events[..k]), RunAll(c, s0, events));
    SettleEffect(c, RunAll(c, s0, events[..k]), RunAll(c, s0, events), rest);
  }

  lemma HeldIsBelow(c: Config, was: System, s: System)
    requires ConfigOk(c) && SystemOk(c, was) && SystemOk(c, s) && Grows(was, s) && was.producer.last.Some?
    ensures was.producer.last.value.message.cumulativePaid <= P.Cumulative(c.deal, s.producer.last)
  {
    SentFromOne(c, was, was.producer.last.value.message);
    hide M.SessionOk, R.ProducerOk, LedgerOk;
    SentInOrder(c, s, was.producer.last.value.message, s.producer.last.value.message);
  }

  lemma SettleEffect(c: Config, was: System, s: System, rest: Instruction)
    requires ConfigOk(c) && SystemOk(c, was) && SystemOk(c, s) && c.deal.channel in s.ledger.channels
    requires rest.programId != ED25519_PROGRAM_ID && was.producer.last.Some?
    ensures var held := was.producer.last.value;
            var inTime := SettleInTime(s.ledger.channels[c.deal.channel], s.ledger.now);
            && Wire(held)
            && (Execute(s.ledger, SettleOf(c, s, held, rest)).Ok? <==> inTime)
            && (inTime ==> SettleRecords(c, s, held, rest))
            && (!inTime ==> Land(c.deal.valid, s.ledger, SettleOf(c, s, held, rest)) == s.ledger)
  {
    HeldIsSettleable(c, was, s);
    hide SystemOk, ConfigOk, Execute, SettleRecords, Land;
    SettleAccepted(c, s, was.producer.last.value, rest);
    SettleChanges(c, s, was.producer.last.value, rest);
  }

  ghost predicate Settleable(d: P.Deal, ch: Channel, sc: SignedCommitment) {
    && Agrees(d, ch) && ChannelOk(ch) && Wire(sc) && P.SignatureOk(d, sc)
    && sc.message.channel == d.channel && sc.message.sequence >= 1
    && d.prepaid <= sc.message.cumulativePaid <= d.deposit
  }

  lemma HeldIsSettleable(c: Config, was: System, s: System)
    requires ConfigOk(c) && SystemOk(c, was) && SystemOk(c, s) && c.deal.channel in s.ledger.channels
    requires was.producer.last.Some?
    ensures Settleable(c.deal, s.ledger.channels[c.deal.channel], was.producer.last.value)
  {
    CountedBounds(c, was);
    hide M.SessionOk;
    assert R.HeldOk(c.deal, was.producer.last) && ChannelOk(s.ledger.channels[c.deal.channel]);
    hide R.ProducerOk, LedgerOk;
  }

  lemma SettleAccepted(c: Config, s: System, held: SignedCommitment, rest: Instruction)
    requires c.deal.channel in s.ledger.channels
    requires Settleable(c.deal, s.ledger.channels[c.deal.channel], held)
    requires rest.programId != ED25519_PROGRAM_ID
    ensures Execute(s.ledger, SettleOf(c, s, held, rest)).Ok?
       <==> SettleInTime(s.ledger.channels[c.deal.channel], s.ledger.now)
  {
    hide SettleChannel, RuntimePasses, OwnDataOnly, HasSibling;
    var ch := s.ledger.channels[c.deal.channel];
    SettleOfHeld(c.deal, ch, held, s.ledger.now);
    SdkTransactionAcceptedIffValid(c.deal.valid, ch.sessionKey, held.signature, MessageBytes(held.message), rest);
  }

  lemma SettleChanges(c: Config, s: System, held: SignedCommitment, rest: Instruction)
    requires c.deal.channel in s.ledger.channels
    requires Settleable(c.deal, s.ledger.channels[c.deal.channel], held)
    requires rest.programId != ED25519_PROGRAM_ID
    ensures var inTime := SettleInTime(s.ledger.channels[c.deal.channel], s.ledger.now);
            && (inTime ==> SettleRecords(c, s, held, rest))
            && (!inTime ==> Land(c.deal.valid, s.ledger, SettleOf(c, s, held, rest)) == s.ledger)
  {
    hide SettleChannel, Submit, Land, SdkTx;
    var ch := s.ledger.channels[c.deal.channel];
    SettleOfHeld(c.deal, ch, held, s.ledger.now);
    SettleLands(c.deal, s.ledger, held, rest);
    assert s.ledger.channels[c.deal.channel := ch] == s.ledger.channels;
  }

  // On an open channel a held commitment can only be too late.
  lemma SettleOfHeld(d: P.Deal, ch: Channel, sc: SignedCommitment, now: i64)
    requires Settleable(d, ch, sc)
    ensures SettleChannel(ch, d.channel, sc.message, true, now).Ok? <==> SettleInTime(ch, now)
    ensures ch.status == Active ==>
              var ch' := Submit(d, ch, sc, now);
              if SettleInTime(ch, now)
              then ch'.lastSequence == sc.message.sequence && Payout(ch') == sc.message.cumulativePaid
              else ch' == ch
  {
  }

  /** So the producer secures its bound by itself if its settle, built when its generator
      had returned, lands first and in time: whatever was accepted in between, the payout
      recorded then is above the bound for all it ever delivered. */
  lemma {:induction false} OwnSettleSecuresBound(c: Config, s0: System, events: seq<Event>, k: nat, rest: Instruction)
    requires ConfigOk(c) && Initial(c, s0) && Legal(c, s0, events) && k <= |events|
    requires c.deal.channel in RunAll(c, s0, events).ledger.channels
    requires rest.programId != ED25519_PROGRAM_ID && HeldAt(c, s0, events, k).Some?
    requires RunAll(c, s0, events[..k]).producer.point.Returned?
    requires var w := RunAll(c, s0, events).ledger; SettleInTime(w.channels[c.deal.channel], w.now)
    ensures var s, held := RunAll(c, s0, events), HeldAt(c, s0, events, k).value;
            && Wire(held)
            && var w' := Land(c.deal.valid, s.ledger, SettleOf(c, s, held, rest));
               c.deal.channel in w'.channels
               && c.deal.prepaid + s.producer.delivered * c.deal.price - c.deal.maxUnpaid - c.deal.price
                  < Payout(w'.channels[c.deal.channel])
  {
    hide SystemOk, ConfigOk, Initial, Legal, RunAll, Execute, Land, Wire, NothingAcceptedSince, Payout;
    ProducerSettleRecordsIff(c, s0, events, k, rest);
    RunGrows(c, s0, events, k);
    RunKeepsSystem(c, s0, events[..k]);
    CountedBounds(c, RunAll(c, s0, events[..k]));
  }

  /** While a settle or dispute window is open, anybody holding the producer's last
      accepted commitment can put it on record, whatever stale one was settled before:
      by a `settle` on an Active channel, by a `dispute` on a Settling one. */
  lemma {:induction false} AnyPartyCanRecord(c: Config, s0: System, events: seq<Event>, rest: Instruction)
    requires ConfigOk(c) && Initial(c, s0) && Legal(c, s0, events)
    requires c.deal.channel in RunAll(c, s0, events).ledger.channels
    requires rest.programId != ED25519_PROGRAM_ID
    requires var s := RunAll(c, s0, events);
             var ch := s.ledger.channels[c.deal.channel];
             s.producer.last.Some? && (SettleInTime(ch, s.ledger.now) || DisputeInTime(ch, s.ledger.now))
    ensures var s := RunAll(c, s0, events);
            var ch := s.ledger.channels[c.deal.channel];
            var last := s.producer.last.value;
            && Wire(last)
            && var tx := SdkTx(ch.sessionKey, last, rest);
               var ix := if ch.status == Active then Settle(c.deal.channel, last.message, last.signature, tx)
                         else Dispute(c.deal.channel, last.message, last.signature, tx);
               var w' := Land(c.deal.valid, s.ledger, ix);
               c.deal.channel in w'.channels && Recorded(s.producer.last, w'.channels[c.deal.channel])
  {
    RunKeepsSystem(c, s0, events);
    var s := RunAll(c, s0, events);
    SubmitIsLanding(c.deal, s.ledger, s.producer.last.value, rest);
    SubmitRecords(c, s);
  }

  lemma SubmitRecords(c: Config, s: System)
    requires ConfigOk(c) && SystemOk(c, s) && c.deal.channel in s.ledger.channels && s.producer.last.Some?
    requires var ch := s.ledger.channels[c.deal.channel];
             SettleInTime(ch, s.ledger.now) || DisputeInTime(ch, s.ledger.now)
    ensures P.Ack(s.producer.last)
         <= Submit(c.deal, s.ledger.channels[c.deal.channel], s.producer.last.value, s.ledger.now).lastSequence
  {
    var ch, last := s.ledger.channels[c.deal.channel], s.producer.last.value.message;
    CountedBounds(c, s);
    if ch.status == Settling && ch.lastSequence < last.sequence {
      var m :| m in s.session.sent && m.sequence == ch.lastSequence && m.cumulativePaid == ch.lastCumulativePaid;
      SentInOrder(c, s, m, last);
    }
  }

  /** The session's commitments form a chain the producer can always net. */
  lemma {:induction false} SessionSignsAChain(c: Config, s0: System, events: seq<Event>)
    requires ConfigOk(c) && Initial(c, s0) && Legal(c, s0, events)
    ensures IsChain(c.deal, RunAll(c, s0, events).session.sent)
  {
    RunKeepsSystem(c, s0, events);
    var s := RunAll(c, s0, events);
    forall i: nat, j: nat | i <= j < |s.session.sent|
      ensures c.deal.prepaid <= s.session.sent[i].cumulativePaid <= s.session.sent[j].cumulativePaid <= c.deal.deposit
    {
      M.ChainOrdered(c.terms, s.session, i, j);
    }
  }
}
