/** What every run of the producer's stream keeps, whatever arrives and whenever. */
module ProducerRuns {
  import opened Types
  import opened Commitment
  import opened Producer

  predicate DealOk(d: Deal) { d.price >= 1 && d.maxUnpaid >= 1 && d.prepaid <= d.deposit }

  ghost predicate HeldOk(d: Deal, last: Option<SignedCommitment>) {
    last.Some? ==>
      && InRange(last.value.message)
      && last.value.message.channel == d.channel
      && d.prepaid <= last.value.message.cumulativePaid <= d.deposit
      && SignatureOk(d, last.value)
  }

  // The model token taken but not yet sent.
  predicate Holding(tokens: seq<Text>, p: State, token: Text) {
    |p.out| == p.delivered && p.next == p.delivered + 1 <= |tokens| && token == tokens[p.delivered]
  }

  predicate InHand(d: Deal, tokens: seq<Text>, p: State) {
    match p.point
    case PauseSleep(token, deadline) => Holding(tokens, p, token) && deadline <= d.graceMs
    case GapSleep(token) => Holding(tokens, p, token)
    case Returned => p.next == p.delivered || p.next == p.delivered + 1
    case _ => p.next == p.delivered
  }

  ghost predicate AcksOk(p: State) {
    && 0 <= Ack(p.last)
    && forall i, j :: 0 <= i <= j < |p.out| ==> 0 <= p.out[i].1 <= p.out[j].1 <= Ack(p.last)
  }

  ghost predicate StreamOk(d: Deal, tokens: seq<Text>, p: State) {
    && |p.out| == p.delivered <= p.next <= |tokens|
    && InHand(d, tokens, p)
    && SentInOrder(tokens, p)
  }

  ghost predicate SentInOrder(tokens: seq<Text>, p: State) {
    |p.out| <= |tokens| && forall i :: 0 <= i < |p.out| ==> p.out[i].0 == tokens[i]
  }

  predicate ExposureOk(d: Deal, p: State) {
    && Unpaid(d, p.delivered, p.last) < d.maxUnpaid + d.price
    && (p.point.GapSleep? ==> Unpaid(d, p.delivered, p.last) < d.maxUnpaid)
  }

  ghost predicate ProducerOk(d: Deal, tokens: seq<Text>, p: State) {
    && HeldOk(d, p.last)
    && StreamOk(d, tokens, p)
    && AcksOk(p)
    && ExposureOk(d, p)
    && p.lastAt <= p.now
  }

  lemma ArrivalLowersUnpaid(d: Deal, delivered: nat, last: Option<SignedCommitment>, signed: SignedCommitment)
    requires HeldOk(d, last) && Rejection(d, last, signed) == None
    ensures HeldOk(d, Some(signed)) && Ack(last) <= Ack(Some(signed)) && 0 <= Ack(Some(signed))
    ensures Cumulative(d, last) <= Cumulative(d, Some(signed))
    ensures Unpaid(d, delivered, Some(signed)) <= Unpaid(d, delivered, last)
  {
  }

  lemma EmitKeeps(d: Deal, tokens: seq<Text>, p: State, token: Text)
    requires HeldOk(d, p.last) && AcksOk(p) && p.lastAt <= p.now
    requires Holding(tokens, p, token) && SentInOrder(tokens, p)
    requires Unpaid(d, p.delivered, p.last) < d.maxUnpaid
    ensures ProducerOk(d, tokens, Emit(p, token))
  {
    var q := Emit(p, token);
    OneMoreToken(d, p.delivered, p.last);
    AcksGrow(p, token);
    assert HeldOk(d, q.last) && StreamOk(d, tokens, q);
    hide Unpaid, AcksOk, HeldOk, StreamOk;
  }

  lemma OneMoreToken(d: Deal, delivered: nat, last: Option<SignedCommitment>)
    ensures Unpaid(d, delivered + 1, last) == Unpaid(d, delivered, last) + d.price
  {
    assert (delivered + 1) * d.price == delivered * d.price + d.price;
  }

  lemma AcksGrow(p: State, token: Text)
    requires AcksOk(p)
    ensures AcksOk(Emit(p, token))
  {
  }

  lemma PauseCheckKeeps(d: Deal, tokens: seq<Text>, p: State, token: Text, deadline: int)
    requires HeldOk(d, p.last) && AcksOk(p) && p.lastAt <= p.now
    requires Holding(tokens, p, token) && SentInOrder(tokens, p)
    requires Unpaid(d, p.delivered, p.last) < d.maxUnpaid + d.price && deadline <= d.graceMs
    ensures ProducerOk(d, tokens, PauseCheck(d, p, token, deadline))
  {
    if Unpaid(d, p.delivered, p.last) < d.maxUnpaid && !Silent(d, p) && p.first {
      EmitKeeps(d, tokens, p.(first := false), token);
    }
  }

  lemma ResumeKeeps(d: Deal, tokens: seq<Text>, p: State)
    requires DealOk(d) && ProducerOk(d, tokens, p)
    ensures ProducerOk(d, tokens, Resumed(d, tokens, p))
  {
    hide Unpaid, HeldOk, AcksOk, PauseCheck, Emit;
    match p.point
    case AwaitToken =>
      if p.next < |tokens| {
        var q := p.(next := p.next + 1);
        SameHoldings(d, p, q);
        PauseCheckKeeps(d, tokens, q, tokens[p.next], d.graceMs);
      } else {
        SameHoldings(d, p, p.(point := Returned));
      }
    case PauseSleep(token, deadline) =>
      if deadline - 10 > 0 {
        PauseCheckKeeps(d, tokens, p, token, deadline - 10);
      } else if Silent(d, p) {
        SameHoldings(d, p, Halt(p));
      } else {
        PauseCheckKeeps(d, tokens, p, token, d.graceMs);
      }
    case GapSleep(token) => EmitKeeps(d, tokens, p, token);
    case _ => SameHoldings(d, p, Resumed(d, tokens, p));
  }

  // What has been sent and what is held, alike in both states.
  lemma SameHoldings(d: Deal, p: State, q: State)
    requires p.out == q.out && p.last == q.last && p.delivered == q.delivered
    ensures AcksOk(p) ==> AcksOk(q)
    ensures ExposureOk(d, p) && !q.point.GapSleep? ==> ExposureOk(d, q)
  {
    hide Unpaid;
  }

  lemma AcceptanceKeeps(d: Deal, tokens: seq<Text>, p: State, signed: SignedCommitment)
    requires ProducerOk(d, tokens, p) && Rejection(d, p.last, signed) == None
    ensures ProducerOk(d, tokens, p.(last := Some(signed), lastAt := p.now))
  {
    ArrivalLowersUnpaid(d, p.delivered, p.last, signed);
    var q := p.(last := Some(signed), lastAt := p.now);
    assert StreamOk(d, tokens, q) && AcksOk(q) && ExposureOk(d, q);
  }

  lemma TimeKeeps(d: Deal, tokens: seq<Text>, p: State, dt: nat)
    requires ProducerOk(d, tokens, p)
    ensures ProducerOk(d, tokens, p.(now := p.now + dt))
  {
  }

  lemma StepKeepsProducer(d: Deal, tokens: seq<Text>, p: State, e: Event)
    requires DealOk(d) && ProducerOk(d, tokens, p)
    ensures ProducerOk(d, tokens, Step(d, tokens, p, e))
  {
    hide Resumed, Unpaid, AcksOk, StreamOk;
    var p1 := p.(now := p.now + e.dt);
    TimeKeeps(d, tokens, p, e.dt);
    match e
    case Arrive(_, signed) =>
      if Rejection(d, p.last, signed) == None {
        AcceptanceKeeps(d, tokens, p1, signed);
      }
    case Resume(_) => ResumeKeeps(d, tokens, p1);
  }

  lemma {:induction false} RunKeepsProducer(d: Deal, tokens: seq<Text>, now: int, events: seq<Event>)
    requires DealOk(d)
    ensures ProducerOk(d, tokens, Run(d, tokens, Fresh(now), events))
  {
    if events != [] {
      var n := |events| - 1;
      RunKeepsProducer(d, tokens, now, events[..n]);
      StepKeepsProducer(d, tokens, Run(d, tokens, Fresh(now), events[..n]), events[n]);
    }
  }

  // ------------------------------------------------------------ main results

  /** Bounded exposure: at every point of every run, with commitments honest or not
      arriving at any await, the producer has delivered less than `max_unpaid` plus one
      token beyond what it can settle for. */
  lemma {:induction false} ExposureIsBounded(d: Deal, tokens: seq<Text>, now: int, events: seq<Event>)
    requires DealOk(d)
    ensures var p := Run(d, tokens, Fresh(now), events);
            && p.delivered * d.price - (Cumulative(d, p.last) - d.prepaid) < d.maxUnpaid + d.price
            && d.prepaid <= Cumulative(d, p.last) <= d.deposit
  {
    RunKeepsProducer(d, tokens, now, events);
  }

  /** The stream is a prefix of the model's tokens, counted exactly, and its
      acknowledgements never go down. */
  lemma OutputIsPrefix(d: Deal, tokens: seq<Text>, now: int, events: seq<Event>)
    requires DealOk(d)
    ensures var p := Run(d, tokens, Fresh(now), events);
            && p.delivered == |p.out| <= |tokens|
            && (forall i :: 0 <= i < |p.out| ==> p.out[i].0 == tokens[i])
            && (forall i, j :: 0 <= i <= j < |p.out| ==> p.out[i].1 <= p.out[j].1)
  {
    RunKeepsProducer(d, tokens, now, events);
  }

  /** The verifier reports the first check that fails, in this order. */
  lemma VerifierRefusesInOrder(d: Deal, last: Option<SignedCommitment>, signed: SignedCommitment)
    ensures var m := signed.message;
            Rejection(d, last, signed)
            == Unless(m.channel == d.channel, WrongChannel,
               Unless(last.Some? ==> m.sequence > last.value.message.sequence, StaleSequence,
               Unless(last.Some? ==> m.cumulativePaid >= last.value.message.cumulativePaid, NonMonotonic,
               Unless(m.cumulativePaid >= d.prepaid, BelowPrepaid,
               Unless(m.cumulativePaid <= d.deposit, ExceedsDeposit,
               Unless(InRange(m), Unencodable,
               Unless(InRange(m) && SignatureOk(d, signed), BadSignature, None)))))))
  {
    hide InRange, SignatureOk;
  }

  // --------------------------------------------------- acknowledgements

  /** The last commitment accepted among the arrivals of an event list. */
  function LastAccepted(d: Deal, events: seq<Event>): Option<SignedCommitment> {
    if events == [] then None
    else
      var earlier, e := LastAccepted(d, events[..|events| - 1]), events[|events| - 1];
      if e.Arrive? && Rejection(d, earlier, e.signed) == None then Some(e.signed) else earlier
  }

  /** Its sequence, or 0 if there is none. */
  function AcceptedSequence(d: Deal, events: seq<Event>): int { HeldSequence(LastAccepted(d, events)) }

  lemma {:induction false} HeldIsLastAccepted(d: Deal, tokens: seq<Text>, now: int, events: seq<Event>)
    ensures Run(d, tokens, Fresh(now), events).last == LastAccepted(d, events)
  {
    if events != [] {
      HeldIsLastAccepted(d, tokens, now, events[..|events| - 1]);
      hide Rejection, Unpaid;
    }
  }

  /** Event `j` sends token `i`: `i` tokens are out before it and one more after. */
  ghost predicate SentAt(d: Deal, tokens: seq<Text>, now: int, events: seq<Event>, i: nat, j: nat) {
    && j < |events|
    && |Run(d, tokens, Fresh(now), events[..j]).out| == i
    && |Run(d, tokens, Fresh(now), events[..j + 1]).out| == i + 1
  }

  lemma PauseCheckSends(d: Deal, p: State, token: Text, deadline: int)
    ensures var q := PauseCheck(d, p, token, deadline);
            q.out == p.out || q.out == p.out + [(token, HeldSequence(p.last))]
  {
    hide Unpaid;
  }

  lemma StepSends(d: Deal, tokens: seq<Text>, p: State, e: Event)
    requires StreamOk(d, tokens, p)
    ensures var q := Step(d, tokens, p, e);
            q.out == p.out
            || (e.Resume? && p.delivered < |tokens| && q.out == p.out + [(tokens[p.delivered], HeldSequence(p.last))])
  {
    hide Rejection, PauseCheck, SentInOrder;
    if e.Resume? {
      var p1, q := p.(now := p.now + e.dt), Step(d, tokens, p, e);
      assert q == Resumed(d, tokens, p1);
      match p.point
      case AwaitToken =>
        if p.next < |tokens| {
          var p2 := p1.(next := p.next + 1);
          PauseCheckSends(d, p2, tokens[p.next], d.graceMs);
          assert q == PauseCheck(d, p2, tokens[p.next], d.graceMs) && p.next == p.delivered;
        }
      case PauseSleep(token, deadline) =>
        assert Holding(tokens, p, token);
        PauseCheckSends(d, p1, token, deadline - 10);
        PauseCheckSends(d, p1, token, d.graceMs);
      case GapSleep(token) => assert Holding(tokens, p, token) && q == Emit(p1, token);
      case _ => assert q.out == p.out;
    }
  }

  function HeldSequence(held: Option<SignedCommitment>): int {
    match held case None => 0 case Some(sc) => sc.message.sequence
  }

  /** What is sent with a token: sent by event `j`, token `i` of the model goes out with the
      sequence of the last commitment accepted before `j`, 0 if there was none. Every pair
      of the output was sent so. */
  lemma {:induction false} AckIsLastAccepted(d: Deal, tokens: seq<Text>, now: int, events: seq<Event>, i: nat)
    requires DealOk(d) && i < |Run(d, tokens, Fresh(now), events).out|
    ensures exists j: nat :: SentAt(d, tokens, now, events, i, j)
    ensures forall j: nat :: SentAt(d, tokens, now, events, i, j) ==>
              i < |tokens|
              && Run(d, tokens, Fresh(now), events).out[i] == (tokens[i], AcceptedSequence(d, events[..j]))
  {
    hide Step;
    if events == [] {
    } else {
      var n := |events| - 1;
      var p, q := Run(d, tokens, Fresh(now), events[..n]), Run(d, tokens, Fresh(now), events);
      RunKeepsProducer(d, tokens, now, events[..n]);
      StepSends(d, tokens, p, events[n]);
      HeldIsLastAccepted(d, tokens, now, events[..n]);
      assert events[..n + 1] == events;
      forall j: nat | j <= n ensures events[..n][..j] == events[..j] {}
      if i < |p.out| {
        AckIsLastAccepted(d, tokens, now, events[..n], i);
        var j: nat :| SentAt(d, tokens, now, events[..n], i, j);
        assert SentAt(d, tokens, now, events, i, j);
        assert !SentAt(d, tokens, now, events, i, n);
        forall j: nat | SentAt(d, tokens, now, events, i, j) ensures SentAt(d, tokens, now, events[..n], i, j) {}
      } else {
        assert SentAt(d, tokens, now, events, i, n);
        forall j: nat | SentAt(d, tokens, now, events, i, j) ensures j == n {
          if j < n { OutOnlyGrows(d, tokens, now, events[..n], j + 1); }
        }
      }
    }
  }

  lemma {:induction false} OutOnlyGrows(d: Deal, tokens: seq<Text>, now: int, events: seq<Event>, j: nat)
    requires DealOk(d) && j <= |events|
    ensures |Run(d, tokens, Fresh(now), events[..j]).out| <= |Run(d, tokens, Fresh(now), events).out|
  {
    hide Step;
    if j == |events| {
      assert events[..j] == events;
    } else {
      var n := |events| - 1;
      RunKeepsProducer(d, tokens, now, events[..n]);
      StepSends(d, tokens, Run(d, tokens, Fresh(now), events[..n]), events[n]);
      assert events[..n][..j] == events[..j];
      OutOnlyGrows(d, tokens, now, events[..n], j);
    }
  }

  /** A channel opened at `nowMs` and streamed on once: whatever the event loop brings and
      wherever it stops, what came out is a prefix of the model's tokens, each with the
      sequence last accepted before it was sent, counted exactly, and the channel's own
      unpaid value is in bounds. */
  method ServeStream(deal: Deal, nowMs: int, script: seq<Event>, tokens: seq<Text>)
    returns (out: seq<(Text, int)>, delivered: nat, unpaid: int)
    requires DealOk(deal)
    ensures delivered == |out| <= |tokens|
    ensures forall i :: 0 <= i < |out| ==> out[i].0 == tokens[i]
    ensures forall i, j :: 0 <= i <= j < |out| ==> 0 <= out[i].1 <= out[j].1
    ensures forall i: nat :: i < |out| ==> SentSo(deal, tokens, nowMs, script, i, out[i])
    ensures unpaid < deal.maxUnpaid + deal.price
  {
    hide Run, Resumed, Unpaid;
    var channel := new ActiveChannel(deal, nowMs);
    var loop := new EventLoop(nowMs, script);
    ghost var p0 := Fresh(nowMs);
    assert Run(deal, tokens, p0, []) == p0 by { RunOfNothing(deal, tokens, p0); }
    assert loop.script[..0] == [];
    out := [];
    var live := Await(channel, loop, tokens, p0, Opened, 0, true, []);
    if live {
      ghost var end;
      out, end := WrapStream(channel, loop, tokens, p0);
    }
    delivered, unpaid := channel.tokensDelivered, channel.UnpaidValueMicro();
    RunKeepsProducer(deal, tokens, nowMs, loop.script[..loop.pos]);
    forall i: nat | i < |out|
      ensures SentSo(deal, tokens, nowMs, script, i, out[i])
    {
      SentWithin(deal, tokens, nowMs, script, loop.pos, i);
    }
  }

  /** Token `i` was sent by some event, as `pair`: with the sequence last accepted before. */
  ghost predicate SentSo(d: Deal, tokens: seq<Text>, now: int, script: seq<Event>, i: nat, pair: (Text, int)) {
    && i < |tokens|
    && exists j: nat ::
         SentAt(d, tokens, now, script, i, j) && pair == (tokens[i], AcceptedSequence(d, script[..j]))
  }

  lemma SentWithin(d: Deal, tokens: seq<Text>, now: int, script: seq<Event>, pos: nat, i: nat)
    requires DealOk(d) && pos <= |script| && i < |Run(d, tokens, Fresh(now), script[..pos]).out|
    ensures SentSo(d, tokens, now, script, i, Run(d, tokens, Fresh(now), script[..pos]).out[i])
  {
    hide Run;
    AckIsLastAccepted(d, tokens, now, script[..pos], i);
    var j: nat :| SentAt(d, tokens, now, script[..pos], i, j);
    assert script[..pos][..j] == script[..j] && script[..pos][..j + 1] == script[..j + 1];
    assert SentAt(d, tokens, now, script, i, j);
  }

  lemma RunOfNothing(d: Deal, tokens: seq<Text>, p: State)
    ensures Run(d, tokens, p, []) == p
  {
  }

  // ------------------------------------------------------------- halting

  /** Steps that reset the silence clock: a token out and resumed from, the start of the
      stream, an accepted commitment. */
  predicate Signal(d: Deal, p: State, e: Event) {
    match e
    case Arrive(_, signed) => Rejection(d, p.last, signed) == None
    case Resume(_) => p.point == AtYield || p.point == Opened
  }

  lemma StepKeepsLastAt(d: Deal, tokens: seq<Text>, p: State, e: Event)
    ensures p.lastAt <= p.now ==>
              p.lastAt <= Step(d, tokens, p, e).lastAt <= Step(d, tokens, p, e).now
    ensures p.now <= Step(d, tokens, p, e).now
    ensures Signal(d, p, e) ==> Step(d, tokens, p, e).lastAt == Step(d, tokens, p, e).now
    ensures !p.halted && Step(d, tokens, p, e).halted ==>
              Step(d, tokens, p, e).now - p.lastAt >= d.pauseTimeoutMs
  {
  }

  lemma {:induction false} LastAtInThePast(d: Deal, tokens: seq<Text>, now: int, events: seq<Event>)
    ensures var p := Run(d, tokens, Fresh(now), events); p.lastAt <= p.now
  {
    if events != [] {
      var n := |events| - 1;
      LastAtInThePast(d, tokens, now, events[..n]);
      StepKeepsLastAt(d, tokens, Run(d, tokens, Fresh(now), events[..n]), events[n]);
    }
  }

  // Event `j` was a signal.
  predicate SignalAt(d: Deal, tokens: seq<Text>, now: int, events: seq<Event>, j: nat) {
    j < |events| && Signal(d, Run(d, tokens, Fresh(now), events[..j]), events[j])
  }

  lemma {:induction false} SignalsPrecedeLastAt(d: Deal, tokens: seq<Text>, now: int, events: seq<Event>, j: nat)
    requires SignalAt(d, tokens, now, events, j)
    ensures Run(d, tokens, Fresh(now), events[..j + 1]).now <= Run(d, tokens, Fresh(now), events).lastAt
  {
    hide Step;
    var n := |events| - 1;
    var p := Run(d, tokens, Fresh(now), events[..n]);
    StepKeepsLastAt(d, tokens, p, events[n]);
    if j == n {
      assert events[..j + 1] == events;
    } else {
      assert events[..n][..j] == events[..j] && events[..n][..j + 1] == events[..j + 1];
      assert events[..n][j] == events[j];
      LastAtInThePast(d, tokens, now, events[..n]);
      SignalsPrecedeLastAt(d, tokens, now, events[..n], j);
    }
  }

  /** A stream is marked halted only after `pause_timeout` of silence: at least that long
      has passed since every signal before it. */
  lemma HaltsOnlyAfterSilence(d: Deal, tokens: seq<Text>, now: int, events: seq<Event>, e: Event, j: nat)
    requires !Run(d, tokens, Fresh(now), events).halted
    requires Step(d, tokens, Run(d, tokens, Fresh(now), events), e).halted
    requires SignalAt(d, tokens, now, events, j)
    ensures Step(d, tokens, Run(d, tokens, Fresh(now), events), e).now
         >= Run(d, tokens, Fresh(now), events[..j + 1]).now + d.pauseTimeoutMs
  {
    SignalsPrecedeLastAt(d, tokens, now, events, j);
    StepKeepsLastAt(d, tokens, Run(d, tokens, Fresh(now), events), e);
  }

  /** The clock after an event list. */
  function ClockAt(now: int, events: seq<Event>): int {
    if events == [] then now else ClockAt(now, events[..|events| - 1]) + events[|events| - 1].dt
  }

  /** When the silence clock was last reset: at the last signal, or at the start. */
  ghost function LastSignal(d: Deal, tokens: seq<Text>, now: int, events: seq<Event>): int {
    if events == [] then now
    else
      var n := |events| - 1;
      if SignalAt(d, tokens, now, events, n) then ClockAt(now, events)
      else LastSignal(d, tokens, now, events[..n])
  }

  lemma {:induction false} SilenceClock(d: Deal, tokens: seq<Text>, now: int, events: seq<Event>)
    ensures var p := Run(d, tokens, Fresh(now), events);
            p.now == ClockAt(now, events) && p.lastAt == LastSignal(d, tokens, now, events)
  {
    if events != [] {
      var n := |events| - 1;
      hide Step, Signal;
      SilenceClock(d, tokens, now, events[..n]);
      StepClock(d, tokens, Run(d, tokens, Fresh(now), events[..n]), events[n]);
    }
  }

  lemma StepClock(d: Deal, tokens: seq<Text>, p: State, e: Event)
    ensures var q := Step(d, tokens, p, e);
            q.now == p.now + e.dt && q.lastAt == if Signal(d, p, e) then q.now else p.lastAt
  {
    hide Unpaid, Rejection;
  }

  /** Waiting for the model with a token to come, or in the pause loop. */
  predicate Deciding(tokens: seq<Text>, p: State) {
    (p.point.AwaitToken? && p.next < |tokens|) || p.point.PauseSleep?
  }

  /** The halt test, exactly. Resumed with room under the limit, a stream halts if and only
      if `pause_timeout` has passed since the last signal; else the first token goes out at
      once and any other after the inter-token gap. */
  lemma HaltsExactlyWhenSilent(d: Deal, tokens: seq<Text>, now: int, events: seq<Event>, e: Event)
    requires DealOk(d) && e.Resume?
    requires var p := Run(d, tokens, Fresh(now), events);
             Deciding(tokens, p) && !p.halted && Unpaid(d, p.delivered, p.last) < d.maxUnpaid
    ensures var p := Run(d, tokens, Fresh(now), events);
            var q := Run(d, tokens, Fresh(now), events + [e]);
            && (q.halted <==> ClockAt(now, events + [e]) - LastSignal(d, tokens, now, events) >= d.pauseTimeoutMs)
            && (q.halted ==> q.point.Returned? && q.out == p.out)
            && (!q.halted ==>
                  if p.delivered == 0 then q.point.AtYield? && |q.out| == |p.out| + 1
                  else q.point.GapSleep? && q.out == p.out)
  {
    hide Unpaid, LastSignal, Run, Step;
    var p := Run(d, tokens, Fresh(now), events);
    SilenceClock(d, tokens, now, events);
    FirstMeansNothingSent(d, tokens, now, events);
    RunNext(d, tokens, p, now, events, e);
    assert (events + [e])[..|events|] == events;
    HaltTest(d, tokens, p, e);
  }

  lemma HaltTest(d: Deal, tokens: seq<Text>, p: State, e: Event)
    requires e.Resume? && Deciding(tokens, p) && !p.halted && Unpaid(d, p.delivered, p.last) < d.maxUnpaid
    ensures var q := Step(d, tokens, p, e);
            && (q.halted <==> p.now + e.dt - p.lastAt >= d.pauseTimeoutMs)
            && (q.halted ==> q.point.Returned? && q.out == p.out)
            && (!q.halted ==>
                  if p.first then q.point.AtYield? && |q.out| == |p.out| + 1
                  else q.point.GapSleep? && q.out == p.out)
  {
    hide Unpaid;
  }

  lemma RunNext(d: Deal, tokens: seq<Text>, p: State, now: int, events: seq<Event>, e: Event)
    requires p == Run(d, tokens, Fresh(now), events)
    ensures Run(d, tokens, Fresh(now), events + [e]) == Step(d, tokens, p, e)
  {
    assert (events + [e])[..|events|] == events;
  }

  predicate FirstOk(p: State) {
    && (p.first <==> p.delivered == 0)
    && (p.point.GapSleep? || p.point.AtYield? ==> !p.first)
    && (p.point.Opened? ==> p.first)
  }

  lemma StepKeepsFirst(d: Deal, tokens: seq<Text>, p: State, e: Event)
    requires FirstOk(p)
    ensures FirstOk(Step(d, tokens, p, e))
  {
    hide Unpaid, Rejection, Silent;
  }

  /** "First" in the loop means that nothing has been sent. */
  lemma {:induction false} FirstMeansNothingSent(d: Deal, tokens: seq<Text>, now: int, events: seq<Event>)
    ensures FirstOk(Run(d, tokens, Fresh(now), events))
  {
    if events != [] {
      var n := |events| - 1;
      hide Step;
      FirstMeansNothingSent(d, tokens, now, events[..n]);
      StepKeepsFirst(d, tokens, Run(d, tokens, Fresh(now), events[..n]), events[n]);
    }
  }

  /** The grace period is granted: from entering the pause loop for a token, a stream without
      room is not halted before ceil(grace / 10) sleeps, however silent the consumer. */
  lemma {:induction false} GraceIsGranted(d: Deal, tokens: seq<Text>, p: State, sleeps: seq<Event>)
    requires Paused(d, p) && !p.halted && forall i :: 0 <= i < |sleeps| ==> sleeps[i].Resume?
    requires |sleeps| < ToTest(p)
    ensures Paused(d, RunOn(d, tokens, p, sleeps)) && !RunOn(d, tokens, p, sleeps).halted
    decreases |sleeps|
  {
    if sleeps != [] {
      GraceIsGranted(d, tokens, Step(d, tokens, p, sleeps[0]), sleeps[1..]);
    }
  }

  function CeilTen(n: int): nat { if n <= 0 then 0 else (n + 9) / 10 }

  /** Iterations between two halt tests of the pause loop. */
  function Period(d: Deal): nat { Max(1, CeilTen(d.graceMs)) }

  /** Sleeps of the pause loop: at least 10 ms each, and no commitment arrives. */
  predicate Quiet(events: seq<Event>) {
    forall i :: 0 <= i < |events| ==> events[i].Resume? && events[i].dt >= 10
  }

  /** In the pause loop, and no commitment has made room since. */
  predicate Paused(d: Deal, p: State) {
    p.point.PauseSleep? && Unpaid(d, p.delivered, p.last) >= d.maxUnpaid
  }

  // Sleeps until the next halt test.
  function ToTest(p: State): nat
    requires p.point.PauseSleep?
  {
    Max(1, CeilTen(p.point.deadline))
  }

  lemma {:induction false} QuietHalts(d: Deal, tokens: seq<Text>, p: State, events: seq<Event>)
    requires Paused(d, p) && Quiet(events) && p.point.deadline <= d.graceMs
    requires || |events| >= CeilTen(d.pauseTimeoutMs - (p.now - p.lastAt)) + Period(d)
             || (|events| >= ToTest(p) && p.now - p.lastAt + 10 * ToTest(p) >= d.pauseTimeoutMs)
    ensures RunOn(d, tokens, p, events).halted
    decreases |events|
  {
    var e := events[0];
    var q := Step(d, tokens, p, e);
    if p.point.deadline - 10 <= 0 && Silent(d, p.(now := p.now + e.dt)) {
      HaltedStays(d, tokens, q, events[1..]);
    } else {
      QuietHalts(d, tokens, q, events[1..]);
    }
  }

  // A run read from its first event.
  function RunOn(d: Deal, tokens: seq<Text>, p: State, events: seq<Event>): State
    decreases |events|
  {
    if events == [] then p else RunOn(d, tokens, Step(d, tokens, p, events[0]), events[1..])
  }

  lemma {:induction false} HaltedStays(d: Deal, tokens: seq<Text>, p: State, events: seq<Event>)
    requires p.halted
    ensures RunOn(d, tokens, p, events).halted
    decreases |events|
  {
    if events != [] { HaltedStays(d, tokens, Step(d, tokens, p, events[0]), events[1..]); }
  }

  lemma {:induction false} RunAppend(d: Deal, tokens: seq<Text>, p: State, a: seq<Event>, b: seq<Event>)
    ensures Run(d, tokens, p, a + b) == RunOn(d, tokens, Run(d, tokens, p, a), b)
    decreases |b|
  {
    if b == [] {
      assert a + b == a;
    } else {
      var a' := a + [b[0]];
      assert a'[..|a|] == a && a + b == a' + b[1..];
      RunAppend(d, tokens, p, a', b[1..]);
    }
  }

  /** Bounded halting: a paused stream that hears nothing is halted within
      ceil(pause_timeout / 10) + max(1, ceil(grace / 10)) sleeps. */
  lemma PausedStreamHalts(d: Deal, tokens: seq<Text>, now: int, events: seq<Event>, quiet: seq<Event>)
    requires DealOk(d) && Paused(d, Run(d, tokens, Fresh(now), events)) && Quiet(quiet)
    requires |quiet| == CeilTen(d.pauseTimeoutMs) + Max(1, CeilTen(d.graceMs))
    ensures Run(d, tokens, Fresh(now), events + quiet).halted
  {
    RunKeepsProducer(d, tokens, now, events);
    QuietHalts(d, tokens, Run(d, tokens, Fresh(now), events), quiet);
    RunAppend(d, tokens, Fresh(now), events, quiet);
  }
}
