/** A session turn by turn, read off the events alone: what is signed, and what the turn
    leaves the session in. */
module SessionTurns {
  import opened Types
  import opened Commitment
  import opened Session
  import opened SessionMeter
  import Ts = TsSession

  /** The text received: the token texts, one after the other. */
  function TextOf(events: seq<Event>): Text {
    if events == [] then []
    else
      var e := events[|events| - 1];
      TextOf(events[..|events| - 1]) + (if e.Token? then e.text else [])
  }

  /** The commitment for `tokens` tokens. */
  function Due(t: Terms, sequence: int, tokens: nat, at: int): CommitMessage {
    CommitMessage(t.channel, sequence, Meter(t, tokens), tokens, at)
  }

  /** A turn that gets as far as signing `c`: nothing is signed and it raises when `c` has no
      wire form; else `c` is signed, and the turn ends in `goal` if the post returns. */
  predicate Commits(s: State, s': State, c: CommitMessage, fits: bool, posted: bool, goal: Outcome) {
    if !fits then s'.sent == s.sent && s'.outcome == Raised
    else s'.sent == s.sent + [c] && s'.outcome == if posted then goal else Raised
  }

  predicate Leads(s: State, s': State, outcome: Outcome) { s'.sent == s.sent && s'.outcome == outcome }

  /** While a session streams, every event was a token, and its counter and text say so. */
  lemma {:induction false} StreamingIsAllTokens(t: Terms, events: seq<Event>)
    requires Run(t, Initial(t), events).outcome == Streaming
    ensures forall i :: 0 <= i < |events| ==> events[i].Token?
    ensures var s := Run(t, Initial(t), events); s.tokens == |events| && s.accumulated == TextOf(events)
  {
    if events != [] {
      StreamingIsAllTokens(t, events[..|events| - 1]);
    }
  }

  lemma RunNext(t: Terms, events: seq<Event>, e: Event)
    ensures Run(t, Initial(t), events + [e]) == Step(t, Run(t, Initial(t), events), e)
    ensures TextOf(events + [e]) == TextOf(events) + (if e.Token? then e.text else [])
  {
    assert (events + [e])[..|events|] == events;
  }

  /** The turn on `e` after `n` events, all of it: end of input and breakage just end; the
      sentinel commits and finishes; a token on whose text so far the evaluator holds
      commits and halts; silence raises; a token that completes a batch commits; any other
      changes nothing but the meter. */
  lemma {:induction false} TurnInClosedForm(t: Terms, events: seq<Event>, e: Event)
    requires TermsOk(t) && Run(t, Initial(t), events).outcome == Streaming
    ensures var s, s', n := Run(t, Initial(t), events), Run(t, Initial(t), events + [e]), |events|;
            match e
            case Eof => Leads(s, s', Exhausted)
            case Broken => Leads(s, s', Raised)
            case Done(at, posted) =>
              var c := Due(t, |s.sent| + 1, n, at);
              s'.tokens == n && Commits(s, s', c, InRange(c), posted, Finished)
            case Token(text, silent, at, posted) =>
              var c := Due(t, |s.sent| + 1, n + 1, at);
              && s'.tokens == n + 1
              && if Halts(t, TextOf(events + [e])) then Commits(s, s', c, InRange(c), posted, EvaluatorHalt)
                 else if silent then Leads(s, s', Raised)
                 else if PartialSum(t, n + 1) then Commits(s, s', c, InRange(c), posted, Streaming)
                 else Leads(s, s', Streaming)
  {
    StreamingIsAllTokens(t, events);
    RunKeepsSession(t, events);
    RunNext(t, events, e);
    var s := Run(t, Initial(t), events);
    BatchIsFull(t, s);
    assert s.sequence == |s.sent| && s.paid == Meter(t, s.tokens);
    hide SessionOk, Meter, PartialSum, Run, TextOf, InRange, Step;
    if e.Token? { TokenTurn(t, s, e); } else { OtherTurn(t, s, e); }
  }

  lemma OtherTurn(t: Terms, s: State, e: Event)
    requires s.outcome == Streaming && s.sequence == |s.sent| && s.paid == Meter(t, s.tokens) && !e.Token?
    ensures var s' := Step(t, s, e);
            match e
            case Eof => Leads(s, s', Exhausted)
            case Broken => Leads(s, s', Raised)
            case Done(at, posted) =>
              var c := Due(t, |s.sent| + 1, s.tokens, at);
              s'.tokens == s.tokens && Commits(s, s', c, InRange(c), posted, Finished)
            case _ => true
  {
    hide Meter, InRange;
  }

  lemma TokenTurn(t: Terms, s: State, e: Event)
    requires s.outcome == Streaming && s.sequence == |s.sent| && s.paid == Meter(t, s.tokens) && e.Token?
    ensures var s' := Step(t, s, e);
            var c := Due(t, |s.sent| + 1, s.tokens + 1, e.at);
            && s'.tokens == s.tokens + 1
            && if Halts(t, s.accumulated + e.text) then Commits(s, s', c, InRange(c), e.posted, EvaluatorHalt)
               else if e.silent then Leads(s, s', Raised)
               else if s.since + 1 >= s.k then Commits(s, s', c, InRange(c), e.posted, Streaming)
               else Leads(s, s', Streaming)
  {
    PaidIsMeter(t, s, e.text);
    hide Meter, InRange, NextK;
  }

  lemma BatchIsFull(t: Terms, s: State)
    requires TermsOk(t) && SessionOk(t, s) && s.outcome == Streaming
    ensures PartialSum(t, s.tokens + 1) <==> s.since + 1 >= s.k
  {
    var n := |s.sent|;
    BatchDoubles(t, n);
    if s.since + 1 == s.k {
      assert s.tokens + 1 == Covered(t, n + 1);
    } else {
      WithinBatch(t, s.tokens + 1, n);
    }
  }

  /** Event `i` is a token, met while streaming, and the evaluator holds of all the text
      received with it. */
  ghost predicate EvaluatorHolds(t: Terms, events: seq<Event>, i: nat) {
    && i < |events| && events[i].Token?
    && Run(t, Initial(t), events[..i]).outcome == Streaming
    && Halts(t, TextOf(events[..i + 1]))
  }

  /** The evaluator stops the stream, whatever else the turn or the rest brings: the session
      ends there, halted if the commitment could be signed and posted, raised if not. */
  lemma {:induction false} EvaluatorStops(t: Terms, events: seq<Event>, i: nat)
    requires TermsOk(t) && EvaluatorHolds(t, events, i)
    ensures var s, end := Run(t, Initial(t), events[..i]), Run(t, Initial(t), events);
            var c := Due(t, |s.sent| + 1, i + 1, events[i].at);
            && end.tokens == i + 1
            && Commits(s, end, c, InRange(c), events[i].posted, EvaluatorHalt)
  {
    assert events[..i + 1] == events[..i] + [events[i]];
    TurnInClosedForm(t, events[..i], events[i]);
    EndedStays(t, Initial(t), events, i + 1);
  }

  /** And nothing else ends in `EvaluatorHalt`. */
  lemma {:induction false} HaltedOnlyByEvaluator(t: Terms, events: seq<Event>)
    requires TermsOk(t) && Run(t, Initial(t), events).outcome == EvaluatorHalt
    ensures exists i: nat :: EvaluatorHolds(t, events, i)
  {
    hide Run, TextOf, PartialSum;
    StreamsEndOnce(t, events);
    var i: nat :| EndsAt(t, events, i);
    assert events[..i + 1] == events[..i] + [events[i]];
    RunNext(t, events[..i], events[i]);
    TurnInClosedForm(t, events[..i], events[i]);
    assert EvaluatorHolds(t, events, i);
  }

  // ------------------------------------------------------------ TypeScript

  lemma {:induction false} TsStreamingIsAllTokens(t: Terms, every: int, events: seq<Event>)
    requires Ts.Run(t, Ts.Initial(t, every), events).outcome == Streaming
    ensures forall i :: 0 <= i < |events| ==> events[i].Token?
    ensures var s := Ts.Run(t, Ts.Initial(t, every), events);
            s.tokens == |events| && s.accumulated == TextOf(events)
  {
    if events != [] {
      TsStreamingIsAllTokens(t, every, events[..|events| - 1]);
    }
  }

  /** The same for the TypeScript loop: no silence test, a fixed batch, and the header's
      numbers in place of the byte form. */
  lemma {:induction false} TsTurnInClosedForm(t: Terms, every: int, events: seq<Event>, e: Event)
    requires TermsOk(t) && 1 <= every && Ts.Run(t, Ts.Initial(t, every), events).outcome == Streaming
    ensures var s, s' := Ts.Run(t, Ts.Initial(t, every), events), Ts.Run(t, Ts.Initial(t, every), events + [e]);
            var n := |events|;
            match e
            case Eof => Leads(s, s', Exhausted)
            case Broken => Leads(s, s', Raised)
            case Done(at, posted) =>
              var c := Due(t, |s.sent| + 1, n, at);
              s'.tokens == n && Commits(s, s', c, Ts.Safe(c), posted, Finished)
            case Token(text, _, at, posted) =>
              var c := Due(t, |s.sent| + 1, n + 1, at);
              && s'.tokens == n + 1
              && if Halts(t, TextOf(events + [e])) then Commits(s, s', c, Ts.Safe(c), posted, EvaluatorHalt)
                 else if (n + 1) % every == 0 then Commits(s, s', c, Ts.Safe(c), posted, Streaming)
                 else Leads(s, s', Streaming)
  {
    assert (events + [e])[..|events|] == events;
    TsStreamingIsAllTokens(t, every, events);
    Ts.RunKeeps(t, every, events);
    var s := Ts.Run(t, Ts.Initial(t, every), events);
    BatchBoundary(|s.sent|, every, s.since);
    hide Meter, Ts.SentOk, Ts.Safe, Ts.Step;
    if e.Token? { TsTokenTurn(t, every, s, e); } else { TsOtherTurn(t, s, e); }
  }

  lemma TsOtherTurn(t: Terms, s: State, e: Event)
    requires s.outcome == Streaming && s.sequence == |s.sent| && s.paid == Meter(t, s.tokens) && !e.Token?
    ensures var s' := Ts.Step(t, s, e);
            match e
            case Eof => Leads(s, s', Exhausted)
            case Broken => Leads(s, s', Raised)
            case Done(at, posted) =>
              var c := Due(t, |s.sent| + 1, s.tokens, at);
              s'.tokens == s.tokens && Commits(s, s', c, Ts.Safe(c), posted, Finished)
            case _ => true
  {
    hide Meter, Ts.Safe;
  }

  lemma TsTokenTurn(t: Terms, every: int, s: State, e: Event)
    requires s.outcome == Streaming && s.sequence == |s.sent| && s.paid == Meter(t, s.tokens) && e.Token?
    requires s.k == every && 1 <= every && s.since < every
    ensures var s' := Ts.Step(t, s, e);
            var c := Due(t, |s.sent| + 1, s.tokens + 1, e.at);
            && s'.tokens == s.tokens + 1
            && if Halts(t, s.accumulated + e.text) then Commits(s, s', c, Ts.Safe(c), e.posted, EvaluatorHalt)
               else if s.since + 1 == every then Commits(s, s', c, Ts.Safe(c), e.posted, Streaming)
               else Leads(s, s', Streaming)
  {
    PaidIsMeter(t, s, e.text);
    hide Meter, Ts.Safe;
  }

  lemma BatchBoundary(q: nat, k: nat, r: nat)
    requires r < k
    ensures (q * k + r + 1) % k == 0 <==> r + 1 == k
  {
    if r + 1 < k {
      Ts.DivisionIs(q, k, r + 1);
    } else {
      Ts.DivisionIs(q + 1, k, 0);
      assert (q + 1) * k == q * k + k;
    }
  }
}
