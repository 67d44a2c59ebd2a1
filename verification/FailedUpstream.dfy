/** A model that fails mid-stream, seen from the wire to the meter: what each SDK's session
    makes of the producer's last frames. */
module FailedUpstream {
  import opened Types
  import opened Commitment
  import opened Sse
  import S = Session
  import M = SessionMeter
  import Ts = TsSession

  type Clock = nat -> int

  /** The turns the TypeScript loop takes over parsed events, every post succeeding. */
  function TsTurns(es: seq<SseEvent>, clock: Clock): seq<S.Event> {
    seq(|es|, i requires 0 <= i < |es| =>
      if es[i].finished then S.Done(clock(i), true) else S.Token(es[i].text, false, clock(i), true))
  }

  /** The same for Python; where its parser raises, the stream breaks. */
  function PyTurns(p: Parsed, clock: Clock): seq<S.Event> {
    seq(|p.events|, i requires 0 <= i < |p.events| =>
      if p.events[i].finished then S.Done(clock(i), true) else S.Token(p.events[i].text, false, clock(i), true))
    + if p.raised then [S.Broken] else []
  }

  /** Numbers the commitment header can carry, all through `n` turns. */
  ghost predicate Fits(t: S.Terms, n: nat, clock: Clock) {
    t.deposit <= Ts.MAX_SAFE && n <= Ts.MAX_SAFE
    && forall i: nat :: -Ts.MAX_SAFE <= clock(i) <= Ts.MAX_SAFE
  }

  lemma {:induction false} TsTokens(t: S.Terms, every: int, turns: seq<S.Event>, clock: Clock)
    requires S.TermsOk(t) && 1 <= every && t.evaluator == None && Fits(t, |turns|, clock)
    requires forall i :: 0 <= i < |turns| ==> turns[i].Token? && turns[i].posted && turns[i].at == clock(i)
    ensures var s := Ts.Run(t, Ts.Initial(t, every), turns);
            s.outcome == S.Streaming && s.tokens == |turns| && s.sequence <= |turns|
  {
    if turns != [] {
      var n := |turns| - 1;
      TsTokens(t, every, turns[..n], clock);
      var s := Ts.Run(t, Ts.Initial(t, every), turns[..n]);
      Ts.RunKeeps(t, every, turns[..n]);
      M.PaidIsMeter(t, s, turns[n].text);
      M.MeterBounds(t, n + 1);
    }
  }

  lemma TsDone(t: S.Terms, every: int, turns: seq<S.Event>, clock: Clock)
    requires S.TermsOk(t) && 1 <= every && t.evaluator == None && Fits(t, |turns| + 1, clock)
    requires forall i :: 0 <= i < |turns| ==> turns[i].Token? && turns[i].posted && turns[i].at == clock(i)
    ensures var s := Ts.Run(t, Ts.Initial(t, every), turns + [S.Done(clock(|turns|), true)]);
            && s.outcome == S.Finished && s.tokens == |turns| && s.paid == M.Meter(t, |turns|)
            && s.sent != [] && s.sent[|s.sent| - 1].cumulativePaid == M.Meter(t, |turns|)
  {
    var all := turns + [S.Done(clock(|turns|), true)];
    assert all[..|turns|] == turns;
    TsTokens(t, every, turns, clock);
    Ts.RunKeeps(t, every, turns);
    M.MeterBounds(t, |turns|);
  }

  // No turn absorbs more than one token.
  lemma {:induction false} PyTokens(t: S.Terms, turns: seq<S.Event>)
    ensures S.Run(t, S.Initial(t), turns).tokens <= |turns|
  {
    if turns != [] { PyTokens(t, turns[..|turns| - 1]); }
  }

  lemma {:induction false} TsEventsShape(pairs: seq<(Text, nat)>, tail: seq<SseEvent>)
    ensures |TsEvents(pairs, tail)| == |pairs| + |tail|
    ensures TsEvents(pairs, tail)[|pairs|..] == tail
    ensures forall i :: 0 <= i < |pairs| ==> !TsEvents(pairs, tail)[i].finished
  {
    if pairs != [] {
      TsEventsShape(pairs[1..], tail);
    }
  }

  lemma {:induction false} PyEventsShape(pairs: seq<(Text, nat)>)
    ensures |PyEvents(pairs, [])| == |pairs|
  {
    if pairs != [] { PyEventsShape(pairs[1..]); }
  }

  /** After an upstream failure the TypeScript session finishes normally having signed for
      one token more than the producer delivered; the Python session never counts more
      than was delivered. */
  lemma {:induction false} FailureIsMeteredInTypeScript(
      t: S.Terms, every: int, pairs: seq<(Text, nat)>, message: Text, clock: Clock)
    requires S.TermsOk(t) && 1 <= every && t.evaluator == None && Fits(t, |pairs| + 2, clock)
    ensures var wire := Flatten(EncodeFailed(pairs, message));
            var ts := Ts.Run(t, Ts.Initial(t, every), TsTurns(Events(wire, ReadPayload), clock));
            && ts.outcome == S.Finished && ts.tokens == |pairs| + 1
            && ts.sent != [] && ts.sent[|ts.sent| - 1].cumulativePaid == M.Meter(t, |pairs| + 1)
    ensures var wire := Flatten(EncodeFailed(pairs, message));
            var py := S.Run(t, S.Initial(t), PyTurns(IterLines(Split(wire), ReadPayload), clock));
            py.tokens <= |pairs| && py.paid <= M.Meter(t, |pairs|)
  {
    hide Events, IterLines, EncodeFailed, Split, Flatten, ReadPayload, S.Run, Ts.Run, M.Meter, TsTurns, PyTurns;
    FailedStream(pairs, message);
    TsSide(t, every, pairs, clock);
    PySide(t, pairs, clock);
  }

  lemma TsSide(t: S.Terms, every: int, pairs: seq<(Text, nat)>, clock: Clock)
    requires S.TermsOk(t) && 1 <= every && t.evaluator == None && Fits(t, |pairs| + 2, clock)
    ensures var es := TsEvents(pairs, [SseEvent([], false), SseEvent([], true)]);
            var ts := Ts.Run(t, Ts.Initial(t, every), TsTurns(es, clock));
            && ts.outcome == S.Finished && ts.tokens == |pairs| + 1
            && ts.sent != [] && ts.sent[|ts.sent| - 1].cumulativePaid == M.Meter(t, |pairs| + 1)
  {
    var tail := [SseEvent([], false), SseEvent([], true)];
    var es, n := TsEvents(pairs, tail), |pairs| + 1;
    TsEventsShape(pairs, tail);
    assert es[|pairs|] == tail[0] && es[n] == tail[1];
    var turns := TsTurns(es, clock);
    assert turns == turns[..n] + [S.Done(clock(n), true)];
    TsDone(t, every, turns[..n], clock);
  }

  lemma PySide(t: S.Terms, pairs: seq<(Text, nat)>, clock: Clock)
    requires S.TermsOk(t)
    ensures var py := S.Run(t, S.Initial(t), PyTurns(Parsed(PyEvents(pairs, []), true), clock));
            py.tokens <= |pairs| && py.paid <= M.Meter(t, |pairs|)
  {
    hide S.Step, M.Meter, M.SessionOk, PyEvents;
    var turns := PyTurns(Parsed(PyEvents(pairs, []), true), clock);
    PyEventsShape(pairs);
    assert turns[|pairs|] == S.Broken && |turns| == |pairs| + 1;
    PyTokens(t, turns[..|pairs|]);
    PaidOfTokens(t, turns);
    BrokenAbsorbsNothing(t, S.Run(t, S.Initial(t), turns[..|pairs|]));
    M.MeterMonotone(t, S.Run(t, S.Initial(t), turns).tokens, |pairs|);
  }

  lemma PaidOfTokens(t: S.Terms, turns: seq<S.Event>)
    requires S.TermsOk(t)
    ensures S.Run(t, S.Initial(t), turns).paid == M.Meter(t, S.Run(t, S.Initial(t), turns).tokens)
  {
    M.RunKeepsSession(t, turns);
  }

  lemma BrokenAbsorbsNothing(t: S.Terms, s: S.State)
    ensures S.Step(t, s, S.Broken).tokens == s.tokens
  {
  }
}
