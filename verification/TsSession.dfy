/** The TypeScript session: the same meter, with a fixed batch size. */
module TsSession {
  import opened Types
  import opened Commitment
  import S = Session
  import M = SessionMeter

  const MAX_SAFE := 0x1F_FFFF_FFFF_FFFF

  /** What the JSON header can carry: the numbers a double holds exactly. */
  predicate Safe(c: CommitMessage) {
    && c.sequence <= MAX_SAFE
    && -MAX_SAFE <= c.cumulativePaid <= MAX_SAFE
    && -MAX_SAFE <= c.timestampMs <= MAX_SAFE
  }

  /** Sign and post. A field the header cannot carry throws before the post; a failed
      fetch rejects out of the stream. */
  function Send(t: S.Terms, s: S.State, at: int, posted: bool, force: bool): S.State {
    if !force && s.since == 0 then s
    else
      var c := CommitMessage(t.channel, s.sequence + 1, s.paid, s.tokens, at);
      var s1 := s.(sequence := s.sequence + 1);
      if !Safe(c) then s1.(outcome := S.Raised)
      else if !posted then s1.(sent := s.sent + [c], outcome := S.Raised)
      else s1.(sent := s.sent + [c], since := 0)
  }

  /** One turn of `stream`; `s.k` is `commitEveryTokens` and never changes. */
  function Step(t: S.Terms, s: S.State, e: S.Event): S.State {
    if s.outcome != S.Streaming then s
    else match e
      case Eof => s.(outcome := S.Exhausted)
      case Broken => s.(outcome := S.Raised)
      case Done(at, posted) => S.Ended(Send(t, s, at, posted, true), S.Finished)
      case Token(text, _, at, posted) =>
        var s1 := S.Absorb(t, s, text);
        if t.evaluator.Some? && t.evaluator.value(s1.accumulated) then
          S.Ended(Send(t, s1, at, posted, true), S.EvaluatorHalt)
        else if s1.since >= s1.k then Send(t, s1, at, posted, false)
        else s1
  }

  function Run(t: S.Terms, s: S.State, events: seq<S.Event>): S.State {
    if events == [] then s else Step(t, Run(t, s, events[..|events| - 1]), events[|events| - 1])
  }

  function Initial(t: S.Terms, commitEvery: int): S.State { S.Initial(t).(k := commitEvery) }

  class ConsumerSession {
    const terms: S.Terms
    const commitEveryTokens: int

    var sequence: nat
    var tokensReceivedCount: nat
    var cumulativePaid: int
    var accumulated: Text
    var tokensSinceCommit: nat
    var posted: seq<CommitMessage>
    var outcome: S.Outcome

    constructor (terms: S.Terms, commitEveryTokens: int)
      ensures this.terms == terms && this.commitEveryTokens == commitEveryTokens
      ensures View() == Initial(terms, commitEveryTokens)
    {
      this.terms, this.commitEveryTokens := terms, commitEveryTokens;
      sequence, tokensReceivedCount, tokensSinceCommit := 0, 0, 0;
      cumulativePaid := terms.prepaid;
      accumulated, posted, outcome := [], [], S.Streaming;
    }

    function View(): S.State
      reads this
    {
      S.State(sequence, tokensReceivedCount, cumulativePaid, tokensSinceCommit, commitEveryTokens,
              accumulated, posted, outcome)
    }

    method AbsorbToken(text: Text)
      modifies this
      ensures View() == S.Absorb(terms, old(View()), text)
    {
      tokensReceivedCount := tokensReceivedCount + 1;
      tokensSinceCommit := tokensSinceCommit + 1;
      var next := cumulativePaid + terms.price;
      cumulativePaid := if next > terms.deposit then terms.deposit else next;
      accumulated := accumulated + text;
    }

    method SendCommit(at: int, arrives: bool, force: bool)
      modifies this
      ensures View() == Send(terms, old(View()), at, arrives, force)
    {
      if !force && tokensSinceCommit == 0 { return; }
      sequence := sequence + 1;
      var message := CommitMessage(terms.channel, sequence, cumulativePaid, tokensReceivedCount, at);
      if !Safe(message) {
        outcome := S.Raised;
        return;
      }
      posted := posted + [message];
      if !arrives {
        outcome := S.Raised;
        return;
      }
      tokensSinceCommit := 0;
    }

    method Turn(e: S.Event)
      requires outcome == S.Streaming
      modifies this
      ensures View() == Step(terms, old(View()), e)
    {
      match e {
        case Eof => outcome := S.Exhausted;
        case Broken => outcome := S.Raised;
        case Done(at, arrives) =>
          SendCommit(at, arrives, true);
          if outcome != S.Raised { outcome := S.Finished; }
        case Token(text, _, at, arrives) =>
          AbsorbToken(text);
          if terms.evaluator.Some? && terms.evaluator.value(accumulated) {
            SendCommit(at, arrives, true);
            if outcome != S.Raised { outcome := S.EvaluatorHalt; }
          } else if tokensSinceCommit >= commitEveryTokens {
            SendCommit(at, arrives, false);
          }
      }
    }
  }

  // ------------------------------------------------------------ invariant

  ghost predicate SentOk(t: S.Terms, sent: seq<CommitMessage>, tokens: nat) {
    forall i: nat :: i < |sent| ==>
      && sent[i].sequence == i + 1 && 0 <= sent[i].tokensReceived <= tokens
      && sent[i].cumulativePaid == M.Meter(t, sent[i].tokensReceived)
  }

  ghost predicate Ok(t: S.Terms, every: int, s: S.State) {
    && s.k == every
    && s.paid == M.Meter(t, s.tokens)
    && |s.sent| <= s.sequence
    && (s.outcome == S.Streaming ==> |s.sent| == s.sequence)
    && (s.outcome == S.Streaming || s.outcome == S.Exhausted ==>
          s.since < every && s.tokens == |s.sent| * every + s.since)
    && SentOk(t, s.sent, s.tokens)
    && (s.outcome == S.Finished || s.outcome == S.EvaluatorHalt ==> M.FullyCovered(s))
  }

  lemma SentGrows(t: S.Terms, sent: seq<CommitMessage>, tokens: nat, c: CommitMessage)
    requires SentOk(t, sent, tokens) && c.sequence == |sent| + 1
    requires c.tokensReceived == tokens && c.cumulativePaid == M.Meter(t, tokens)
    ensures SentOk(t, sent + [c], tokens)
  {
    hide M.Meter;
  }

  lemma SendKeeps(t: S.Terms, every: int, s: S.State, at: int, posted: bool, force: bool, outcome: S.Outcome)
    requires 1 <= every && s.outcome == S.Streaming && s.k == every && s.paid == M.Meter(t, s.tokens)
    requires |s.sent| == s.sequence && s.tokens == |s.sent| * every + s.since && 0 <= s.since <= every
    requires SentOk(t, s.sent, s.tokens)
    requires outcome == S.Finished || outcome == S.EvaluatorHalt
    ensures Ok(t, every, S.Ended(Send(t, s, at, posted, true), outcome))
    ensures s.since == every ==> Ok(t, every, Send(t, s, at, posted, false))
  {
    hide M.Meter, Safe, SentOk;
    SentGrows(t, s.sent, s.tokens, CommitMessage(t.channel, s.sequence + 1, s.paid, s.tokens, at));
    assert (|s.sent| + 1) * every == |s.sent| * every + every;
  }

  lemma StepKeeps(t: S.Terms, every: int, s: S.State, e: S.Event)
    requires 1 <= every && Ok(t, every, s)
    ensures Ok(t, every, Step(t, s, e))
  {
    hide Send, M.Meter;
    if s.outcome == S.Streaming {
      match e
      case Token(text, _, at, posted) =>
        M.PaidIsMeter(t, s, text);
        SendKeeps(t, every, S.Absorb(t, s, text), at, posted, true, S.EvaluatorHalt);
      case Done(at, posted) => SendKeeps(t, every, s, at, posted, true, S.Finished);
      case _ =>
    }
  }

  lemma {:induction false} RunKeeps(t: S.Terms, every: int, events: seq<S.Event>)
    requires S.TermsOk(t) && 1 <= every
    ensures Ok(t, every, Run(t, Initial(t, every), events))
  {
    if events != [] {
      RunKeeps(t, every, events[..|events| - 1]);
      StepKeeps(t, every, Run(t, Initial(t, every), events[..|events| - 1]), events[|events| - 1]);
    }
  }

  /** The two SDKs meter alike: at equal token counts both sessions have authorized the
      same amount, and so have any two commitments that cover equally many tokens. */
  lemma {:induction false} SameMeterInBothSdks(
      t: S.Terms, every: int, py: seq<S.Event>, ts: seq<S.Event>, i: nat, j: nat)
    requires S.TermsOk(t) && 1 <= every
    ensures var p, q := S.Run(t, S.Initial(t), py), Run(t, Initial(t, every), ts);
            && (p.tokens == q.tokens ==> p.paid == q.paid)
            && (i < |p.sent| && j < |q.sent| && p.sent[i].tokensReceived == q.sent[j].tokensReceived ==>
                  p.sent[i].cumulativePaid == q.sent[j].cumulativePaid)
  {
    M.RunKeepsSession(t, py);
    RunKeeps(t, every, ts);
  }

  /** Fixed cadence: while streaming, and when the input just ends, `T` tokens have cost `T / K` commitments and leave
      `T % K` tokens unsigned; a normal return leaves none. */
  lemma {:induction false} FixedCadence(t: S.Terms, every: int, events: seq<S.Event>)
    requires S.TermsOk(t) && 1 <= every
    ensures var s := Run(t, Initial(t, every), events);
            && (s.outcome == S.Streaming || s.outcome == S.Exhausted ==>
                  |s.sent| == s.tokens / every && s.since == s.tokens % every)
            && (s.outcome == S.Finished || s.outcome == S.EvaluatorHalt ==> M.FullyCovered(s))
  {
    RunKeeps(t, every, events);
    var s := Run(t, Initial(t, every), events);
    if s.outcome == S.Streaming || s.outcome == S.Exhausted {
      DivisionIs(|s.sent|, every, s.since);
    }
  }

  lemma DivisionIs(q: nat, k: nat, r: nat)
    requires r < k
    ensures (q * k + r) / k == q && (q * k + r) % k == r
  {
    var n := q * k + r;
    assert n == (n / k) * k + n % k;
    if n / k > q { MulMonotone(q + 1, n / k, k); }
    if n / k < q { MulMonotone(n / k + 1, q, k); }
  }
}
