/** What every run of a consumer session keeps: the meter, the commitment chain and the
    batching schedule. */
module SessionMeter {
  import opened Types
  import opened Commitment
  import opened Session

  /** What `n` output tokens cost under the session's terms. */
  function Meter(t: Terms, n: nat): int {
    Min(t.deposit, t.prepaid + n * t.price)
  }

  lemma MeterMonotone(t: Terms, m: nat, n: nat)
    requires m <= n
    ensures Meter(t, m) <= Meter(t, n)
    ensures TermsOk(t) ==> t.prepaid <= Meter(t, m)
  {
    assert m * t.price <= n * t.price;
  }

  lemma MeterBounds(t: Terms, n: nat)
    ensures 0 <= Meter(t, n) <= t.deposit
  {
    assert 0 <= n * t.price;
  }

  function Pow2(n: nat): (p: nat)
    ensures p >= 1
  {
    if n == 0 then 1 else 2 * Pow2(n - 1)
  }

  /** The batch size in force after `n` commitments. */
  function BatchSize(t: Terms, n: nat): int {
    if t.unpaidCap <= 0 then 1 else Min(t.kMax, Pow2(n))
  }

  /** The tokens the first `n` commitments cover: the sum of the first `n` batch sizes. */
  function Covered(t: Terms, n: nat): int {
    if n == 0 then 0 else Covered(t, n - 1) + BatchSize(t, n - 1)
  }

  // ------------------------------------------------------------- invariant

  ghost predicate ChainOk(t: Terms, s: State) {
    forall i: nat :: i < |s.sent| ==>
      && s.sent[i].channel == t.channel
      && s.sent[i].sequence == i + 1
      && InRange(s.sent[i])
      && s.sent[i].tokensReceived <= s.tokens
      && s.sent[i].cumulativePaid == Meter(t, s.sent[i].tokensReceived)
      && (i > 0 ==> s.sent[i - 1].tokensReceived <= s.sent[i].tokensReceived)
  }

  /** The last commitment covers every token absorbed. */
  predicate FullyCovered(s: State) {
    s.sent != [] && s.sent[|s.sent| - 1].tokensReceived == s.tokens
  }

  ghost predicate Core(t: Terms, s: State) {
    && s.paid == Meter(t, s.tokens)
    && |s.sent| <= s.sequence
    && ChainOk(t, s)
    && 0 <= s.since <= s.k <= t.kMax
    && (s.sent != [] ==> Covered(t, |s.sent| - 1) <= s.tokens)
  }

  /** Where the schedule stands while streaming. */
  ghost predicate OnSchedule(t: Terms, s: State) {
    && |s.sent| == s.sequence
    && s.k == BatchSize(t, |s.sent|)
    && s.tokens == Covered(t, |s.sent|) + s.since
    && (s.sent != [] ==> s.sent[|s.sent| - 1].tokensReceived == s.tokens - s.since)
  }

  ghost predicate SessionOk(t: Terms, s: State) {
    && Core(t, s)
    && (s.outcome == Streaming || s.outcome == Exhausted ==> OnSchedule(t, s) && s.since < s.k)
    && (s.outcome == Finished || s.outcome == EvaluatorHalt ==> FullyCovered(s))
  }

  lemma PaidIsMeter(t: Terms, s: State, text: Text)
    requires s.paid == Meter(t, s.tokens)
    ensures Absorb(t, s, text).paid == Meter(t, s.tokens + 1)
  {
    assert (s.tokens + 1) * t.price == s.tokens * t.price + t.price;
  }

  lemma BatchDoubles(t: Terms, n: nat)
    requires TermsOk(t)
    ensures 1 <= BatchSize(t, n) <= t.kMax
    ensures NextK(BatchSize(t, n), t.kMax, 0, t.unpaidCap) == BatchSize(t, n + 1)
  {
    assert Pow2(n + 1) == 2 * Pow2(n);
  }

  // One more commitment, for every token absorbed so far.
  lemma ChainExtends(t: Terms, s: State, s': State, c: CommitMessage)
    requires Core(t, s) && OnSchedule(t, s) && InRange(c)
    requires c.channel == t.channel && c.sequence == s.sequence + 1
    requires c.cumulativePaid == s.paid && c.tokensReceived == s.tokens
    requires s'.sent == s.sent + [c] && s'.tokens == s.tokens
    ensures ChainOk(t, s') && FullyCovered(s')
  {
    hide Meter, Covered;
    var n := |s.sent|;
    assert n > 0 ==> s.sent[n - 1].tokensReceived <= s.tokens;
    forall i: nat | i < |s'.sent|
      ensures i < n ==> s'.sent[i] == s.sent[i]
    {}
  }

  lemma CommitKeepsCore(t: Terms, s: State, at: int, posted: bool, force: bool)
    requires TermsOk(t) && Core(t, s) && OnSchedule(t, s)
    ensures Core(t, SendCommit(t, s, at, posted, force))
    ensures var s' := SendCommit(t, s, at, posted, force);
            s'.outcome == s.outcome && (force || s.since > 0) && s.outcome != Raised ==>
              FullyCovered(s') && s'.since == 0 && |s'.sent| == |s.sent| + 1 == s'.sequence
  {
    var s' := SendCommit(t, s, at, posted, force);
    if s'.sent == s.sent {
      assert ChainOk(t, s');
    } else {
      var c := CommitMessage(t.channel, s.sequence + 1, s.paid, s.tokens, at);
      ChainExtends(t, s, s', c);
    }
    hide Meter, ChainOk;
  }

  lemma TokenKeepsCore(t: Terms, s: State, text: Text)
    requires TermsOk(t) && SessionOk(t, s) && s.outcome == Streaming
    ensures Core(t, Absorb(t, s, text)) && OnSchedule(t, Absorb(t, s, text))
  {
    PaidIsMeter(t, s, text);
    assert forall i: nat :: i < |s.sent| ==> s.sent[i].tokensReceived <= s.tokens;
  }

  lemma TokenKeepsSession(t: Terms, s: State, e: Event)
    requires TermsOk(t) && SessionOk(t, s) && s.outcome == Streaming && e.Token?
    ensures SessionOk(t, Step(t, s, e))
  {
    hide Meter;
    var s1 := Absorb(t, s, e.text);
    TokenKeepsCore(t, s, e.text);
    if t.evaluator.Some? && t.evaluator.value(s1.accumulated) {
      FinishingTurn(t, s1, e.at, e.posted, EvaluatorHalt);
    } else if e.silent {
    } else if s1.since >= s1.k {
      RegularCommit(t, s1, e.at, e.posted);
    }
  }

  lemma FinishingTurn(t: Terms, s: State, at: int, posted: bool, outcome: Outcome)
    requires TermsOk(t) && Core(t, s) && OnSchedule(t, s) && s.outcome == Streaming
    requires outcome == Finished || outcome == EvaluatorHalt
    ensures SessionOk(t, Ended(SendCommit(t, s, at, posted, true), outcome))
  {
    hide Meter;
    CommitKeepsCore(t, s, at, posted, true);
    var s' := SendCommit(t, s, at, posted, true);
    assert ChainOk(t, s'.(outcome := outcome));
  }

  lemma StepKeepsSession(t: Terms, s: State, e: Event)
    requires TermsOk(t) && SessionOk(t, s)
    ensures SessionOk(t, Step(t, s, e))
  {
    if s.outcome == Streaming {
      match e
      case Done(at, posted) => FinishingTurn(t, s, at, posted, Finished);
      case Token(_, _, _, _) => TokenKeepsSession(t, s, e);
      case Eof => assert ChainOk(t, s.(outcome := Exhausted));
      case Broken => assert ChainOk(t, s.(outcome := Raised));
    }
  }

  lemma RegularCommit(t: Terms, s: State, at: int, posted: bool)
    requires TermsOk(t) && Core(t, s) && OnSchedule(t, s) && s.since == s.k && s.outcome == Streaming
    ensures var s2 := SendCommit(t, s, at, posted, false);
            && Core(t, s2)
            && (s2.outcome == Raised ==> SessionOk(t, s2))
            && (s2.outcome != Raised ==>
                  SessionOk(t, s2.(k := NextK(s2.k, t.kMax, s2.since * t.price, t.unpaidCap))))
  {
    hide Meter, NextK;
    var n := |s.sent|;
    BatchDoubles(t, n);
    BatchDoubles(t, n + 1);
    CommitKeepsCore(t, s, at, posted, false);
    var s2 := SendCommit(t, s, at, posted, false);
    assert s2.outcome != Raised ==> s2.since * t.price == 0;
    assert Covered(t, n + 1) == Covered(t, n) + BatchSize(t, n);
  }

  /** Every state of every session run keeps the invariant. */
  lemma {:induction false} RunKeepsSession(t: Terms, events: seq<Event>)
    requires TermsOk(t)
    ensures SessionOk(t, Run(t, Initial(t), events))
  {
    if events != [] {
      RunKeepsSession(t, events[..|events| - 1]);
      StepKeepsSession(t, Run(t, Initial(t), events[..|events| - 1]), events[|events| - 1]);
    }
  }

  // ------------------------------------------------------------ main results

  /** What the session has signed away: the last commitment's amount, or the floor. */
  function SignedSoFar(t: Terms, s: State): int {
    if s.sent == [] then t.prepaid else s.sent[|s.sent| - 1].cumulativePaid
  }

  /** The meter is exact at every moment; while streaming, the value not yet signed is at
      most that of the tokens since the last commitment, always under `k_max` of them. */
  lemma MeterIsExact(t: Terms, events: seq<Event>)
    requires TermsOk(t)
    ensures var s := Run(t, Initial(t), events);
            && s.paid == Min(t.deposit, t.prepaid + s.tokens * t.price)
            && (s.outcome == Streaming ==>
                  && 0 <= s.since < t.kMax
                  && s.paid - SignedSoFar(t, s) <= s.since * t.price)
  {
    RunKeepsSession(t, events);
    var s := Run(t, Initial(t), events);
    if s.outcome == Streaming { UnsignedValue(t, s); }
  }

  lemma UnsignedValue(t: Terms, s: State)
    requires TermsOk(t) && SessionOk(t, s) && s.outcome == Streaming
    ensures s.since < t.kMax && s.paid - SignedSoFar(t, s) <= s.since * t.price
  {
    BatchDoubles(t, |s.sent|);
    if s.sent == [] {
      MeterGrowth(t, 0, s.tokens);
    } else {
      LastCommitment(t, s);
      MeterGrowth(t, s.tokens - s.since, s.since);
    }
  }

  /** The batching schedule in closed form: after `n` commitments the batch size is
      min(k_max, 2^n), and the tokens received are the sum of the first `n` sizes plus
      those since. */
  lemma {:induction false} ScheduleInClosedForm(t: Terms, events: seq<Event>)
    requires TermsOk(t) && t.unpaidCap > 0 && Run(t, Initial(t), events).outcome == Streaming
    ensures var s := Run(t, Initial(t), events);
            var n := |s.sent|;
            && s.k == Min(t.kMax, Pow2(n))
            && s.tokens == Covered(t, n) + s.since && s.since < s.k
            && s.sequence == n
  {
    RunKeepsSession(t, events);
  }

  lemma LastCommitment(t: Terms, s: State)
    requires SessionOk(t, s) && s.outcome == Streaming && s.sent != []
    ensures 0 <= s.tokens - s.since
    ensures s.sent[|s.sent| - 1].cumulativePaid == Meter(t, s.tokens - s.since)
  {
    assert InRange(s.sent[|s.sent| - 1]);
  }

  lemma MeterGrowth(t: Terms, n: nat, more: nat)
    ensures Meter(t, n + more) <= Meter(t, n) + more * t.price
  {
    assert (n + more) * t.price == n * t.price + more * t.price;
  }

  /** The signed chain: sequences 1, 2, 3, ..., amounts between the prepaid floor and
      the deposit that never fall, each the exact price of the tokens it covers. */
  lemma ChainIsMonotone(t: Terms, events: seq<Event>, i: nat, j: nat)
    requires TermsOk(t) && i <= j < |Run(t, Initial(t), events).sent|
    ensures var sent := Run(t, Initial(t), events).sent;
            && sent[i].sequence == i + 1
            && t.prepaid <= sent[i].cumulativePaid <= sent[j].cumulativePaid <= t.deposit
            && sent[i].tokensReceived <= sent[j].tokensReceived
            && 0 <= sent[i].tokensReceived
            && sent[i].cumulativePaid == Meter(t, sent[i].tokensReceived)
  {
    RunKeepsSession(t, events);
    ChainOrdered(t, Run(t, Initial(t), events), i, j);
  }

  lemma {:induction false} ChainOrdered(t: Terms, s: State, i: nat, j: nat)
    requires TermsOk(t) && ChainOk(t, s) && i <= j < |s.sent|
    ensures s.sent[i].tokensReceived <= s.sent[j].tokensReceived
    ensures t.prepaid <= s.sent[i].cumulativePaid <= s.sent[j].cumulativePaid <= t.deposit
    decreases j
  {
    MeterMonotone(t, s.sent[i].tokensReceived, s.sent[i].tokensReceived);
    if i < j {
      ChainOrdered(t, s, i, j - 1);
      MeterMonotone(t, s.sent[j - 1].tokensReceived, s.sent[j].tokensReceived);
    }
  }

  /** Both normal returns (the sentinel, or the evaluator's halt) leave a signed
      commitment for everything absorbed. */
  lemma {:induction false} NormalReturnIsCovered(t: Terms, events: seq<Event>)
    requires TermsOk(t)
    requires var o := Run(t, Initial(t), events).outcome; o == Finished || o == EvaluatorHalt
    ensures var s := Run(t, Initial(t), events);
            s.sent != [] && s.sent[|s.sent| - 1].tokensReceived == s.tokens
            && s.sent[|s.sent| - 1].cumulativePaid == s.paid
  {
    RunKeepsSession(t, events);
  }

  // ---------------------------------------------------- streams cut short

  /** Tokens absorbed that no signed commitment covers. */
  function Unsigned(s: State): int {
    s.tokens - (if s.sent == [] then 0 else s.sent[|s.sent| - 1].tokensReceived)
  }

  /** A sum of the first batch sizes, as many as you like: 0, 1, 3, 7, ... */
  ghost predicate PartialSum(t: Terms, tokens: int) {
    exists n: nat :: tokens == Covered(t, n)
  }

  lemma {:induction false} CoveredIncreases(t: Terms, m: nat, n: nat)
    requires TermsOk(t) && m <= n
    ensures Covered(t, m) + (n - m) <= Covered(t, n)
    decreases n
  {
    if m < n { CoveredIncreases(t, m, n - 1); BatchDoubles(t, n - 1); }
  }

  lemma OtherSums(t: Terms, m: nat, n: nat)
    requires TermsOk(t) && m != n
    ensures Covered(t, m) < Covered(t, n) || Covered(t, n) + BatchSize(t, n) <= Covered(t, m)
  {
    if m < n {
      CoveredIncreases(t, m, n);
    } else {
      assert Covered(t, n + 1) == Covered(t, n) + BatchSize(t, n);
      CoveredIncreases(t, n + 1, m);
    }
  }

  lemma WithinBatch(t: Terms, tokens: int, n: nat)
    requires TermsOk(t) && Covered(t, n) <= tokens < Covered(t, n) + BatchSize(t, n)
    ensures PartialSum(t, tokens) <==> tokens == Covered(t, n)
  {
    hide Covered, BatchSize;
    if PartialSum(t, tokens) {
      var m: nat :| tokens == Covered(t, m);
      if m != n { OtherSums(t, m, n); }
    }
  }

  /** A stream that ends without the sentinel leaves all its tokens signed exactly when
      their number is a sum of first batch sizes; otherwise what the last, unfinished
      batch holds is left, fewer than `k_max` tokens. */
  lemma TruncatedStreamIsSignedIff(t: Terms, events: seq<Event>)
    requires TermsOk(t) && Run(t, Initial(t), events).outcome == Exhausted
    ensures var s := Run(t, Initial(t), events);
            && Unsigned(s) == s.tokens - Covered(t, |s.sent|) && 0 <= Unsigned(s) < t.kMax
            && (Unsigned(s) == 0 <==> PartialSum(t, s.tokens))
            && (FullyCovered(s) <==> s.tokens > 0 && PartialSum(t, s.tokens))
  {
    RunKeepsSession(t, events);
    var s := Run(t, Initial(t), events);
    BatchDoubles(t, |s.sent|);
    WithinBatch(t, s.tokens, |s.sent|);
    CoveredAtLeast(t, |s.sent|);
  }

  predicate Halts(t: Terms, accumulated: Text) { t.evaluator.Some? && t.evaluator.value(accumulated) }

  /** Whether the turn that ends the stream gets as far as signing. */
  predicate Attempts(t: Terms, s: State, e: Event) {
    e.Done? || (e.Token? && (Halts(t, s.accumulated + e.text) || !e.silent))
  }

  predicate Signs(t: Terms, s: State, e: Event, s': State) {
    Attempts(t, s, e)
    && InRange(CommitMessage(t.channel, s.sequence + 1, Meter(t, s'.tokens), s'.tokens, e.at))
  }

  /** What the ending `e`, met while streaming in `s`, leaves unsigned. A last commitment
      that was signed covers everything, posted or not; any other ending leaves the
      unfinished batch, and none of it only at a partial sum. */
  ghost predicate Leaves(t: Terms, s: State, e: Event, s': State) {
    if Signs(t, s, e, s') then Unsigned(s') == 0
    else
      && Unsigned(s') == s'.tokens - Covered(t, |s'.sent|)
      && (if e.Token? then 1 <= Unsigned(s') <= t.kMax
          else 0 <= Unsigned(s') < t.kMax && (Unsigned(s') == 0 <==> PartialSum(t, s'.tokens)))
  }

  lemma EndingLeaves(t: Terms, s: State, e: Event)
    requires TermsOk(t) && SessionOk(t, s) && s.outcome == Streaming
    requires Step(t, s, e).outcome != Streaming
    ensures Leaves(t, s, e, Step(t, s, e))
  {
    hide Meter, PartialSum, Leaves;
    match e
    case Token(_, _, _, _) => TokenLeaves(t, s, e);
    case Done(at, posted) => CommitLeaves(t, s, s, e, at, posted, Finished);
    case _ => CutLeaves(t, s, e, Step(t, s, e));
  }

  // Nothing more is signed: the unfinished batch is left.
  lemma CutLeaves(t: Terms, s: State, e: Event, s': State)
    requires TermsOk(t) && SessionOk(t, s) && s.outcome == Streaming && !e.Token? && !Signs(t, s, e, s')
    requires s'.tokens == s.tokens && s'.sent == s.sent
    ensures Leaves(t, s, e, s')
  {
    BatchDoubles(t, |s.sent|);
    WithinBatch(t, s.tokens, |s.sent|);
    hide Meter, Covered, BatchSize, PartialSum, Signs;
  }

  // A turn that gets as far as signing, from `s1` on.
  lemma CommitLeaves(t: Terms, s: State, s1: State, e: Event, at: int, posted: bool, outcome: Outcome)
    requires TermsOk(t) && SessionOk(t, s) && s.outcome == Streaming && Attempts(t, s, e)
    requires s1 == (if e.Token? then Absorb(t, s, e.text) else s) && (e.Done? || e.Token?) && at == e.at
    ensures Leaves(t, s, e, Ended(SendCommit(t, s1, at, posted, true), outcome))
    ensures e.Token? && SendCommit(t, s1, at, posted, false).outcome == Raised ==>
              Leaves(t, s, e, SendCommit(t, s1, at, posted, false))
  {
    hide Covered, BatchSize, PartialSum, NextK;
    if e.Token? {
      UnfinishedBatch(t, s);
      PaidIsMeter(t, s, e.text);
    } else if !Signs(t, s, e, s1) {
      CutLeaves(t, s, e, Ended(SendCommit(t, s1, at, posted, true), outcome));
    }
    hide Meter, InRange, SessionOk;
  }

  lemma UnfinishedBatch(t: Terms, s: State)
    requires TermsOk(t) && SessionOk(t, s) && s.outcome == Streaming
    ensures Unsigned(s) == s.since == s.tokens - Covered(t, |s.sent|) < t.kMax
  {
    assert Covered(t, 0) == 0;
    hide Meter, ChainOk;
    BatchDoubles(t, |s.sent|);
  }

  lemma TokenLeaves(t: Terms, s: State, e: Event)
    requires TermsOk(t) && SessionOk(t, s) && s.outcome == Streaming && e.Token?
    requires Step(t, s, e).outcome != Streaming
    ensures Leaves(t, s, e, Step(t, s, e))
  {
    hide Meter, Covered, BatchSize, PartialSum;
    var s1 := Absorb(t, s, e.text);
    if Halts(t, s1.accumulated) {
      CommitLeaves(t, s, s1, e, e.at, e.posted, EvaluatorHalt);
    } else if !e.silent {
      CommitLeaves(t, s, s1, e, e.at, e.posted, Finished);
    } else {
      UnfinishedBatch(t, s);
    }
  }

  /** The stream's end: event `i` is met while streaming, and nothing happens after it. */
  ghost predicate EndsAt(t: Terms, events: seq<Event>, i: nat) {
    && i < |events|
    && Run(t, Initial(t), events[..i]).outcome == Streaming
    && Run(t, Initial(t), events) == Step(t, Run(t, Initial(t), events[..i]), events[i])
  }

  lemma {:induction false} StreamsEndOnce(t: Terms, events: seq<Event>)
    requires Run(t, Initial(t), events).outcome != Streaming
    ensures exists i: nat :: EndsAt(t, events, i)
  {
    var n := |events| - 1;
    if Run(t, Initial(t), events[..n]).outcome == Streaming {
      assert EndsAt(t, events, n);
    } else {
      StreamsEndOnce(t, events[..n]);
      var i: nat :| EndsAt(t, events[..n], i);
      assert events[..n][..i] == events[..i];
      assert EndsAt(t, events, i);
    }
  }

  /** However a stream ended (sentinel, evaluator, end of input, broken stream, silence, a
      failed post, a field too large to sign), its ending event says exactly how many
      tokens are left unsigned. */
  lemma {:induction false} EveryEndingLeaves(t: Terms, events: seq<Event>)
    requires TermsOk(t) && Run(t, Initial(t), events).outcome != Streaming
    ensures exists i: nat :: EndsAt(t, events, i)
              && Leaves(t, Run(t, Initial(t), events[..i]), events[i], Run(t, Initial(t), events))
  {
    StreamsEndOnce(t, events);
    var i: nat :| EndsAt(t, events, i);
    RunKeepsSession(t, events[..i]);
    EndingLeaves(t, Run(t, Initial(t), events[..i]), events[i]);
  }

  /** It happens: two tokens, then the end of the stream. */
  lemma TruncatedStreamLeavesTokensUnsigned(t: Terms)
    requires TermsOk(t) && t.kMax >= 2 && t.unpaidCap > 0 && t.evaluator == None
    requires t.deposit <= U64_MAX
    ensures var tok := Token([], false, 0, true);
            var s := Run(t, Initial(t), [tok, tok, Eof]);
            s.outcome == Exhausted && s.tokens == 2 && s.since == 1 && !FullyCovered(s)
  {
    var tok := Token([], false, 0, true);
    assert [tok, tok, Eof][..2] == [tok, tok] && [tok, tok][..1] == [tok] && [tok][..0] == [];
    var s1 := Run(t, Initial(t), [tok]);
    assert s1 == Step(t, Run(t, Initial(t), []), tok);
    assert s1.sent == [CommitMessage(t.channel, 1, Min(t.deposit, t.prepaid + t.price), 1, 0)];
    assert s1.k == 2 && s1.since == 0;
    assert Run(t, Initial(t), [tok, tok]) == Step(t, s1, tok);
  }

  /** A whole session as the application and the commit endpoint see it. Chunk `i` shows
      the exact price of `i + 1` tokens; posted commitment `j` has sequence `j + 1` and
      the exact price of the tokens it covers; a normal return leaves the last one
      covering every chunk. */
  method StreamOnce(t: Terms, events: seq<Event>)
    returns (chunks: seq<TokenChunk>, posted: seq<CommitMessage>, outcome: Outcome)
    requires TermsOk(t)
    ensures |chunks| <= |events|
    ensures forall i :: 0 <= i < |chunks| ==>
              events[i].Token? && chunks[i] == TokenChunk(events[i].text, Meter(t, i + 1), i + 1)
    ensures forall j :: 0 <= j < |posted| ==>
              && posted[j].sequence == j + 1 && 0 <= posted[j].tokensReceived <= |chunks|
              && posted[j].cumulativePaid == Meter(t, posted[j].tokensReceived)
    ensures outcome == Finished || outcome == EvaluatorHalt ==>
              posted != [] && posted[|posted| - 1].tokensReceived == |chunks|
  {
    hide Run, Meter;
    var session := new ConsumerSession(t);
    ghost var start := session.View();
    chunks := session.Stream(events);
    posted, outcome := session.posted, session.outcome;
    RunKeepsSession(t, events);
    assert SessionOk(t, session.View());
    forall i | 0 <= i < |chunks|
      ensures events[i].Token? && chunks[i] == TokenChunk(events[i].text, Meter(t, i + 1), i + 1)
    {
      assert ChunkAt(t, start, events, i, chunks[i]);
      RunKeepsSession(t, events[..i + 1]);
    }
  }

  // ------------------------------------------------- cost of the schedule

  lemma {:induction false} Pow2Monotone(m: nat, n: nat)
    requires m <= n
    ensures Pow2(m) <= Pow2(n)
    decreases n
  {
    if m < n { Pow2Monotone(m, n - 1); }
  }

  // Once the batch size has reached k_max, commitments are k_max tokens apart.
  lemma {:induction false} CoveredGrows(t: Terms, ramp: nat, n: nat)
    requires TermsOk(t) && t.unpaidCap > 0 && Pow2(ramp) >= t.kMax && ramp <= n
    ensures Covered(t, n) >= (n - ramp) * t.kMax
    decreases n
  {
    if n > ramp {
      CoveredGrows(t, ramp, n - 1);
      Pow2Monotone(ramp, n - 1);
      assert BatchSize(t, n - 1) == t.kMax;
      assert (n - ramp) * t.kMax == (n - 1 - ramp) * t.kMax + t.kMax;
    } else {
      CoveredAtLeast(t, n);
    }
  }

  lemma QuotientBounds(a: int, k: int, total: int)
    requires 1 <= k && a * k <= total
    ensures a <= total / k
  {
    var q := total / k;
    if a >= q + 1 {
      MulMonotone(q + 1, a, k);
    }
  }

  lemma {:induction false} CoveredAtLeast(t: Terms, n: nat)
    requires TermsOk(t)
    ensures n <= Covered(t, n)
  {
    if n > 0 { CoveredAtLeast(t, n - 1); BatchDoubles(t, n - 1); }
  }

  /** `T` tokens cost at most ceil(log2 k_max) + T / k_max + 1 commitments; `ramp` is any
      exponent whose power of two reaches `k_max`. */
  lemma {:induction false} CommitmentsAreFew(t: Terms, events: seq<Event>, ramp: nat)
    requires TermsOk(t) && t.unpaidCap > 0 && Pow2(ramp) >= t.kMax
    ensures var s := Run(t, Initial(t), events); |s.sent| <= ramp + s.tokens / t.kMax + 1
  {
    RunKeepsSession(t, events);
    var s := Run(t, Initial(t), events);
    CountBound(t, |s.sent|, s.tokens, ramp);
  }

  lemma CountBound(t: Terms, n: nat, tokens: nat, ramp: nat)
    requires TermsOk(t) && t.unpaidCap > 0 && Pow2(ramp) >= t.kMax
    requires n > 0 ==> Covered(t, n - 1) <= tokens
    ensures n <= ramp + tokens / t.kMax + 1
  {
    hide Covered;
    if n - 1 >= ramp {
      CoveredGrows(t, ramp, n - 1);
      QuotientBounds(n - 1 - ramp, t.kMax, tokens);
    } else {
      QuotientBounds(0, t.kMax, tokens);
    }
  }
}
