/** The consumer's metering session: adaptive batching, the token meter and the chain of
    signed commitments. */
module Session {
  import opened Types
  import opened Commitment

  // ---------------------------------------------------------------- batcher

  /** One adjustment of the batch size; the watermarks 0.85 and 0.30 as ratios. */
  function NextK(k: int, kMax: int, unpaidValue: int, unpaidCap: int): int {
    if unpaidCap <= 0 then k
    else if 100 * unpaidValue >= 85 * unpaidCap && k > 1 then Max(1, k / 2)
    else if 100 * unpaidValue <= 30 * unpaidCap && k < kMax then Min(kMax, k * 2)
    else k
  }

  /** The batch size against the ratio the source computes: halved, rounding down, exactly at
      or above 0.85; doubled up to the maximum exactly at or below 0.30; else kept. */
  lemma AdaptsAtTheWatermarks(k: int, kMax: int, unpaidValue: int, unpaidCap: int)
    requires 1 <= k <= kMax && unpaidCap > 0
    ensures var ratio, next := unpaidValue as real / unpaidCap as real, NextK(k, kMax, unpaidValue, unpaidCap);
            && 1 <= next <= kMax
            && (ratio >= 0.85 && k > 1 <==> next < k)
            && (next < k ==> k == 2 * next || k == 2 * next + 1)
            && (ratio <= 0.30 && k < kMax <==> next > k)
            && (next > k ==> next == 2 * k || (next == kMax && kMax < 2 * k))
  {
    RatioAgainst(unpaidValue, unpaidCap, 85);
    RatioAgainst(unpaidValue, unpaidCap, 30);
  }

  lemma RatioAgainst(value: int, cap: int, percent: int)
    requires cap > 0
    ensures value as real / cap as real >= percent as real / 100.0 <==> 100 * value >= percent * cap
    ensures value as real / cap as real <= percent as real / 100.0 <==> 100 * value <= percent * cap
  {
    var r, v, c, p := value as real / cap as real, value as real, cap as real, percent as real;
    assert r * c == v;
    assert (100 * value) as real == 100.0 * v && (percent * cap) as real == p * c;
    assert 100.0 * v - p * c == (100.0 * r - p) * c;
    SignOfProduct(100.0 * r - p, c);
  }

  lemma SignOfProduct(x: real, c: real)
    requires c > 0.0
    ensures x >= 0.0 <==> x * c >= 0.0
    ensures x <= 0.0 <==> x * c <= 0.0
  {
  }

  class AdaptiveBatcher {
    const kMax: int
    var k: int

    ghost predicate Valid()
      reads this
    {
      1 <= k <= kMax
    }

    /** The source raises `ValueError` when `k_max < 1`. */
    constructor (kMax: int, k: int)
      requires kMax >= 1
      ensures Valid() && this.kMax == kMax
      ensures this.k == if 1 <= k <= kMax then k else 1
    {
      this.kMax := kMax;
      this.k := if k < 1 || k > kMax then 1 else k;
    }

    predicate ShouldCommit(tokensSinceLast: int)
      reads this
    {
      tokensSinceLast >= k
    }

    method Update(unpaidValue: int, unpaidCap: int)
      requires Valid()
      modifies this`k
      ensures Valid() && k == NextK(old(k), kMax, unpaidValue, unpaidCap)
    {
      if unpaidCap <= 0 { return; }
      if 100 * unpaidValue >= 85 * unpaidCap && k > 1 {
        k := Max(1, k / 2);
      } else if 100 * unpaidValue <= 30 * unpaidCap && k < kMax {
        k := Min(kMax, k * 2);
      }
    }
  }

  // ------------------------------------------------------------ the session

  datatype Terms = Terms(
    channel: Pubkey,
    price: nat,
    prepaid: nat,
    deposit: nat,
    unpaidCap: int,
    kMax: int,
    evaluator: Option<Text -> bool>)

  /** What `open_session` has checked before it builds a session. */
  predicate TermsOk(t: Terms) { t.prepaid <= t.deposit && 1 <= t.kMax }

  datatype Outcome = Streaming | Finished | EvaluatorHalt | Exhausted | Raised

  datatype State = State(
    sequence: nat,
    tokens: nat,
    paid: int,
    since: nat,
    k: int,
    accumulated: Text,
    sent: seq<CommitMessage>,
    outcome: Outcome)

  /** What one turn of the streaming loop sees. `at` is the wall clock at signing,
      `posted` whether the commit POST returned, `silent` the halt detector's verdict. */
  datatype Event =
    | Token(text: Text, silent: bool, at: int, posted: bool)
    | Done(at: int, posted: bool)
    | Eof
    | Broken

  function Initial(t: Terms): State {
    State(0, 0, t.prepaid, 0, 1, [], [], Streaming)
  }

  function Absorb(t: Terms, s: State, text: Text): State {
    s.(tokens := s.tokens + 1, since := s.since + 1,
       paid := Min(t.deposit, s.paid + t.price), accumulated := s.accumulated + text)
  }

  /** Sign and post. A field too large for the byte form raises before the post; a post
      that fails may still have reached the producer. */
  function SendCommit(t: Terms, s: State, at: int, posted: bool, force: bool): State {
    if !force && s.since == 0 then s
    else
      var c := CommitMessage(t.channel, s.sequence + 1, s.paid, s.tokens, at);
      var s1 := s.(sequence := s.sequence + 1);
      if !InRange(c) then s1.(outcome := Raised)
      else if !posted then s1.(sent := s.sent + [c], outcome := Raised)
      else s1.(sent := s.sent + [c], since := 0)
  }

  function Ended(s: State, outcome: Outcome): State {
    if s.outcome == Raised then s else s.(outcome := outcome)
  }

  function Step(t: Terms, s: State, e: Event): State {
    if s.outcome != Streaming then s
    else match e
      case Eof => s.(outcome := Exhausted)
      case Broken => s.(outcome := Raised)
      case Done(at, posted) => Ended(SendCommit(t, s, at, posted, true), Finished)
      case Token(text, silent, at, posted) =>
        var s1 := Absorb(t, s, text);
        if t.evaluator.Some? && t.evaluator.value(s1.accumulated) then
          Ended(SendCommit(t, s1, at, posted, true), EvaluatorHalt)
        else if silent then s1.(outcome := Raised)
        else if s1.since >= s1.k then
          var s2 := SendCommit(t, s1, at, posted, false);
          if s2.outcome == Raised then s2
          else s2.(k := NextK(s2.k, t.kMax, s2.since * t.price, t.unpaidCap))
        else s1
  }

  function Run(t: Terms, s: State, events: seq<Event>): State {
    if events == [] then s else Step(t, Run(t, s, events[..|events| - 1]), events[|events| - 1])
  }

  // -------------------------------------------------------------- the class

  datatype TokenChunk = TokenChunk(text: Text, cumulativePaid: int, tokensReceived: nat)

  class ConsumerSession {
    const terms: Terms
    const batcher: AdaptiveBatcher

    var sequence: nat
    var tokensReceived: nat
    var cumulativePaid: int
    var accumulated: Text
    var tokensSinceLastCommit: nat
    var posted: seq<CommitMessage>     // what went to the commit endpoint
    var outcome: Outcome

    ghost predicate Valid()
      reads this, batcher
    {
      batcher.Valid() && batcher.kMax == terms.kMax
    }

    function View(): State
      reads this, batcher
    {
      State(sequence, tokensReceived, cumulativePaid, tokensSinceLastCommit, batcher.k,
            accumulated, posted, outcome)
    }

    constructor (terms: Terms)
      requires terms.kMax >= 1
      ensures Valid() && fresh(batcher) && this.terms == terms && View() == Initial(terms)
    {
      this.terms := terms;
      this.batcher := new AdaptiveBatcher(terms.kMax, 1);
      sequence, tokensReceived, tokensSinceLastCommit := 0, 0, 0;
      cumulativePaid := terms.prepaid;
      accumulated, posted, outcome := [], [], Streaming;
    }

    method AbsorbToken(text: Text)
      requires Valid()
      modifies this
      ensures Valid() && View() == Absorb(terms, old(View()), text)
    {
      tokensReceived := tokensReceived + 1;
      tokensSinceLastCommit := tokensSinceLastCommit + 1;
      cumulativePaid := Min(terms.deposit, cumulativePaid + terms.price);
      accumulated := accumulated + text;
    }

    function UnpaidValue(): int
      reads this
    {
      tokensSinceLastCommit * terms.price
    }

    method Commit(at: int, arrives: bool, force: bool)
      requires Valid()
      modifies this
      ensures Valid() && View() == SendCommit(terms, old(View()), at, arrives, force)
    {
      if !force && tokensSinceLastCommit == 0 { return; }
      sequence := sequence + 1;
      var commitment := CommitMessage(terms.channel, sequence, cumulativePaid, tokensReceived, at);
      var encoded := EncodeCommitmentBytes(commitment);
      if encoded == None {
        outcome := Raised;
        return;
      }
      posted := posted + [commitment];
      if !arrives {
        outcome := Raised;
        return;
      }
      tokensSinceLastCommit := 0;
    }

    /** One turn of the streaming loop. */
    method Turn(e: Event) returns (chunk: Option<TokenChunk>)
      requires Valid() && outcome == Streaming
      modifies this, batcher
      ensures Valid() && View() == Step(terms, old(View()), e)
      ensures chunk == if e.Token? then Some(TokenChunk(e.text, cumulativePaid, tokensReceived)) else None
      ensures tokensReceived == old(tokensReceived) + (if e.Token? then 1 else 0)
      ensures !e.Token? ==> outcome != Streaming
    {
      chunk := None;
      match e {
        case Eof => outcome := Exhausted;
        case Broken => outcome := Raised;
        case Done(at, arrives) =>
          Commit(at, arrives, true);
          if outcome != Raised { outcome := Finished; }
        case Token(text, silent, at, arrives) =>
          AbsorbToken(text);
          chunk := Some(TokenChunk(text, cumulativePaid, tokensReceived));
          if terms.evaluator.Some? && terms.evaluator.value(accumulated) {
            Commit(at, arrives, true);
            if outcome != Raised { outcome := EvaluatorHalt; }
          } else if silent {
            outcome := Raised;
          } else if batcher.ShouldCommit(tokensSinceLastCommit) {
            Commit(at, arrives, false);
            if outcome != Raised {
              batcher.Update(UnpaidValue(), terms.unpaidCap);
            }
          }
      }
    }

    /** The streaming loop over the parsed events of the response: chunk `i` carries
        token `i` and the meter right after it. */
    method Stream(events: seq<Event>) returns (chunks: seq<TokenChunk>)
      requires Valid() && outcome == Streaming
      modifies this, batcher
      ensures Valid() && View() == Run(terms, old(View()), events)
      ensures |chunks| == tokensReceived - old(tokensReceived) <= |events|
      ensures forall i :: 0 <= i < |chunks| ==>
                ChunkAt(terms, old(View()), events, i, chunks[i])
                && chunks[i].tokensReceived == old(tokensReceived) + i + 1
    {
      hide Step;
      ghost var start := View();
      chunks := [];
      var n := 0;
      while n < |events| && outcome == Streaming
        invariant 0 <= n <= |events| && Valid()
        invariant View() == Run(terms, start, events[..n])
        invariant |chunks| == tokensReceived - start.tokens <= n
        invariant outcome == Streaming ==> |chunks| == n
        invariant forall i :: 0 <= i < |chunks| ==>
                    ChunkAt(terms, start, events, i, chunks[i]) && chunks[i].tokensReceived == start.tokens + i + 1
        decreases |events| - n
      {
        assert events[..n + 1][..n] == events[..n];
        var chunk := Turn(events[n]);
        n := n + 1;
        if chunk.Some? {
          chunks := chunks + [chunk.value];
          assert ChunkAt(terms, start, events, n - 1, chunk.value);
        }
      }
      if n < |events| {
        EndedStays(terms, start, events, n);
      }
      assert events[..|events|] == events;
    }
  }

  ghost predicate ChunkAt(t: Terms, start: State, events: seq<Event>, i: nat, chunk: TokenChunk) {
    && i < |events| && events[i].Token?
    && chunk == TokenChunk(events[i].text, Run(t, start, events[..i + 1]).paid,
                           Run(t, start, events[..i + 1]).tokens)
  }

  // Nothing happens after the loop has returned or raised.
  lemma {:induction false} EndedStays(t: Terms, s: State, events: seq<Event>, n: nat)
    requires n <= |events| && Run(t, s, events[..n]).outcome != Streaming
    ensures Run(t, s, events) == Run(t, s, events[..n])
    decreases |events| - n
  {
    if n == |events| {
      assert events[..n] == events;
    } else {
      assert events[..n + 1][..n] == events[..n];
      EndedStays(t, s, events, n + 1);
    }
  }
}
