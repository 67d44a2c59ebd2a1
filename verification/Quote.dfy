/** The prompt quote: the reference tokenizer, the prompt text both sides count, and the
    consumer's audit of what the producer asks to be prepaid. */
module Quote {
  import opened Types

  // Python strings are sequences of code points.
  type CodePoint = c: nat | c < 0x11_0000

  type Prose = seq<CodePoint>

  /** `\w` and `\s` of the tokenizer's pattern; a line feed is a space, not a word. */
  datatype Classes = Classes(word: CodePoint -> bool, space: CodePoint -> bool)

  const LF: CodePoint := 10

  predicate ClassesOk(c: Classes) { c.space(LF) && !c.word(LF) }

  /** Matches of `\w+|[^\w\s]`, left to right; `inWord` when the previous one belonged
      to the run being matched. */
  function CountFrom(c: Classes, text: Prose, inWord: bool): nat {
    if text == [] then 0
    else if c.word(text[0]) then (if inWord then 0 else 1) + CountFrom(c, text[1..], true)
    else (if c.space(text[0]) then 0 else 1) + CountFrom(c, text[1..], false)
  }

  function TapV1(c: Classes, text: Prose): nat { CountFrom(c, text, false) }

  /** A match of the pattern starts at `i`: at the first of a run of word characters, or at
      any character that is neither word nor space. */
  predicate StartsAt(c: Classes, text: Prose, i: nat) {
    && i < |text|
    && if c.word(text[i]) then i == 0 || !c.word(text[i - 1]) else !c.space(text[i])
  }

  lemma CountOfNothing(c: Classes)
    ensures TapV1(c, []) == 0 == |MatchStarts(c, [])|
  {
    assert MatchStarts(c, []) == {};
  }

  lemma {:induction false} CountLast(c: Classes, a: Prose, x: CodePoint, inWord: bool)
    ensures var joined := if a == [] then inWord else c.word(a[|a| - 1]);
            CountFrom(c, a + [x], inWord) == CountFrom(c, a, inWord)
              + (if c.word(x) then (if joined then 0 else 1) else if c.space(x) then 0 else 1)
  {
    if a == [] {
      assert [x][1..] == [];
    } else {
      assert (a + [x])[1..] == a[1..] + [x];
      CountLast(c, a[1..], x, c.word(a[0]));
    }
  }

  function MatchStarts(c: Classes, text: Prose): set<nat> {
    set i: nat | i < |text| && StartsAt(c, text, i)
  }

  lemma MatchStartsLast(c: Classes, init: Prose, x: CodePoint)
    ensures |MatchStarts(c, init + [x])|
         == |MatchStarts(c, init)| + (if StartsAt(c, init + [x], |init|) then 1 else 0)
  {
    var n, text := |init|, init + [x];
    forall i: nat | i < n ensures StartsAt(c, text, i) <==> StartsAt(c, init, i) {
      assert text[i] == init[i] && (i > 0 ==> text[i - 1] == init[i - 1]);
    }
    hide StartsAt;
    assert MatchStarts(c, text) == MatchStarts(c, init) + (if StartsAt(c, text, n) then {n} else {});
  }

  /** What `tap.tok.v1` counts: the places where a match starts. */
  lemma {:induction false} CountIsNumberOfMatches(c: Classes, text: Prose)
    ensures TapV1(c, text) == |MatchStarts(c, text)|
  {
    hide CountFrom, MatchStarts;
    if text == [] {
      CountOfNothing(c);
    } else {
      var n := |text| - 1;
      assert text[..n] + [text[n]] == text;
      CountIsNumberOfMatches(c, text[..n]);
      CountLast(c, text[..n], text[n], false);
      MatchStartsLast(c, text[..n], text[n]);
    }
  }

  // -------------------------------------------------------------- the prompt

  datatype Message = Message(content: Option<Prose>)   // None: absent or not a string

  datatype Body =
    | Chat(messages: seq<Message>)
    | Prompt(text: Prose)
    | Other(json: Prose)             // serialized, keys sorted

  function Contents(ms: seq<Message>): seq<Prose> {
    if ms == [] then []
    else (if ms[0].content.Some? then [ms[0].content.value] else []) + Contents(ms[1..])
  }

  function JoinLines(parts: seq<Prose>): Prose {
    if parts == [] then [] else if |parts| == 1 then parts[0] else parts[0] + [LF] + JoinLines(parts[1..])
  }

  function ExtractPromptText(body: Body): Prose {
    match body
    case Chat(ms) => JoinLines(Contents(ms))
    case Prompt(text) => text
    case Other(json) => json
  }

  lemma ContentOfOne(m: Message)
    ensures Contents([m]) == (if m.content.Some? then [m.content.value] else [])
  {
    assert [m][1..] == [];
  }

  /** The prompt text is the string contents of the messages, in order ... */
  lemma {:induction false} ContentsInOrder(a: seq<Message>, b: seq<Message>)
    ensures Contents(a + b) == Contents(a) + Contents(b)
  {
    if a == [] {
      assert a + b == b;
    } else {
      assert (a + b)[0] == a[0] && (a + b)[1..] == a[1..] + b;
      ContentsInOrder(a[1..], b);
      var first := if a[0].content.Some? then [a[0].content.value] else [];
      assert first + (Contents(a[1..]) + Contents(b)) == (first + Contents(a[1..])) + Contents(b);
    }
  }

  /** ... with a line feed between two. */
  lemma {:induction false} LinesInOrder(a: seq<Prose>, b: seq<Prose>, x: Prose)
    ensures JoinLines([]) == [] && JoinLines([x]) == x
    ensures a != [] && b != [] ==> JoinLines(a + b) == JoinLines(a) + [LF] + JoinLines(b)
  {
    if |a| == 1 {
      assert (a + b)[1..] == b;
    } else if a != [] && b != [] {
      assert (a + b)[1..] == a[1..] + b;
      LinesInOrder(a[1..], b, x);
    }
  }

  function SumCounts(c: Classes, parts: seq<Prose>): nat {
    if parts == [] then 0 else TapV1(c, parts[0]) + SumCounts(c, parts[1..])
  }

  /** A line feed never joins two tokens into one. */
  lemma {:induction false} CountAcrossLine(c: Classes, a: Prose, b: Prose, inWord: bool)
    requires ClassesOk(c)
    ensures CountFrom(c, a + [LF] + b, inWord) == CountFrom(c, a, inWord) + CountFrom(c, b, false)
  {
    var s := a + [LF] + b;
    if a == [] {
      assert s[1..] == b;
    } else {
      assert s[1..] == a[1..] + [LF] + b;
      CountAcrossLine(c, a[1..], b, c.word(a[0]));
    }
  }

  /** The count of a chat body is the sum over its messages. */
  lemma {:induction false} CountIsSum(c: Classes, parts: seq<Prose>)
    requires ClassesOk(c)
    ensures TapV1(c, JoinLines(parts)) == SumCounts(c, parts)
  {
    if |parts| == 1 {
      assert parts[1..] == [];
    } else if |parts| > 1 {
      CountAcrossLine(c, parts[0], JoinLines(parts[1..]), false);
      CountIsSum(c, parts[1..]);
    }
  }

  // ------------------------------------------------------------------- audit

  datatype Requirements = Requirements(
    network: Prose, inputPrice: int, outputPrice: int, trailingBufferTokens: int,
    pauseTimeoutMs: int, disputeSecs: int,
    tokenizerId: Prose, inputTokenCount: int, prepaidInput: int)

  datatype Policy = Policy(
    maxInputPrice: int, maxOutputPrice: int, maxTrailingBufferTokens: int,
    minPauseTimeoutMs: int, maxDisputeSecs: int, allowedNetworks: set<Prose>, verifyInputTokens: bool)

  datatype X402Error =
    | NetworkNotAllowed | InputPriceTooHigh | OutputPriceTooHigh | TrailingBufferTooLarge
    | PauseTimeoutTooShort | DisputeTooLong | PrepaidMismatch
    | TokenizerUnknown | TokenCountMismatch

  function Audit(p: Policy, r: Requirements): Option<X402Error> {
    if r.network !in p.allowedNetworks then Some(NetworkNotAllowed)
    else if r.inputPrice > p.maxInputPrice then Some(InputPriceTooHigh)
    else if r.outputPrice > p.maxOutputPrice then Some(OutputPriceTooHigh)
    else if r.trailingBufferTokens > p.maxTrailingBufferTokens then Some(TrailingBufferTooLarge)
    else if r.pauseTimeoutMs < p.minPauseTimeoutMs then Some(PauseTimeoutTooShort)
    else if r.disputeSecs > p.maxDisputeSecs then Some(DisputeTooLong)
    else if r.prepaidInput != r.inputTokenCount * r.inputPrice then Some(PrepaidMismatch)
    else None
  }

  /** The audit passes exactly the quotes that meet every limit of the policy and price the
      prompt consistently. */
  lemma AuditPassesIff(p: Policy, r: Requirements)
    ensures Audit(p, r) == None <==>
              && r.network in p.allowedNetworks
              && r.inputPrice <= p.maxInputPrice && r.outputPrice <= p.maxOutputPrice
              && r.trailingBufferTokens <= p.maxTrailingBufferTokens
              && p.minPauseTimeoutMs <= r.pauseTimeoutMs
              && r.disputeSecs <= p.maxDisputeSecs
              && r.prepaidInput == r.inputTokenCount * r.inputPrice
  {
  }

  /** Verification passes exactly when it is off, nothing was quoted, or the local count with
      the declared tokenizer agrees. */
  lemma VerificationPassesIff(p: Policy, registry: Registry, r: Requirements, prompt: Prose)
    ensures VerifyPromptTokens(p, registry, r, prompt) == None <==>
              || !p.verifyInputTokens || r.inputTokenCount == 0
              || (r.tokenizerId in registry && registry[r.tokenizerId](prompt) == r.inputTokenCount)
  {
  }

  type Registry = map<Prose, Prose -> nat>

  function VerifyPromptTokens(p: Policy, registry: Registry, r: Requirements, prompt: Prose): Option<X402Error> {
    if !p.verifyInputTokens then None
    else if r.inputTokenCount == 0 then None
    else if r.tokenizerId !in registry then Some(TokenizerUnknown)
    else if registry[r.tokenizerId](prompt) != r.inputTokenCount then Some(TokenCountMismatch)
    else None
  }

  /** A verifying consumer accepts a chat quote only if it is prepaid nothing, or exactly
      the input price times the tokens of its messages. */
  lemma QuoteIsSound(p: Policy, registry: Registry, c: Classes, r: Requirements, ms: seq<Message>)
    requires ClassesOk(c) && p.verifyInputTokens
    requires r.tokenizerId in registry ==> forall text: Prose :: registry[r.tokenizerId](text) == TapV1(c, text)
    requires Audit(p, r) == None
    requires VerifyPromptTokens(p, registry, r, ExtractPromptText(Chat(ms))) == None
    ensures r.prepaidInput == 0
         || (r.prepaidInput == SumCounts(c, Contents(ms)) * r.inputPrice && r.inputPrice <= p.maxInputPrice)
  {
    CountIsSum(c, Contents(ms));
  }

  /** And a plain prompt's quote only if it is prepaid nothing, or the input price times the
      matches in the prompt. */
  lemma PlainQuoteIsSound(p: Policy, registry: Registry, c: Classes, r: Requirements, prompt: Prose)
    requires p.verifyInputTokens
    requires r.tokenizerId in registry ==> forall text: Prose :: registry[r.tokenizerId](text) == TapV1(c, text)
    requires Audit(p, r) == None
    requires VerifyPromptTokens(p, registry, r, ExtractPromptText(Prompt(prompt))) == None
    ensures r.prepaidInput == 0
         || (r.prepaidInput == |MatchStarts(c, prompt)| * r.inputPrice
             && r.inputPrice <= p.maxInputPrice)
  {
    CountIsNumberOfMatches(c, prompt);
  }

  /** With the reference tokenizer registered, verification passes exactly the counts of the
      text the body stands for: honest quotes pass and no others. */
  lemma VerifiedIffCountAgrees(
      p: Policy, registry: Registry, c: Classes, r: Requirements, ms: seq<Message>, prompt: Prose, json: Prose)
    requires ClassesOk(c) && p.verifyInputTokens && r.tokenizerId in registry
    requires forall text: Prose :: registry[r.tokenizerId](text) == TapV1(c, text)
    ensures VerifyPromptTokens(p, registry, r, ExtractPromptText(Chat(ms))) == None
       <==> r.inputTokenCount == 0 || r.inputTokenCount == SumCounts(c, Contents(ms))
    ensures VerifyPromptTokens(p, registry, r, ExtractPromptText(Prompt(prompt))) == None
       <==> r.inputTokenCount == 0 || r.inputTokenCount == |MatchStarts(c, prompt)|
    ensures VerifyPromptTokens(p, registry, r, ExtractPromptText(Other(json))) == None
       <==> r.inputTokenCount == 0 || r.inputTokenCount == |MatchStarts(c, json)|
  {
    CountIsSum(c, Contents(ms));
    CountIsNumberOfMatches(c, prompt);
    CountIsNumberOfMatches(c, json);
  }
}
