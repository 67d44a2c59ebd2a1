/** JSON as it crosses the token stream: Python's ASCII-only string escape (section 7 of
    RFC 8259) and a reader for flat objects of strings and natural numbers. */
module Json {
  import opened Types

  const QUOTE: Unit := 34        // "
  const BACKSLASH: Unit := 92
  const COMMA: Unit := 44
  const COLON: Unit := 58
  const OPEN_BRACE: Unit := 123
  const CLOSE_BRACE: Unit := 125

  const KEY_TEXT: Text := [116, 101, 120, 116]          // text
  const KEY_ACK: Text := [97, 99, 107]                  // ack
  const KEY_ERROR: Text := [101, 114, 114, 111, 114]    // error

  // ---------------------------------------------------------------- printer

  function HexDigit(n: nat): Unit
    requires n < 16
  {
    if n < 10 then (48 + n) as Unit else (87 + n) as Unit
  }

  function Hex4(u: Unit): Text {
    var n := u as nat;
    [HexDigit(n / 4096), HexDigit(n / 256 % 16), HexDigit(n / 16 % 16), HexDigit(n % 16)]
  }

  /** `json.dumps` with `ensure_ascii`: one UTF-16 code unit at a time. */
  function EscapeUnit(u: Unit): Text {
    if u == QUOTE then [BACKSLASH, QUOTE]
    else if u == BACKSLASH then [BACKSLASH, BACKSLASH]
    else if u == 10 then [BACKSLASH, 110]
    else if u == 13 then [BACKSLASH, 114]
    else if u == 9 then [BACKSLASH, 116]
    else if u == 12 then [BACKSLASH, 102]
    else if u == 8 then [BACKSLASH, 98]
    else if 32 <= u <= 126 then [u]
    else [BACKSLASH, 117] + Hex4(u)
  }

  function Escape(s: Text): Text {
    if s == [] then [] else EscapeUnit(s[0]) + Escape(s[1..])
  }

  function Quoted(s: Text): Text { [QUOTE] + Escape(s) + [QUOTE] }

  function Digits(n: nat): Text {
    if n < 10 then [(48 + n) as Unit] else Digits(n / 10) + [(48 + n % 10) as Unit]
  }

  function AckMember(ack: nat): Text { Quoted(KEY_ACK) + [COLON] + Digits(ack) + [CLOSE_BRACE] }

  /** The producer's token object. */
  function TokenObject(text: Text, ack: nat): Text {
    [OPEN_BRACE] + (Quoted(KEY_TEXT) + [COLON] + Quoted(text) + ([COMMA] + AckMember(ack)))
  }

  /** The producer's last word when the upstream model fails. */
  function ErrorObject(message: Text): Text {
    [OPEN_BRACE] + (Quoted(KEY_ERROR) + [COLON] + Quoted(message) + [CLOSE_BRACE])
  }

  // ----------------------------------------------------------------- reader

  function HexValue(u: Unit): Option<nat> {
    if 48 <= u <= 57 then Some(u as nat - 48)
    else if 97 <= u <= 102 then Some(u as nat - 87)
    else if 65 <= u <= 70 then Some(u as nat - 55)
    else None
  }

  function ReadHex4(s: Text): Option<Unit>
    requires |s| >= 4
  {
    var a, b, c, d := HexValue(s[0]), HexValue(s[1]), HexValue(s[2]), HexValue(s[3]);
    if a == None || b == None || c == None || d == None then None
    else
      var n := 4096 * a.value + 256 * b.value + 16 * c.value + d.value;
      if n < 0x1_0000 then Some(n as Unit) else None
  }

  function SimpleEscape(u: Unit): Option<Unit> {
    if u == QUOTE || u == BACKSLASH || u == 47 then Some(u)
    else if u == 98 then Some(8)
    else if u == 102 then Some(12)
    else if u == 110 then Some(10)
    else if u == 114 then Some(13)
    else if u == 116 then Some(9)
    else None
  }

  /** Reads string contents up to the closing quote; returns them and what follows. */
  function ReadString(s: Text): (r: Option<(Text, Text)>)
    ensures r.Some? ==> |r.value.1| < |s|
  {
    if s == [] then None
    else if s[0] == QUOTE then Some(([], s[1..]))
    else if s[0] == BACKSLASH then
      if |s| < 2 then None
      else if s[1] == 117 then
        if |s| < 6 || ReadHex4(s[2..6]) == None then None
        else Cons(ReadHex4(s[2..6]).value, ReadString(s[6..]))
      else if SimpleEscape(s[1]) == None then None
      else Cons(SimpleEscape(s[1]).value, ReadString(s[2..]))
    else if s[0] < 32 then None
    else Cons(s[0], ReadString(s[1..]))
  }

  function Cons(u: Unit, r: Option<(Text, Text)>): Option<(Text, Text)> {
    match r case None => None case Some((t, rest)) => Some(([u] + t, rest))
  }

  predicate IsDigit(u: Unit) { 48 <= u <= 57 }

  function ReadDigits(acc: nat, s: Text): (r: (nat, Text))
    ensures |r.1| <= |s|
    decreases |s|
  {
    if s != [] && IsDigit(s[0]) then ReadDigits(10 * acc + (s[0] as nat - 48), s[1..]) else (acc, s)
  }

  datatype Value = Str(text: Text) | Num(n: nat)

  function ReadValue(s: Text): (r: Option<(Value, Text)>)
    ensures r.Some? ==> |r.value.1| < |s|
  {
    if s == [] then None
    else if s[0] == QUOTE then
      match ReadString(s[1..]) case None => None case Some((t, rest)) => Some((Str(t), rest))
    else if !IsDigit(s[0]) || (s[0] == 48 && |s| > 1 && IsDigit(s[1])) then None
    else var (n, rest) := ReadDigits(s[0] as nat - 48, s[1..]); Some((Num(n), rest))
  }

  datatype Member = Member(key: Text, value: Value)

  function ReadMember(s: Text): (r: Option<(Member, Text)>)
    ensures r.Some? ==> |r.value.1| < |s|
  {
    if s == [] || s[0] != QUOTE then None
    else match ReadString(s[1..])
      case None => None
      case Some((key, rest)) =>
        if rest == [] || rest[0] != COLON then None
        else match ReadValue(rest[1..])
          case None => None
          case Some((v, rest')) => Some((Member(key, v), rest'))
  }

  /** One or more members up to the brace that ends the text. */
  function ReadMembers(s: Text): Option<seq<Member>>
    decreases |s|
  {
    match ReadMember(s)
    case None => None
    case Some((m, rest)) =>
      if rest == [CLOSE_BRACE] then Some([m])
      else if rest == [] || rest[0] != COMMA then None
      else match ReadMembers(rest[1..])
        case None => None
        case Some(ms) => Some([m] + ms)
  }

  function ReadObject(s: Text): Option<seq<Member>> {
    if s == [OPEN_BRACE, CLOSE_BRACE] then Some([])
    else if s == [] || s[0] != OPEN_BRACE then None
    else ReadMembers(s[1..])
  }

  // Later members win, as in both languages' parsers.
  function Lookup(ms: seq<Member>, key: Text): Option<Value> {
    if ms == [] then None
    else if ms[|ms| - 1].key == key then Some(ms[|ms| - 1].value)
    else Lookup(ms[..|ms| - 1], key)
  }

  // ------------------------------------------------------------- round trip

  lemma HexDigitReads(n: nat)
    requires n < 16
    ensures HexValue(HexDigit(n)) == Some(n)
  {
  }

  lemma HexDigitsOf(n: nat)
    ensures n == 4096 * (n / 4096) + 256 * (n / 256 % 16) + 16 * (n / 16 % 16) + n % 16
    ensures n < 0x1_0000 ==> n / 4096 < 16
  {
    assert n / 256 == n / 16 / 16;
    assert n / 4096 == n / 256 / 16;
  }

  lemma Hex4RoundTrip(u: Unit)
    ensures |Hex4(u)| == 4 && ReadHex4(Hex4(u)) == Some(u)
  {
    hide HexDigit, HexValue;
    var n := u as nat;
    HexDigitsOf(n);
    HexDigitReads(n / 4096);
    HexDigitReads(n / 256 % 16);
    HexDigitReads(n / 16 % 16);
    HexDigitReads(n % 16);
  }

  lemma EscapedUnitReads(u: Unit, rest: Text)
    ensures ReadString(EscapeUnit(u) + rest) == Cons(u, ReadString(rest))
  {
    hide Hex4, ReadHex4;
    var s := EscapeUnit(u) + rest;
    if EscapeUnit(u) == [u] {
      assert s[1..] == rest;
    } else if EscapeUnit(u) == [BACKSLASH, 117] + Hex4(u) {
      HexEscapeReads(u, rest);
    } else {
      assert s[2..] == rest;
    }
  }

  lemma {:induction false} HexEscapeReads(u: Unit, rest: Text)
    ensures ReadString([BACKSLASH, 117] + Hex4(u) + rest) == Cons(u, ReadString(rest))
  {
    hide Hex4, ReadHex4;
    var s := [BACKSLASH, 117] + Hex4(u) + rest;
    Hex4RoundTrip(u);
    assert s[2..6] == Hex4(u) && s[6..] == rest;
  }

  /** Reading an escaped string gives the string back, whatever follows it. */
  lemma {:induction false} QuotedReads(t: Text, rest: Text)
    ensures ReadString(Escape(t) + [QUOTE] + rest) == Some((t, rest))
  {
    if t == [] {
      assert Escape(t) + [QUOTE] + rest == [QUOTE] + rest;
    } else {
      QuotedReads(t[1..], rest);
      EscapedUnitReads(t[0], Escape(t[1..]) + [QUOTE] + rest);
      assert Escape(t) + [QUOTE] + rest == EscapeUnit(t[0]) + (Escape(t[1..]) + [QUOTE] + rest);
      assert [t[0]] + t[1..] == t;
    }
  }

  lemma {:induction false} DigitsRead(n: nat, rest: Text)
    ensures ReadDigits(0, Digits(n) + rest) == ReadDigits(n, rest)
    ensures Digits(n) != [] && IsDigit(Digits(n)[0]) && (Digits(n)[0] == 48 ==> n == 0)
    decreases n
  {
    if n < 10 {
      assert (Digits(n) + rest)[1..] == rest;
    } else {
      var d := [(48 + n % 10) as Unit];
      DigitsRead(n / 10, d + rest);
      assert Digits(n) + rest == Digits(n / 10) + (d + rest);
      assert (d + rest)[1..] == rest;
    }
  }

  lemma NumberReads(n: nat, rest: Text)
    requires rest == [] || !IsDigit(rest[0])
    ensures ReadValue(Digits(n) + rest) == Some((Num(n), rest))
  {
    DigitsRead(n, rest);
    var s := Digits(n) + rest;
    assert n < 10 ==> Digits(n) == [(48 + n) as Unit];
    assert ReadDigits(0, s) == ReadDigits(s[0] as nat - 48, s[1..]);
  }

  lemma MemberReads(key: Text, printed: Text, v: Value, rest: Text)
    requires ReadValue(printed + rest) == Some((v, rest))
    ensures ReadMember(Quoted(key) + [COLON] + printed + rest) == Some((Member(key, v), rest))
  {
    var s := Quoted(key) + [COLON] + printed + rest;
    var tail := [COLON] + (printed + rest);
    QuotedReads(key, tail);
    assert s[1..] == Escape(key) + [QUOTE] + tail;
    assert tail[1..] == printed + rest;
  }

  lemma TextReads(t: Text, rest: Text)
    ensures ReadValue(Quoted(t) + rest) == Some((Str(t), rest))
  {
    QuotedReads(t, rest);
    assert (Quoted(t) + rest)[1..] == Escape(t) + [QUOTE] + rest;
  }

  lemma AckMemberReads(n: nat)
    ensures ReadMembers(AckMember(n)) == Some([Member(KEY_ACK, Num(n))])
  {
    NumberReads(n, [CLOSE_BRACE]);
    MemberReads(KEY_ACK, Digits(n), Num(n), [CLOSE_BRACE]);
  }

  lemma FirstMemberReads(key: Text, t: Text, more: Text)
    ensures ReadMembers(Quoted(key) + [COLON] + Quoted(t) + ([COMMA] + more))
         == match ReadMembers(more) case None => None case Some(ms) => Some([Member(key, Str(t))] + ms)
  {
    var rest := [COMMA] + more;
    TextReads(t, rest);
    MemberReads(key, Quoted(t), Str(t), rest);
    assert rest[0] == COMMA && rest[1..] == more;
  }

  /** The producer's object reads back as exactly its two members. */
  lemma TokenObjectReads(text: Text, ack: nat)
    ensures ReadObject(TokenObject(text, ack))
         == Some([Member(KEY_TEXT, Str(text)), Member(KEY_ACK, Num(ack))])
  {
    var first, second := Member(KEY_TEXT, Str(text)), Member(KEY_ACK, Num(ack));
    var body := Quoted(KEY_TEXT) + [COLON] + Quoted(text) + ([COMMA] + AckMember(ack));
    assert ReadMembers(body) == Some([first] + [second]) by {
      AckMemberReads(ack);
      FirstMemberReads(KEY_TEXT, text, AckMember(ack));
    }
    assert ReadObject([OPEN_BRACE] + body) == ReadMembers(body) by {
      ObjectReads(body);
    }
    assert [first] + [second] == [first, second];
  }

  lemma ErrorObjectReads(message: Text)
    ensures ReadObject(ErrorObject(message)) == Some([Member(KEY_ERROR, Str(message))])
    ensures Printable(ErrorObject(message))
  {
    hide Escape, ReadString, ReadValue;
    TextReads(message, [CLOSE_BRACE]);
    MemberReads(KEY_ERROR, Quoted(message), Str(message), [CLOSE_BRACE]);
    ObjectReads(Quoted(KEY_ERROR) + [COLON] + Quoted(message) + [CLOSE_BRACE]);
    QuotedPrintable(KEY_ERROR);
    QuotedPrintable(message);
  }

  lemma ObjectReads(body: Text)
    requires |body| >= 2
    ensures ReadObject([OPEN_BRACE] + body) == ReadMembers(body)
  {
    assert ([OPEN_BRACE] + body)[1..] == body;
  }

  // ----------------------------------------------------------- plain ASCII

  /** Only printable ASCII: no line break of any kind can appear. */
  predicate Printable(s: Text) { forall i :: 0 <= i < |s| ==> 32 <= s[i] <= 126 }

  lemma {:induction false} EscapePrintable(s: Text)
    ensures Printable(Escape(s))
  {
    if s != [] { EscapePrintable(s[1..]); }
  }

  lemma {:induction false} DigitsPrintable(n: nat)
    ensures Printable(Digits(n))
  {
    if n >= 10 { DigitsPrintable(n / 10); }
  }

  lemma QuotedPrintable(s: Text)
    ensures Printable(Quoted(s))
  {
    EscapePrintable(s);
  }

  lemma TokenObjectPrintable(text: Text, ack: nat)
    ensures Printable(TokenObject(text, ack))
  {
    QuotedPrintable(KEY_TEXT);
    QuotedPrintable(KEY_ACK);
    QuotedPrintable(text);
    DigitsPrintable(ack);
    hide Quoted, Digits;
    assert Printable(AckMember(ack));
  }
}
