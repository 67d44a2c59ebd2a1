/** Machine-level vocabulary shared by the on-chain program and the SDKs:
    bounded integers, byte strings and little-endian encoding. */
module Types {

  datatype Option<+T> = None | Some(value: T)

  datatype Result<+T, +E> = Ok(value: T) | Err(error: E)

  newtype byte = b: int | 0 <= b < 0x100

  type Bytes = seq<byte>

  type Pubkey = k: Bytes | |k| == 32 witness seq(32, _ => 0)

  type Signature = s: Bytes | |s| == 64 witness seq(64, _ => 0)

  type u8 = x: int | 0 <= x < 0x100
  type u32 = x: int | 0 <= x < 0x1_0000_0000
  type u64 = x: int | 0 <= x < 0x1_0000_0000_0000_0000
  type i64 = x: int | -0x8000_0000_0000_0000 <= x < 0x8000_0000_0000_0000

  const U64_MAX: u64 := 0xFFFF_FFFF_FFFF_FFFF
  const I64_MAX: i64 := 0x7FFF_FFFF_FFFF_FFFF

  // One UTF-16 code unit; token text is a sequence of them.
  newtype Unit = u: int | 0 <= u < 0x1_0000

  type Text = seq<Unit>

  // One guard of a list: what fails first is what is reported.
  function Unless<E>(ok: bool, e: E, rest: Option<E>): Option<E> { if ok then rest else Some(e) }

  function ErrorOf<T, E>(r: Result<T, E>): Option<E> { match r case Ok(_) => None case Err(e) => Some(e) }

  function Min(a: int, b: int): int { if a <= b then a else b }

  function Max(a: int, b: int): int { if a >= b then a else b }

  lemma MulMonotone(a: int, b: int, k: int)
    requires a <= b && 0 <= k
    ensures a * k <= b * k
  {
  }

  // Rust's `i64::saturating_add` for a non-negative increment.
  function SaturatingAdd(a: i64, d: u32): (r: i64)
    ensures r == Min(a + d, I64_MAX)
  {
    if a + d > I64_MAX then I64_MAX else a + d
  }

  // Rust's `u64::saturating_mul`.
  function SaturatingMul(a: u32, b: u64): (r: u64)
    ensures r == Min(a * b, U64_MAX)
  {
    var p: nat := a as nat * b as nat;
    if p > U64_MAX then U64_MAX else p
  }

  // A field of a concatenation sits after what precedes it.
  lemma Middle(a: Bytes, b: Bytes, c: Bytes)
    ensures (a + b + c)[|a|..|a| + |b|] == b
  {
  }

  function Pow256(width: nat): (p: nat)
    ensures p > 0
  {
    if width == 0 then 1 else 256 * Pow256(width - 1)
  }

  lemma Pow256Widths()
    ensures Pow256(1) == 0x100
    ensures Pow256(2) == 0x1_0000
    ensures Pow256(4) == 0x1_0000_0000
    ensures Pow256(8) == 0x1_0000_0000_0000_0000
  {
    assert Pow256(3) == 256 * Pow256(2);
    assert Pow256(5) == 256 * Pow256(4);
    assert Pow256(7) == 256 * Pow256(6);
  }

  function LittleEndian(n: nat, width: nat): (bs: Bytes)
    requires n < Pow256(width)
    ensures |bs| == width
  {
    if width == 0 then [] else [(n % 256) as byte] + LittleEndian(n / 256, width - 1)
  }

  function FromLittleEndian(bs: Bytes): (n: nat)
    ensures n < Pow256(|bs|)
  {
    if bs == [] then 0 else bs[0] as nat + 256 * FromLittleEndian(bs[1..])
  }

  /** Byte `i` of the encoding is the one of weight 256^i. */
  lemma {:induction false} LittleEndianByte(n: nat, width: nat, i: nat)
    requires n < Pow256(width) && i < width
    ensures LittleEndian(n, width)[i] as nat == n / Pow256(i) % 256
  {
    if i > 0 {
      LittleEndianByte(n / 256, width - 1, i - 1);
      DivTwice(n, Pow256(i - 1));
    }
  }

  lemma DivTwice(n: nat, p: nat)
    requires p > 0
    ensures n / 256 / p == n / (256 * p)
  {
    var q := n / (256 * p);
    var r := n % (256 * p);
    assert n == q * (256 * p) + r;
    assert n / 256 == q * p + r / 256 by { assert n == 256 * (q * p) + r; }
    assert r / 256 < p;
    QuotientIs(n / 256, p, q, r / 256);
  }

  lemma QuotientIs(n: nat, p: nat, q: nat, r: nat)
    requires r < p && n == q * p + r
    ensures n / p == q
  {
    var d := n / p;
    assert n == d * p + n % p;
    if d > q { MulMonotone(q + 1, d, p); }
    if d < q { MulMonotone(d + 1, q, p); }
  }

  lemma {:induction false} LittleEndianRoundTrip(n: nat, width: nat)
    requires n < Pow256(width)
    ensures FromLittleEndian(LittleEndian(n, width)) == n
  {
    if width > 0 {
      LittleEndianRoundTrip(n / 256, width - 1);
      assert LittleEndian(n, width)[1..] == LittleEndian(n / 256, width - 1);
    }
  }

  lemma LowAndHigh(low: nat, high: nat)
    requires low < 256
    ensures (low + 256 * high) % 256 == low && (low + 256 * high) / 256 == high
  {
  }

  lemma {:induction false} LittleEndianUnique(bs: Bytes)
    ensures LittleEndian(FromLittleEndian(bs), |bs|) == bs
  {
    if bs != [] {
      LittleEndianUnique(bs[1..]);
      LowAndHigh(bs[0] as nat, FromLittleEndian(bs[1..]));
      assert bs == [bs[0]] + bs[1..];
    }
  }
}
