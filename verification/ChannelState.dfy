/** The `Channel` account: its fields, its 191-byte layout, the SDK's decoder and the
    raw-byte offsets the settler filters on. */
module ChannelState {
  import opened Types

  datatype ChannelStatus = Active | Settling | Closed

  datatype Channel = Channel(
    bump: u8,
    vaultBump: u8,
    nonce: u64,
    consumer: Pubkey,
    producer: Pubkey,
    sessionKey: Pubkey,
    depositMicro: u64,
    inputPriceMicro: u64,
    outputPriceMicro: u64,
    prepaidInputMicro: u64,
    trailingBufferMicro: u64,
    lastSequence: u64,
    lastCumulativePaid: u64,
    expiresAt: i64,
    settledAt: i64,
    disputeSecs: u32,
    status: ChannelStatus)

  // ---------------------------------------------------------------- layout

  // SHA-256("account:Channel")[..8]; any fixed eight bytes will do here.
  type Discriminator = d: Bytes | |d| == 8 witness seq(8, _ => 0)

  const SIZE := 8 + 1 + 1 + 8 + 32 + 32 + 32 + 8 + 8 + 8 + 8 + 8 + 8 + 8 + 8 + 8 + 4 + 1
  const PRODUCER_OFFSET := 8 + 1 + 1 + 8 + 32
  const STATUS_OFFSET := 8 + 1 + 1 + 8 + 32 + 32 + 32 + 8 + 8 + 8 + 8 + 8 + 8 + 8 + 8 + 8 + 4

  function Le8(n: u64): (bs: Bytes)
    ensures |bs| == 8
  {
    Pow256Widths();
    LittleEndian(n, 8)
  }

  // Two's complement.
  function Le8Signed(n: i64): (bs: Bytes)
    ensures |bs| == 8
  {
    Le8(if n < 0 then n + 0x1_0000_0000_0000_0000 else n)
  }

  function Le4(n: u32): (bs: Bytes)
    ensures |bs| == 4
  {
    Pow256Widths();
    LittleEndian(n, 4)
  }

  function FromLe8(bs: Bytes): u64
    requires |bs| == 8
  {
    Pow256Widths();
    FromLittleEndian(bs)
  }

  function FromLe8Signed(bs: Bytes): i64
    requires |bs| == 8
  {
    var n := FromLe8(bs);
    if n > I64_MAX then n - 0x1_0000_0000_0000_0000 else n
  }

  function FromLe4(bs: Bytes): u32
    requires |bs| == 4
  {
    Pow256Widths();
    FromLittleEndian(bs)
  }

  function StatusTag(s: ChannelStatus): byte {
    match s case Active => 0 case Settling => 1 case Closed => 2
  }

  function StatusOf(tag: byte): Option<ChannelStatus> {
    match tag case 0 => Some(Active) case 1 => Some(Settling) case 2 => Some(Closed) case _ => None
  }

  /** The account's fields in declaration order, after the discriminator. */
  function Fields(d: Discriminator, c: Channel): (fs: seq<Bytes>)
    ensures |fs| == 18
  {
    [ d, [c.bump as byte], [c.vaultBump as byte], Le8(c.nonce), c.consumer, c.producer, c.sessionKey,
      Le8(c.depositMicro), Le8(c.inputPriceMicro), Le8(c.outputPriceMicro), Le8(c.prepaidInputMicro),
      Le8(c.trailingBufferMicro), Le8(c.lastSequence), Le8(c.lastCumulativePaid),
      Le8Signed(c.expiresAt), Le8Signed(c.settledAt), Le4(c.disputeSecs), [StatusTag(c.status)] ]
  }

  function Concat(fs: seq<Bytes>): Bytes {
    if fs == [] then [] else fs[0] + Concat(fs[1..])
  }

  /** Borsh serialization of the account. */
  function Serialize(d: Discriminator, c: Channel): Bytes { Concat(Fields(d, c)) }

  // ---------------------------------------------------------------- decoder

  function DecodeChannel(d: Discriminator, data: Bytes): Option<Channel> {
    if |data| < SIZE || data[..8] != d then None
    else match StatusOf(data[190])
      case None => None
      case Some(status) => Some(Channel(
        data[8] as u8, data[9] as u8, FromLe8(data[10..18]),
        data[18..50], data[50..82], data[82..114],
        FromLe8(data[114..122]), FromLe8(data[122..130]), FromLe8(data[130..138]),
        FromLe8(data[138..146]), FromLe8(data[146..154]), FromLe8(data[154..162]),
        FromLe8(data[162..170]), FromLe8Signed(data[170..178]), FromLe8Signed(data[178..186]),
        FromLe4(data[186..190]), status))
  }

  /** The decoder as written: one running offset. */
  method DecodeChannelFrom(d: Discriminator, data: Bytes) returns (r: Option<Channel>)
    ensures r == DecodeChannel(d, data)
  {
    hide FromLe8, FromLe8Signed, FromLe4, StatusOf;
    if |data| < SIZE {
      return None;
    }
    if data[..8] != d {
      return None;
    }
    var o := 8;
    var bump := data[o] as u8; o := o + 1;
    var vaultBump := data[o] as u8; o := o + 1;
    var nonce := FromLe8(data[o..o + 8]); o := o + 8;
    var consumer := data[o..o + 32]; o := o + 32;
    var producer := data[o..o + 32]; o := o + 32;
    var sessionKey := data[o..o + 32]; o := o + 32;
    var deposit := FromLe8(data[o..o + 8]); o := o + 8;
    var inputPrice := FromLe8(data[o..o + 8]); o := o + 8;
    var outputPrice := FromLe8(data[o..o + 8]); o := o + 8;
    var prepaid := FromLe8(data[o..o + 8]); o := o + 8;
    var trailing := FromLe8(data[o..o + 8]); o := o + 8;
    var lastSequence := FromLe8(data[o..o + 8]); o := o + 8;
    var lastPaid := FromLe8(data[o..o + 8]); o := o + 8;
    var expiresAt := FromLe8Signed(data[o..o + 8]); o := o + 8;
    var settledAt := FromLe8Signed(data[o..o + 8]); o := o + 8;
    var disputeSecs := FromLe4(data[o..o + 4]); o := o + 4;
    var status := StatusOf(data[o]);
    if status == None {
      return None;
    }
    r := Some(Channel(bump, vaultBump, nonce, consumer, producer, sessionKey, deposit, inputPrice,
                      outputPrice, prepaid, trailing, lastSequence, lastPaid, expiresAt, settledAt,
                      disputeSecs, status.value));
  }

  // ------------------------------------------------------------- round trip

  function Offset(fs: seq<Bytes>, i: nat): nat
    requires i <= |fs|
  {
    if i == 0 then 0 else Offset(fs, i - 1) + |fs[i - 1]|
  }

  lemma {:induction false} OffsetTail(fs: seq<Bytes>, i: nat)
    requires 0 < i <= |fs|
    ensures Offset(fs, i) == |fs[0]| + Offset(fs[1..], i - 1)
  {
    if i > 1 { OffsetTail(fs, i - 1); }
  }

  /** Field `i` of a concatenation sits at its offset. */
  lemma {:induction false} FieldAt(fs: seq<Bytes>, i: nat)
    requires i < |fs|
    ensures Offset(fs, i) + |fs[i]| <= |Concat(fs)|
    ensures Concat(fs)[Offset(fs, i)..Offset(fs, i) + |fs[i]|] == fs[i]
    decreases i
  {
    if i > 0 {
      FieldAt(fs[1..], i - 1);
      OffsetTail(fs, i);
    }
  }

  lemma {:induction false} ConcatLength(fs: seq<Bytes>)
    ensures |Concat(fs)| == Offset(fs, |fs|)
  {
    if fs != [] {
      ConcatLength(fs[1..]);
      OffsetTail(fs, |fs|);
    }
  }

  const OFFSETS: seq<nat> :=
    [0, 8, 9, 10, 18, 50, 82, 114, 122, 130, 138, 146, 154, 162, 170, 178, 186, 190, 191]

  lemma {:induction false} FieldOffsets(d: Discriminator, c: Channel, i: nat)
    requires i <= 18
    ensures Offset(Fields(d, c), i) == OFFSETS[i]
  {
    if i > 0 { FieldOffsets(d, c, i - 1); }
  }

  lemma SerializedField(d: Discriminator, c: Channel, i: nat)
    requires i < 18
    ensures |Serialize(d, c)| == SIZE
    ensures Serialize(d, c)[OFFSETS[i]..OFFSETS[i + 1]] == Fields(d, c)[i]
  {
    FieldOffsets(d, c, i);
    FieldOffsets(d, c, i + 1);
    FieldOffsets(d, c, 18);
    FieldAt(Fields(d, c), i);
    ConcatLength(Fields(d, c));
  }

  lemma Le8RoundTrip(n: u64)
    ensures FromLe8(Le8(n)) == n
  {
    Pow256Widths();
    LittleEndianRoundTrip(n, 8);
  }

  lemma Le8SignedRoundTrip(n: i64)
    ensures FromLe8Signed(Le8Signed(n)) == n
  {
    Le8RoundTrip(if n < 0 then n + 0x1_0000_0000_0000_0000 else n);
  }

  lemma Le8Unique(bs: Bytes)
    requires |bs| == 8
    ensures Le8(FromLe8(bs)) == bs && Le8Signed(FromLe8Signed(bs)) == bs
  {
    LittleEndianUnique(bs);
  }

  ghost predicate Holds(data: Bytes, i: nat, field: Bytes) {
    i < 18 && |data| >= SIZE && data[OFFSETS[i]..OFFSETS[i + 1]] == field
  }

  /** Every field of the record at its own place in the account. */
  lemma Layout(d: Discriminator, c: Channel)
    ensures var data := Serialize(d, c);
            && |data| == 191 && data[0..8] == d && data[8] == c.bump as byte && data[9] == c.vaultBump as byte
            && data[10..18] == Le8(c.nonce)
            && data[18..50] == c.consumer && data[50..82] == c.producer && data[82..114] == c.sessionKey
            && data[114..122] == Le8(c.depositMicro)
            && data[122..130] == Le8(c.inputPriceMicro) && data[130..138] == Le8(c.outputPriceMicro)
            && data[138..146] == Le8(c.prepaidInputMicro) && data[146..154] == Le8(c.trailingBufferMicro)
            && data[154..162] == Le8(c.lastSequence) && data[162..170] == Le8(c.lastCumulativePaid)
            && data[170..178] == Le8Signed(c.expiresAt) && data[178..186] == Le8Signed(c.settledAt)
            && data[186..190] == Le4(c.disputeSecs)
            && data[190] == (match c.status case Active => 0 case Settling => 1 case Closed => 2)
  {
    var data, fs := Serialize(d, c), Fields(d, c);
    forall i: nat | i < 18 ensures Holds(data, i, fs[i]) { SerializedField(d, c, i); }
    SerializedField(d, c, 0);
    hide Serialize, Le8, Le8Signed, Le4;
    assert Holds(data, 0, fs[0]) && Holds(data, 1, fs[1]) && Holds(data, 2, fs[2]);
    assert Holds(data, 3, fs[3]) && Holds(data, 4, fs[4]) && Holds(data, 5, fs[5]);
    assert Holds(data, 6, fs[6]) && Holds(data, 7, fs[7]) && Holds(data, 8, fs[8]);
    assert Holds(data, 9, fs[9]) && Holds(data, 10, fs[10]) && Holds(data, 11, fs[11]);
    assert Holds(data, 12, fs[12]) && Holds(data, 13, fs[13]) && Holds(data, 14, fs[14]);
    assert Holds(data, 15, fs[15]) && Holds(data, 16, fs[16]) && Holds(data, 17, fs[17]);
    assert data[8] == data[8..9][0] && data[9] == data[9..10][0] && data[190] == data[190..191][0];
  }

  /** What decodes: enough bytes, the account's discriminator, a status that exists. */
  lemma DecodesIff(d: Discriminator, data: Bytes)
    ensures DecodeChannel(d, data).Some? <==> |data| >= 191 && data[..8] == d && data[190] <= 2
  {
  }

  /** Its numbers: little-endian, eight or four bytes, two's complement where signed. */
  lemma NumberBytes(n: u64, i: i64, m: u32, k: nat)
    requires k < 8
    ensures Le8(n)[k] as nat == n / Pow256(k) % 256
    ensures Le8Signed(i) == Le8(i % 0x1_0000_0000_0000_0000)
    ensures k < 4 ==> Le4(m)[k] as nat == m / Pow256(k) % 256
  {
    Pow256Widths();
    LittleEndianByte(n, 8, k);
    if k < 4 { LittleEndianByte(m, 4, k); }
  }

  /** Decoding a serialized account, signed timestamps included, gives it back. */
  lemma DecodeSerialized(d: Discriminator, c: Channel)
    ensures |Serialize(d, c)| == SIZE == 191
    ensures DecodeChannel(d, Serialize(d, c)) == Some(c)
  {
    var data, fs := Serialize(d, c), Fields(d, c);
    forall i: nat | i < 18 ensures Holds(data, i, fs[i]) { SerializedField(d, c, i); }
    SerializedField(d, c, 0);
    assert Holds(data, 0, fs[0]) && Holds(data, 1, fs[1]) && Holds(data, 2, fs[2]);
    assert Holds(data, 3, fs[3]) && Holds(data, 4, fs[4]) && Holds(data, 5, fs[5]);
    assert Holds(data, 6, fs[6]) && Holds(data, 7, fs[7]) && Holds(data, 8, fs[8]);
    assert Holds(data, 9, fs[9]) && Holds(data, 10, fs[10]) && Holds(data, 11, fs[11]);
    assert Holds(data, 12, fs[12]) && Holds(data, 13, fs[13]) && Holds(data, 14, fs[14]);
    assert Holds(data, 15, fs[15]) && Holds(data, 16, fs[16]) && Holds(data, 17, fs[17]);
    assert data[8] == data[8..9][0] && data[9] == data[9..10][0] && data[190] == data[190..191][0];
    Le8RoundTrip(c.nonce);
    Le8RoundTrip(c.depositMicro);
    Le8RoundTrip(c.inputPriceMicro);
    Le8RoundTrip(c.outputPriceMicro);
    Le8RoundTrip(c.prepaidInputMicro);
    Le8RoundTrip(c.trailingBufferMicro);
    Le8RoundTrip(c.lastSequence);
    Le8RoundTrip(c.lastCumulativePaid);
    Le8SignedRoundTrip(c.expiresAt);
    Le8SignedRoundTrip(c.settledAt);
    Pow256Widths();
    LittleEndianRoundTrip(c.disputeSecs, 4);
  }

  ghost predicate SliceAt(fs: seq<Bytes>, data: Bytes, i: nat) {
    i < |fs| && Offset(fs, i + 1) <= |data| && fs[i] == data[Offset(fs, i)..Offset(fs, i + 1)]
  }

  lemma {:induction false} ConcatSlices(fs: seq<Bytes>, data: Bytes, n: nat)
    requires n <= |fs| && Offset(fs, n) <= |data|
    requires forall i: nat :: i < n ==> SliceAt(fs, data, i)
    ensures Concat(fs[..n]) == data[..Offset(fs, n)]
  {
    if n > 0 {
      assert SliceAt(fs, data, n - 1);
      ConcatSlices(fs, data, n - 1);
      ConcatAppend(fs[..n - 1], fs[n - 1]);
      assert fs[..n] == fs[..n - 1] + [fs[n - 1]];
    }
  }

  lemma {:induction false} ConcatAppend(fs: seq<Bytes>, last: Bytes)
    ensures Concat(fs + [last]) == Concat(fs) + last
  {
    if fs != [] {
      ConcatAppend(fs[1..], last);
      assert (fs + [last])[1..] == fs[1..] + [last];
    }
  }

  lemma DecodedFields(d: Discriminator, data: Bytes, i: nat)
    requires DecodeChannel(d, data).Some? && i < 18
    ensures Holds(data, i, Fields(d, DecodeChannel(d, data).value)[i])
  {
    var o := OFFSETS[i];
    if i == 3 || 7 <= i <= 15 {
      Le8Unique(data[o..o + 8]);
    } else if i == 16 {
      LittleEndianUnique(data[o..o + 4]);
    }
  }

  /** The decoder accepts nothing but serialized accounts (and ignores what follows
      them): whatever it returns serializes back to the bytes it read. */
  lemma SerializeDecoded(d: Discriminator, data: Bytes)
    requires DecodeChannel(d, data).Some?
    ensures Serialize(d, DecodeChannel(d, data).value) == data[..SIZE]
  {
    var c := DecodeChannel(d, data).value;
    var fs := Fields(d, c);
    forall i: nat | i < 18 ensures SliceAt(fs, data, i) {
      FieldOffsets(d, c, i);
      FieldOffsets(d, c, i + 1);
      DecodedFields(d, data, i);
    }
    FieldOffsets(d, c, 18);
    ConcatSlices(fs, data, 18);
    assert fs[..18] == fs;
  }
}
