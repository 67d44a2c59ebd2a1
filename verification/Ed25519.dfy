/** The Ed25519 verify instruction: the SDK's builder, the on-chain scanner that
    looks for it among sibling instructions, and the runtime check between them. */
module Ed25519 {
  import opened Types

  datatype Instruction = Instruction(programId: Pubkey, data: Bytes)

  // Base58 Ed25519SigVerify111111111111111111111111111
  const ED25519_PROGRAM_ID: Pubkey :=
    [3, 125, 70, 214, 124, 147, 251, 190, 18, 249, 66, 143, 131, 141, 64, 255,
     5, 112, 116, 73, 39, 244, 138, 100, 252, 202, 112, 68, 128, 0, 0, 0]

  const HEADER_LEN := 16
  const PK_OFF := 16
  const SIG_OFF := 48
  const MSG_OFF := 112

  /** Validity of a signature under a key; the cryptography itself stays abstract. */
  type SigCheck = (Pubkey, Bytes, Bytes) -> bool

  function U16(n: nat): (bs: Bytes)
    requires n < 0x1_0000
    ensures |bs| == 2 && bs[0] as nat + 256 * bs[1] as nat == n
  {
    [(n % 256) as byte, (n / 256) as byte]
  }

  // -------------------------------------------------------------- builder

  // The offset table of the single-signature layout, its fields in instruction `ix`.
  function Header(msgLen: nat, ix: nat): (bs: Bytes)
    requires msgLen < 0x1_0000 && ix < 0x1_0000
    ensures |bs| == HEADER_LEN
  {
    [1, 0] + U16(SIG_OFF) + U16(ix) + U16(PK_OFF) + U16(ix) + U16(MSG_OFF) + U16(msgLen) + U16(ix)
  }

  function PointingAt(pk: Pubkey, sig: Signature, msg: Bytes, ix: nat): Instruction
    requires |msg| < 0x1_0000 && ix < 0x1_0000
  {
    Instruction(ED25519_PROGRAM_ID, Header(|msg|, ix) + pk + sig + msg)
  }

  /** What the builder makes: index 0xFFFF, the instruction's own data. */
  function Built(pk: Pubkey, sig: Signature, msg: Bytes): Instruction
    requires |msg| < 0x1_0000
  {
    PointingAt(pk, sig, msg, 0xFFFF)
  }

  /** The builder appends to a byte buffer; wrong lengths and a message over
      65535 bytes raise. */
  method Ed25519VerifyIx(publicKey: Bytes, signature: Bytes, message: Bytes)
    returns (r: Option<Instruction>)
    ensures r.Some? <==> |publicKey| == 32 && |signature| == 64 && |message| < 0x1_0000
    ensures r.Some? ==> r.value == Built(publicKey, signature, message)
  {
    if |publicKey| != 32 || |signature| != 64 || |message| >= 0x1_0000 {
      return None;
    }
    var pkOff := HEADER_LEN;
    var sigOff := pkOff + 32;
    var msgOff := sigOff + 64;
    var data: Bytes := [];
    data := data + [1];
    data := data + [0];
    data := data + U16(sigOff);
    data := data + U16(0xFFFF);
    data := data + U16(pkOff);
    data := data + U16(0xFFFF);
    data := data + U16(msgOff);
    data := data + U16(|message|);
    data := data + U16(0xFFFF);
    assert data == Header(|message|, 0xFFFF);
    data := data + publicKey;
    data := data + signature;
    data := data + message;
    r := Some(Instruction(ED25519_PROGRAM_ID, data));
  }

  // -------------------------------------------------------------- scanner

  function ReadU16(data: Bytes, off: nat): (n: nat)
    requires off + 2 <= |data|
    ensures n < 0x1_0000
  {
    data[off] as nat + 256 * data[off + 1] as nat
  }

  datatype Triple = Triple(pk: Pubkey, sig: Signature, msg: Bytes)

  /** The triple a single-signature instruction's offset table points at. */
  function Located(data: Bytes): Option<Triple> {
    if |data| < 16 || data[0] != 1 then None
    else
      var sigOff, pkOff := ReadU16(data, 2), ReadU16(data, 6);
      var msgOff, msgLen := ReadU16(data, 10), ReadU16(data, 12);
      if pkOff + 32 > |data| || sigOff + 64 > |data| || msgOff + msgLen > |data| then None
      else Some(Triple(data[pkOff..pkOff + 32], data[sigOff..sigOff + 64], data[msgOff..msgOff + msgLen]))
  }

  predicate Carries(ix: Instruction, t: Triple) {
    ix.programId == ED25519_PROGRAM_ID && Located(ix.data) == Some(t)
  }

  predicate HasSibling(tx: seq<Instruction>, t: Triple) {
    exists i :: 0 <= i < |tx| && Carries(tx[i], t)
  }

  /** The scan loop of `settle` and `dispute`. A transaction's instruction count is
      a u16 in the sysvar, so the saturating index never repeats an instruction. */
  method VerifyEd25519Sibling(tx: seq<Instruction>, pk: Pubkey, msg: Bytes, sig: Signature)
    returns (ok: bool)
    requires |tx| <= 0xFFFF
    ensures ok <==> HasSibling(tx, Triple(pk, sig, msg))
  {
    var idx := 0;
    while idx < |tx|
      invariant 0 <= idx <= |tx|
      invariant forall i :: 0 <= i < idx ==> !Carries(tx[i], Triple(pk, sig, msg))
    {
      var ix := tx[idx];
      idx := if idx == 0xFFFF then idx else idx + 1;
      if ix.programId != ED25519_PROGRAM_ID {
        continue;
      }
      var data := ix.data;
      if |data| < 16 || data[0] != 1 {
        continue;
      }
      var sigOff := ReadU16(data, 2);
      var pkOff := ReadU16(data, 6);
      var msgOff := ReadU16(data, 10);
      var msgLen := ReadU16(data, 12);
      if pkOff + 32 > |data| || sigOff + 64 > |data| || msgOff + msgLen > |data| {
        continue;
      }
      if data[pkOff..pkOff + 32] == pk && data[sigOff..sigOff + 64] == sig
         && data[msgOff..msgOff + msgLen] == msg
      {
        assert Carries(tx[idx - 1], Triple(pk, sig, msg));
        return true;
      }
    }
    return false;
  }

  // ----------------------------------------------------------- round trip

  lemma ReadU16Prefix(h: Bytes, more: Bytes, off: nat)
    requires off + 2 <= |h|
    ensures ReadU16(h + more, off) == ReadU16(h, off)
  {
  }

  lemma ReadU16At(before: Bytes, n: nat, after: Bytes)
    requires n < 0x1_0000
    ensures ReadU16(before + U16(n) + after, |before|) == n
  {
    assert (before + U16(n) + after)[|before|] == U16(n)[0];
    assert (before + U16(n) + after)[|before| + 1] == U16(n)[1];
  }

  lemma HeaderReads(msgLen: nat, ix: nat)
    requires msgLen < 0x1_0000 && ix < 0x1_0000
    ensures var h := Header(msgLen, ix);
            && h[0] == 1
            && ReadU16(h, 2) == SIG_OFF && ReadU16(h, 4) == ix
            && ReadU16(h, 6) == PK_OFF && ReadU16(h, 8) == ix
            && ReadU16(h, 10) == MSG_OFF && ReadU16(h, 12) == msgLen && ReadU16(h, 14) == ix
  {
    hide U16, ReadU16;
    var h := Header(msgLen, ix);
    var a, i, b, c, n := U16(SIG_OFF), U16(ix), U16(PK_OFF), U16(MSG_OFF), U16(msgLen);
    var start: Bytes := [1, 0];
    assert ReadU16(h, 2) == SIG_OFF by {
      ReadU16At(start, SIG_OFF, i + b + i + c + n + i);
      assert h == start + a + (i + b + i + c + n + i);
    }
    assert ReadU16(h, 4) == ix by {
      ReadU16At(start + a, ix, b + i + c + n + i);
      assert h == start + a + i + (b + i + c + n + i);
    }
    assert ReadU16(h, 6) == PK_OFF by {
      ReadU16At(start + a + i, PK_OFF, i + c + n + i);
      assert h == start + a + i + b + (i + c + n + i);
    }
    assert ReadU16(h, 8) == ix by {
      ReadU16At(start + a + i + b, ix, c + n + i);
      assert h == start + a + i + b + i + (c + n + i);
    }
    assert ReadU16(h, 10) == MSG_OFF by {
      ReadU16At(start + a + i + b + i, MSG_OFF, n + i);
      assert h == start + a + i + b + i + c + (n + i);
    }
    assert ReadU16(h, 12) == msgLen by {
      ReadU16At(start + a + i + b + i + c, msgLen, i);
    }
    assert ReadU16(h, 14) == ix by {
      ReadU16At(start + a + i + b + i + c + n, ix, []);
      assert h == start + a + i + b + i + c + n + i + [];
    }
  }

  lemma PointingAtReads(pk: Pubkey, sig: Signature, msg: Bytes, ix: nat)
    requires |msg| < 0x1_0000 && ix < 0x1_0000
    ensures var data := PointingAt(pk, sig, msg, ix).data;
            && data[0] == 1 && Located(data) == Some(Triple(pk, sig, msg))
            && ReadU16(data, 2) == SIG_OFF && ReadU16(data, 4) == ix
            && ReadU16(data, 6) == PK_OFF && ReadU16(data, 8) == ix
            && ReadU16(data, 10) == MSG_OFF && ReadU16(data, 12) == |msg| && ReadU16(data, 14) == ix
  {
    HeaderReads(|msg|, ix);
    hide U16, ReadU16;
    var h, data := Header(|msg|, ix), PointingAt(pk, sig, msg, ix).data;
    assert data == h + (pk + sig + msg) && data[0] == h[0];
    forall off: nat | off + 2 <= HEADER_LEN ensures ReadU16(data, off) == ReadU16(h, off) {
      ReadU16Prefix(h, pk + sig + msg, off);
    }
    assert data[PK_OFF..PK_OFF + 32] == pk by { Middle(h, pk, sig + msg); assert data == h + pk + (sig + msg); }
    assert data[SIG_OFF..SIG_OFF + 64] == sig by { Middle(h + pk, sig, msg); }
    assert data[MSG_OFF..MSG_OFF + |msg|] == msg by {
      Middle(h + pk + sig, msg, []);
      assert data == h + pk + sig + msg + [];
    }
  }

  /** A built instruction carries exactly the triple it was built from. */
  lemma BuiltCarriesItsTriple(pk: Pubkey, sig: Signature, msg: Bytes)
    requires |msg| < 0x1_0000
    ensures Located(Built(pk, sig, msg).data) == Some(Triple(pk, sig, msg))
  {
    BuiltLayout(pk, sig, msg);
  }

  // The builder's header is the one that names its own instruction.
  lemma BuiltLayout(pk: Pubkey, sig: Signature, msg: Bytes)
    requires |msg| < 0x1_0000
    ensures var data := Built(pk, sig, msg).data;
            && |data| == MSG_OFF + |msg| && data[0] == 1
            && Located(data) == Some(Triple(pk, sig, msg))
            && ReadU16(data, 2) == SIG_OFF && ReadU16(data, 4) == 0xFFFF
            && ReadU16(data, 6) == PK_OFF && ReadU16(data, 8) == 0xFFFF
            && ReadU16(data, 10) == MSG_OFF && ReadU16(data, 12) == |msg| && ReadU16(data, 14) == 0xFFFF
  {
    PointingAtReads(pk, sig, msg, 0xFFFF);
  }

  ghost predicate IsBuilt(ix: Instruction) {
    exists pk: Pubkey, sig: Signature, msg: Bytes :: |msg| < 0x1_0000 && ix == Built(pk, sig, msg)
  }

  /** Every Ed25519 instruction of the transaction came out of the builder. */
  ghost predicate SdkBuilt(tx: seq<Instruction>) {
    forall i :: 0 <= i < |tx| && tx[i].programId == ED25519_PROGRAM_ID ==> IsBuilt(tx[i])
  }

  /** The scanner finds a triple whenever its built instruction occurs, among any
      siblings; over built siblings it finds nothing else. */
  lemma ScannerFindsBuilt(tx: seq<Instruction>, pk: Pubkey, sig: Signature, msg: Bytes)
    requires |msg| < 0x1_0000
    ensures Built(pk, sig, msg) in tx ==> HasSibling(tx, Triple(pk, sig, msg))
    ensures SdkBuilt(tx) ==> (HasSibling(tx, Triple(pk, sig, msg)) <==> Built(pk, sig, msg) in tx)
  {
    if Built(pk, sig, msg) in tx {
      var i :| 0 <= i < |tx| && tx[i] == Built(pk, sig, msg);
      BuiltCarriesItsTriple(pk, sig, msg);
      assert Carries(tx[i], Triple(pk, sig, msg));
    }
    if SdkBuilt(tx) && HasSibling(tx, Triple(pk, sig, msg)) {
      var i :| 0 <= i < |tx| && Carries(tx[i], Triple(pk, sig, msg));
      var pk', sig', msg' :| |msg'| < 0x1_0000 && tx[i] == Built(pk', sig', msg');
      BuiltCarriesItsTriple(pk', sig', msg');
    }
  }

  // -------------------------------------------------------------- runtime

  /** `len` bytes at `off` of instruction `ix`; index 0xFFFF is the instruction at hand. */
  function FieldIn(tx: seq<Instruction>, here: nat, ix: nat, off: nat, len: nat): (r: Option<Bytes>)
    requires here < |tx|
    ensures r.Some? ==> |r.value| == len
  {
    var k := if ix == 0xFFFF then here else ix;
    if k < |tx| && off + len <= |tx[k].data| then Some(tx[k].data[off..off + len]) else None
  }

  /** The triple the Ed25519 program verifies for signature `k` of an instruction: unlike
      the scanner, it follows the three instruction indices. */
  function Checked(tx: seq<Instruction>, here: nat, k: nat): Option<Triple>
    requires here < |tx|
  {
    var data, r := tx[here].data, 2 + 14 * k;
    if |data| < r + 14 then None
    else
      var sig := FieldIn(tx, here, ReadU16(data, r + 2), ReadU16(data, r), 64);
      var pk := FieldIn(tx, here, ReadU16(data, r + 6), ReadU16(data, r + 4), 32);
      var msg := FieldIn(tx, here, ReadU16(data, r + 12), ReadU16(data, r + 8), ReadU16(data, r + 10));
      if sig == None || pk == None || msg == None then None
      else Some(Triple(pk.value, sig.value, msg.value))
  }

  ghost predicate Verifies(valid: SigCheck, tx: seq<Instruction>, here: nat)
    requires here < |tx|
  {
    var data := tx[here].data;
    && |data| >= 2 && (data[0] == 0 ==> |data| == 2)
    && forall k: nat :: k < data[0] as nat ==>
         Checked(tx, here, k).Some?
         && var t := Checked(tx, here, k).value; valid(t.pk, t.msg, t.sig)
  }

  /** The runtime executes the Ed25519 program before the transaction commits, and fails
      the transaction unless every signature it names verifies. */
  ghost predicate RuntimePasses(valid: SigCheck, tx: seq<Instruction>) {
    forall i :: 0 <= i < |tx| && tx[i].programId == ED25519_PROGRAM_ID ==> Verifies(valid, tx, i)
  }

  // ------------------------------------------- what a found triple proves

  predicate OwnIndex(index: nat, here: nat) { index == 0xFFFF || index == here }

  /** Key, signature and (unless empty) message are all in the instruction's own data. */
  predicate OwnData(data: Bytes, here: nat)
    requires |data| >= 16
  {
    && OwnIndex(ReadU16(data, 4), here)
    && OwnIndex(ReadU16(data, 8), here)
    && (OwnIndex(ReadU16(data, 14), here) || ReadU16(data, 12) == 0)
  }

  /** Every instruction the scanner can read a triple from is of that kind. The program
      does not check this. */
  predicate OwnDataOnly(tx: seq<Instruction>) {
    forall i :: 0 <= i < |tx| && tx[i].programId == ED25519_PROGRAM_ID && Located(tx[i].data).Some?
      ==> OwnData(tx[i].data, i)
  }

  lemma OwnDataIsChecked(tx: seq<Instruction>, here: nat)
    requires here < |tx| && Located(tx[here].data).Some? && OwnData(tx[here].data, here)
    ensures Checked(tx, here, 0).Some? ==> Checked(tx, here, 0) == Located(tx[here].data)
  {
    hide ReadU16;
    var d := tx[here].data;
    if Checked(tx, here, 0).Some? && ReadU16(d, 12) == 0 {
      assert Checked(tx, here, 0).value.msg == [] == Located(d).value.msg;
    }
  }

  /** What the on-chain program learns from the scan: if the instructions it can read are
      self-contained and the runtime let the transaction through, a found triple is a
      valid signature, whoever built the transaction. */
  lemma FoundMeansValid(valid: SigCheck, tx: seq<Instruction>, pk: Pubkey, sig: Signature, msg: Bytes)
    requires OwnDataOnly(tx) && RuntimePasses(valid, tx)
    requires HasSibling(tx, Triple(pk, sig, msg))
    ensures valid(pk, msg, sig)
  {
    var i :| 0 <= i < |tx| && Carries(tx[i], Triple(pk, sig, msg));
    assert Verifies(valid, tx, i) && tx[i].data[0] == 1;
    OwnDataIsChecked(tx, i);
    assert Checked(tx, i, 0).Some?;
  }

  /** Transactions of at most `count` instructions, each of at most `size` bytes, that hold
      `ix` at position `here`. */
  predicate Places(tx: seq<Instruction>, here: nat, ix: Instruction, count: nat, size: nat) {
    here < |tx| <= count && tx[here] == ix && forall i :: 0 <= i < |tx| ==> |tx[i].data| <= size
  }

  // A field some such transaction can supply.
  predicate InReach(here: nat, index: nat, off: nat, len: nat, count: nat, size: nat) {
    OwnIndex(index, here) || (index < count && off + len <= size)
  }

  /** All three fields can be supplied; where one cannot, the runtime refuses them all. */
  predicate Satisfiable(data: Bytes, here: nat, count: nat, size: nat)
    requires |data| >= 16
  {
    && InReach(here, ReadU16(data, 4), ReadU16(data, 2), 64, count, size)
    && InReach(here, ReadU16(data, 8), ReadU16(data, 6), 32, count, size)
    && InReach(here, ReadU16(data, 14), ReadU16(data, 10), ReadU16(data, 12), count, size)
  }

  lemma OutOfReach(tx: seq<Instruction>, here: nat, ix: Instruction, count: nat, size: nat)
    requires Places(tx, here, ix, count, size) && count <= 0xFFFF && Located(ix.data).Some?
    requires !Satisfiable(ix.data, here, count, size)
    ensures Checked(tx, here, 0) == None
  {
    hide ReadU16;
  }

  // Any other instruction a header may point at holds other bytes.
  lemma ForeignFieldDiffers(here: nat, ix: Instruction, count: nat, size: nat, b: byte)
    returns (tx: seq<Instruction>, c: Triple)
    requires here < count <= 0xFFFF && |ix.data| <= size
    requires Located(ix.data).Some? && !OwnData(ix.data, here) && Satisfiable(ix.data, here, count, size)
    requires var t := Located(ix.data).value; b != t.pk[0] && b != t.sig[0] && (t.msg == [] || b != t.msg[0])
    ensures Places(tx, here, ix, count, size)
    ensures Checked(tx, here, 0) == Some(c) && Some(c) != Located(ix.data)
    ensures forall i :: 0 <= i < |tx| && i != here ==> tx[i].programId != ED25519_PROGRAM_ID
  {
    hide ReadU16;
    var other := Instruction(seq(32, _ => 0), seq(size, _ => b));
    assert other.programId[0] != ED25519_PROGRAM_ID[0];
    tx := seq(count, k => if k == here then ix else other);
    var d := ix.data;
    var sig := FieldIn(tx, here, ReadU16(d, 4), ReadU16(d, 2), 64);
    var pk := FieldIn(tx, here, ReadU16(d, 8), ReadU16(d, 6), 32);
    var msg := FieldIn(tx, here, ReadU16(d, 14), ReadU16(d, 10), ReadU16(d, 12));
    assert !OwnIndex(ReadU16(d, 4), here) ==> sig.value[0] == b;
    assert !OwnIndex(ReadU16(d, 8), here) ==> pk.value[0] == b;
    assert !OwnIndex(ReadU16(d, 14), here) && ReadU16(d, 12) > 0 ==> msg.value[0] == b;
    c := Checked(tx, here, 0).value;
  }

  lemma FreshByte(x: byte, y: byte, z: byte) returns (b: byte)
    ensures b != x && b != y && b != z
  {
    b := if x != 0 && y != 0 && z != 0 then 0 else if x != 1 && y != 1 && z != 1 then 1
         else if x != 2 && y != 2 && z != 2 then 2 else 3;
  }

  /** The exact condition, for any limits the platform sets on the number of instructions
      and their size. Take an instruction the scanner reads a triple from, at any position:
      in every transaction within the limits that holds it there and that the runtime lets
      through, that triple is valid, if and only if all three fields point at the
      instruction's own data, or one points where no transaction within the limits has
      anything. */
  lemma FoundIsValidIff(here: nat, ix: Instruction, count: nat, size: nat)
    requires here < count <= 0xFFFF && |ix.data| <= size
    requires ix.programId == ED25519_PROGRAM_ID && Located(ix.data).Some?
    ensures var t := Located(ix.data).value;
            (forall valid: SigCheck, tx: seq<Instruction> ::
               Places(tx, here, ix, count, size) && RuntimePasses(valid, tx) ==> valid(t.pk, t.msg, t.sig))
            <==> OwnData(ix.data, here) || !Satisfiable(ix.data, here, count, size)
  {
    hide ReadU16, Checked, OwnData, Satisfiable;
    var t := Located(ix.data).value;
    if OwnData(ix.data, here) || !Satisfiable(ix.data, here, count, size) {
      forall valid: SigCheck, tx: seq<Instruction> | Places(tx, here, ix, count, size) && RuntimePasses(valid, tx)
        ensures valid(t.pk, t.msg, t.sig)
      {
        assert Verifies(valid, tx, here) && Checked(tx, here, 0).Some?;
        if OwnData(ix.data, here) { OwnDataIsChecked(tx, here); } else { OutOfReach(tx, here, ix, count, size); }
      }
    } else {
      var b := FreshByte(t.pk[0], t.sig[0], if t.msg == [] then 0 else t.msg[0]);
      var tx, c := ForeignFieldDiffers(here, ix, count, size, b);
      var valid: SigCheck := (pk, msg, sig) => pk == c.pk && sig == c.sig && msg == c.msg;
      assert Verifies(valid, tx, here);
      assert Places(tx, here, ix, count, size) && RuntimePasses(valid, tx);
    }
  }

  /** The condition is needed already for three instructions: scanner and runtime read
      different triples from the first, and only the runtime's need be valid. */
  lemma ScannerAndRuntimeDisagree(valid: SigCheck, found: Triple, checked: Triple, rest: Instruction)
    requires |found.msg| == |checked.msg| < 0x1_0000 && rest.programId != ED25519_PROGRAM_ID
    requires valid(checked.pk, checked.msg, checked.sig)
    ensures var tx := [PointingAt(found.pk, found.sig, found.msg, 1),
                       Built(checked.pk, checked.sig, checked.msg), rest];
            HasSibling(tx, found) && RuntimePasses(valid, tx) && !OwnDataOnly(tx)
  {
    var tx := [PointingAt(found.pk, found.sig, found.msg, 1),
               Built(checked.pk, checked.sig, checked.msg), rest];
    hide PointingAt, Built, Located, Checked, OwnData, HasSibling, RuntimePasses, OwnDataOnly;
    ChecksTheOther(tx, 0, found, checked);
    ChecksTheOther(tx, 1, checked, checked);
    PassesUnseen(valid, tx, found, checked);
  }

  lemma PassesUnseen(valid: SigCheck, tx: seq<Instruction>, found: Triple, checked: Triple)
    requires |tx| == 3 && tx[2].programId != ED25519_PROGRAM_ID
    requires forall i :: 0 <= i < 2 ==>
               && tx[i].programId == ED25519_PROGRAM_ID
               && |tx[i].data| >= 16 && tx[i].data[0] == 1 && Checked(tx, i, 0) == Some(checked)
    requires Located(tx[0].data) == Some(found) && !OwnData(tx[0].data, 0)
    requires valid(checked.pk, checked.msg, checked.sig)
    ensures HasSibling(tx, found) && RuntimePasses(valid, tx) && !OwnDataOnly(tx)
  {
    hide ReadU16, Located, Checked, OwnData;
    assert Carries(tx[0], found);
    assert Verifies(valid, tx, 0) && Verifies(valid, tx, 1);
  }

  lemma ChecksTheOther(tx: seq<Instruction>, i: nat, own: Triple, other: Triple)
    requires |tx| >= 2 && i < 2 && |own.msg| == |other.msg| < 0x1_0000
    requires tx[1] == Built(other.pk, other.sig, other.msg) && (i == 1 ==> own == other)
    requires i == 0 ==> tx[0] == PointingAt(own.pk, own.sig, own.msg, 1)
    ensures tx[i].programId == ED25519_PROGRAM_ID && Located(tx[i].data) == Some(own)
    ensures |tx[i].data| >= 16 && tx[i].data[0] == 1 && Checked(tx, i, 0) == Some(other)
    ensures i == 0 ==> !OwnData(tx[0].data, 0)
  {
    if i == 0 { PointingAtReads(own.pk, own.sig, own.msg, 1); }
    BuiltLayout(other.pk, other.sig, other.msg);
    hide ReadU16;
  }

  /** The producer's settle transaction (verify instruction, then `rest`) is found by
      the scan, and gets past the runtime exactly when the signature is valid. */
  lemma SdkTransactionAcceptedIffValid(
      valid: SigCheck, pk: Pubkey, sig: Signature, msg: Bytes, rest: Instruction)
    requires |msg| < 0x1_0000 && rest.programId != ED25519_PROGRAM_ID
    ensures var tx := [Built(pk, sig, msg), rest];
            && OwnDataOnly(tx)
            && HasSibling(tx, Triple(pk, sig, msg))
            && (RuntimePasses(valid, tx) <==> valid(pk, msg, sig))
  {
    var tx := [Built(pk, sig, msg), rest];
    BuiltLayout(pk, sig, msg);
    hide ReadU16;
    assert Carries(tx[0], Triple(pk, sig, msg));
    assert Checked(tx, 0, 0) == Some(Triple(pk, sig, msg));
    assert RuntimePasses(valid, tx) ==> Verifies(valid, tx, 0);
    assert valid(pk, msg, sig) ==> Verifies(valid, tx, 0);
  }
}
