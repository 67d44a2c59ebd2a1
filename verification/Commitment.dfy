/** The off-chain payment authorization and the 60 bytes the session key signs. */
module Commitment {
  import opened Types

  /** Fields are plain integers, as in Python; only those in range have a byte form. */
  datatype CommitMessage = CommitMessage(
    channel: Pubkey,
    sequence: int,
    cumulativePaid: int,
    tokensReceived: int,
    timestampMs: int)

  datatype SignedCommitment = SignedCommitment(message: CommitMessage, signature: Bytes)

  predicate InRange(m: CommitMessage) {
    && 0 <= m.sequence <= U64_MAX
    && 0 <= m.cumulativePaid <= U64_MAX
    && 0 <= m.tokensReceived < 0x1_0000_0000
    && 0 <= m.timestampMs <= U64_MAX
  }

  /** What the Rust struct can hold. */
  type WireMessage = m: CommitMessage | InRange(m)
    witness CommitMessage(seq(32, _ => 0), 0, 0, 0, 0)

  const MESSAGE_LEN := 60

  function MessageBytes(m: WireMessage): (bs: Bytes)
    ensures |bs| == MESSAGE_LEN
  {
    Pow256Widths();
    m.channel
    + LittleEndian(m.sequence, 8)
    + LittleEndian(m.cumulativePaid, 8)
    + LittleEndian(m.tokensReceived, 4)
    + LittleEndian(m.timestampMs, 8)
  }

  /** Python's encoder: `int.to_bytes` raises on a negative or oversized field. */
  function EncodeCommitmentBytes(m: CommitMessage): (r: Option<Bytes>)
    ensures r.Some? <==> InRange(m)
  {
    if InRange(m) then Some(MessageBytes(m)) else None
  }

  /** Rust's encoder, which grows a vector field by field. */
  method MessageBytesInto(m: WireMessage) returns (buf: Bytes)
    ensures EncodeCommitmentBytes(m) == Some(buf)
  {
    Pow256Widths();
    buf := [];
    buf := buf + m.channel;
    buf := buf + LittleEndian(m.sequence, 8);
    buf := buf + LittleEndian(m.cumulativePaid, 8);
    buf := buf + LittleEndian(m.tokensReceived, 4);
    buf := buf + LittleEndian(m.timestampMs, 8);
    assert buf == MessageBytes(m);
  }

  // Reads the five fixed-width fields back.
  function ReadMessage(bs: Bytes): (m: WireMessage)
    requires |bs| == MESSAGE_LEN
  {
    Pow256Widths();
    CommitMessage(bs[..32],
                  FromLittleEndian(bs[32..40]),
                  FromLittleEndian(bs[40..48]),
                  FromLittleEndian(bs[48..52]),
                  FromLittleEndian(bs[52..60]))
  }

  lemma MessageFields(m: WireMessage)
    ensures MessageBytes(m)[..32] == m.channel
    ensures Pow256(8) == U64_MAX + 1 && Pow256(4) == 0x1_0000_0000
    ensures MessageBytes(m)[32..40] == LittleEndian(m.sequence, 8)
    ensures MessageBytes(m)[40..48] == LittleEndian(m.cumulativePaid, 8)
    ensures MessageBytes(m)[48..52] == LittleEndian(m.tokensReceived, 4)
    ensures MessageBytes(m)[52..60] == LittleEndian(m.timestampMs, 8)
  {
    hide LittleEndian, Pow256;
    Pow256Widths();
    var sequence, paid := LittleEndian(m.sequence, 8), LittleEndian(m.cumulativePaid, 8);
    var tokens, at := LittleEndian(m.tokensReceived, 4), LittleEndian(m.timestampMs, 8);
    var bs := MessageBytes(m);
    assert bs[32..40] == sequence by {
      Middle(m.channel, sequence, paid + tokens + at);
      assert bs == m.channel + sequence + (paid + tokens + at);
    }
    assert bs[40..48] == paid by {
      Middle(m.channel + sequence, paid, tokens + at);
      assert bs == m.channel + sequence + paid + (tokens + at);
    }
    assert bs[48..52] == tokens by {
      Middle(m.channel + sequence + paid, tokens, at);
    }
    assert bs[52..60] == at by {
      Middle(m.channel + sequence + paid + tokens, at, []);
      assert bs == m.channel + sequence + paid + tokens + at + [];
    }
  }

  lemma ReadMessageInverts(m: WireMessage)
    ensures ReadMessage(MessageBytes(m)) == m
  {
    hide LittleEndian, FromLittleEndian, MessageBytes;
    MessageFields(m);
    LittleEndianRoundTrip(m.sequence, 8);
    LittleEndianRoundTrip(m.cumulativePaid, 8);
    LittleEndianRoundTrip(m.tokensReceived, 4);
    LittleEndianRoundTrip(m.timestampMs, 8);
  }

  /** Two commitments with the same signed bytes are the same commitment. */
  lemma SignedBytesDetermineCommitment(a: WireMessage, b: WireMessage)
    requires MessageBytes(a) == MessageBytes(b)
    ensures a == b
  {
    ReadMessageInverts(a);
    ReadMessageInverts(b);
  }
}
