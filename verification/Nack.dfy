/** The BRC-126 datagrams: the 64-byte NACK and the 16-byte ACK and MISS. */
module Nack {
  import opened Bytes

  const NACK_SIZE := 64
  const RESPONSE_SIZE := 16
  const MAGIC := 0xE3E1F3E8
  const PROTO_VER := 0x02BF
  const TYPE_NACK := 0x10
  const TYPE_MISS := 0x11
  const TYPE_ACK := 0x12

  datatype Request = Invalid | Range | Single(hashKey: Uint64, seqNum: Uint64)

  /** What the server checks of a NACK: length, magic and type; version and flags are not looked at. */
  predicate Valid(d: ByteString) {
    |d| >= NACK_SIZE && Get(d[0..4]) == MAGIC && d[6] == TYPE_NACK
  }

  function Parse(d: ByteString): (r: Request)
  {
    if !Valid(d) then Invalid
    else if Field(d, 24) != Field(d, 16) then Range
    else Single(Field(d, 8), Field(d, 16))
  }

  /** A NACK as a listener builds it. */
  function Build(flags: Byte, hashKey: Uint64, start: Uint64, end: Uint64, subtree: ByteString): (d: ByteString)
    requires |subtree| == 32
    ensures |d| == NACK_SIZE
  {
    Put(MAGIC, 4) + Put(PROTO_VER, 2) + [TYPE_NACK, flags]
    + Put(hashKey, 8) + Put(start, 8) + Put(end, 8) + subtree
  }

  lemma FieldPut(pre: ByteString, n: Uint64, post: ByteString)
    ensures Field(pre + Put(n, 8) + post, |pre|) == n
  {
    var d := pre + Put(n, 8) + post;
    assert d[|pre|..|pre| + 8] == Put(n, 8);
    Range8();
    GetPut(n, 8);
  }

  /** Whatever a listener asks for is what the server reads: one frame, or a range it refuses. */
  lemma ParseBuilt(flags: Byte, hashKey: Uint64, start: Uint64, end: Uint64, subtree: ByteString)
    requires |subtree| == 32
    ensures start == end ==> Parse(Build(flags, hashKey, start, end, subtree)) == Single(hashKey, start)
    ensures start != end ==> Parse(Build(flags, hashKey, start, end, subtree)) == Range
  {
    hide Put, Get;
    var head := Put(MAGIC, 4) + Put(PROTO_VER, 2) + [TYPE_NACK, flags];
    var a, b, c := Put(hashKey, 8), Put(start, 8), Put(end, 8);
    var d := Build(flags, hashKey, start, end, subtree);
    assert d == head + a + (b + c + subtree);
    assert d == (head + a) + b + (c + subtree);
    assert d == (head + a + b) + c + subtree;
    FieldPut(head, hashKey, b + c + subtree);
    FieldPut(head + a, start, c + subtree);
    FieldPut(head + a + b, end, subtree);
    assert d[0..4] == Put(MAGIC, 4);
    MagicRoundTrip();
  }

  lemma MagicRoundTrip()
    ensures Get(Put(MAGIC, 4)) == MAGIC
  {
    assert Bytes.Range(2) == U16 && Bytes.Range(4) == U32;
    GetPut(MAGIC, 4);
  }

  /** A datagram is a request for one frame exactly when its bytes are laid out as the wire format says. */
  lemma ParseExact(d: ByteString, hashKey: Uint64, seqNum: Uint64)
    ensures Parse(d) == Single(hashKey, seqNum) <==>
              && |d| >= NACK_SIZE && d[0..4] == Put(MAGIC, 4) && d[6] == TYPE_NACK
              && d[8..16] == Put(hashKey, 8) && d[16..24] == Put(seqNum, 8) && d[24..32] == Put(seqNum, 8)
  {
    if |d| >= NACK_SIZE {
      hide Put, Get;
      PutGet(d[0..4]);
      PutGet(d[8..16]);
      PutGet(d[16..24]);
      PutGet(d[24..32]);
      MagicRoundTrip();
      Range8();
      GetPut(hashKey, 8);
      GetPut(seqNum, 8);
    }
  }

  lemma RangeExact(d: ByteString)
    ensures Parse(d) == Range <==>
              |d| >= NACK_SIZE && d[0..4] == Put(MAGIC, 4) && d[6] == TYPE_NACK && d[16..24] != d[24..32]
  {
    if |d| >= NACK_SIZE {
      hide Put, Get;
      PutGet(d[0..4]);
      PutGet(d[16..24]);
      PutGet(d[24..32]);
      MagicRoundTrip();
    }
  }

  lemma MagicBytes()
    ensures Put(MAGIC, 4) == [0xE3, 0xE1, 0xF3, 0xE8] && Put(PROTO_VER, 2) == [0x02, 0xBF]
  {
    PutTwo(MAGIC, 4);
    PutTwo(MAGIC / 0x1_0000, 2);
    PutTwo(PROTO_VER, 2);
    hide Put;
    assert |Put(0, 0)| == 0;
  }

  /** Byte for byte: what is read as a NACK for one frame. */
  lemma ParseByBytes(d: ByteString, hashKey: Uint64, seqNum: Uint64)
    ensures Parse(d) == Single(hashKey, seqNum) <==>
              && |d| >= 64 && d[0..4] == [0xE3, 0xE1, 0xF3, 0xE8] && d[6] == 0x10
              && d[8..16] == EightBytes(hashKey) && d[16..24] == EightBytes(seqNum) && d[24..32] == EightBytes(seqNum)
    ensures Parse(d) == Range <==>
              |d| >= 64 && d[0..4] == [0xE3, 0xE1, 0xF3, 0xE8] && d[6] == 0x10 && d[16..24] != d[24..32]
  {
    MagicBytes();
    assert Parse(d) == Range <==> |d| >= 64 && d[0..4] == Put(MAGIC, 4) && d[6] == TYPE_NACK && d[16..24] != d[24..32]
      by { RangeExact(d); }
    hide Put, Parse, EightBytes;
    ParseExact(d, hashKey, seqNum);
    PutEight(hashKey);
    PutEight(seqNum);
  }

  /** The 16 bytes of a response. */
  function Response(msgType: Byte, flags: Byte, seqNum: Uint64): (bs: ByteString)
    ensures |bs| == RESPONSE_SIZE && bs[6] == msgType && bs[7] == flags
  {
    Put(MAGIC, 4) + Put(PROTO_VER, 2) + [msgType, flags] + Put(seqNum, 8)
  }

  function Ack(seqNum: Uint64): (bs: ByteString)
  {
    Response(TYPE_ACK, 0x01, seqNum)
  }

  const MISS := Response(TYPE_MISS, 0, 0)

  /** A listener reads back from an ACK the number it was sent for, and never takes it for a MISS. */
  lemma AckReadsBack(s1: Uint64, s2: Uint64)
    ensures Field(Ack(s1), 8) == s1
    ensures Ack(s1) == Ack(s2) <==> s1 == s2
    ensures Ack(s1) != MISS
  {
    hide Put;
    var head := Put(MAGIC, 4) + Put(PROTO_VER, 2) + [TYPE_ACK, 0x01];
    FieldPut(head, s1, []);
    FieldPut(head, s2, []);
    assert Ack(s1) == head + Put(s1, 8) + [] && Ack(s2) == head + Put(s2, 8) + [];
    assert Ack(s1)[6] == TYPE_ACK && MISS[6] == TYPE_MISS;
  }

  /** Byte for byte: the two responses. */
  lemma ResponsesByBytes(seqNum: Uint64)
    ensures Ack(seqNum) == [0xE3, 0xE1, 0xF3, 0xE8, 0x02, 0xBF, 0x12, 0x01] + EightBytes(seqNum)
    ensures MISS == [0xE3, 0xE1, 0xF3, 0xE8, 0x02, 0xBF, 0x11, 0x00, 0, 0, 0, 0, 0, 0, 0, 0]
  {
    hide Put, EightBytes;
    MagicBytes();
    PutEight(seqNum);
    PutEight(0);
    assert EightBytes(0) == [0, 0, 0, 0, 0, 0, 0, 0] by { ZeroBytes(); }
  }

  lemma ZeroBytes()
    ensures EightBytes(0) == [0, 0, 0, 0, 0, 0, 0, 0]
  {
  }

  /** Fills a response buffer field by field. */
  method FillResponse(msgType: Byte, flags: Byte, seqNum: Uint64) returns (buf: array<Byte>)
    ensures fresh(buf) && buf[..] == Response(msgType, flags, seqNum)
  {
    hide Put;
    buf := new Byte[RESPONSE_SIZE];
    PutAt(buf, 0, 4, MAGIC);
    PutAt(buf, 4, 2, PROTO_VER);
    assert buf[..6] == Put(MAGIC, 4) + Put(PROTO_VER, 2);
    buf[6] := msgType;
    buf[7] := flags;
    assert buf[..8] == Put(MAGIC, 4) + Put(PROTO_VER, 2) + [msgType, flags];
    PutAt(buf, 8, 8, seqNum);
  }
}
