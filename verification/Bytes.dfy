/** Byte strings and the big-endian integer layout used by every wire field and cache key. */
module Bytes {

  type Byte = b: int | 0 <= b < 256

  type ByteString = seq<Byte>

  const U16 := 0x1_0000
  const U32 := 0x1_0000_0000
  const U64 := 0x1_0000_0000_0000_0000

  type Uint64 = n: int | 0 <= n < U64

  /** 256 to the power w: the number of values a w-byte field can hold. */
  ghost function Range(w: nat): (r: nat)
    ensures r > 0
  {
    if w == 0 then 1 else 256 * Range(w - 1)
  }

  /** The w-byte big-endian layout of n (high bytes beyond w are dropped). */
  function Put(n: nat, w: nat): (bs: ByteString)
    ensures |bs| == w
  {
    if w == 0 then [] else Put(n / 256, w - 1) + [n % 256]
  }

  /** The unsigned value of a big-endian field. */
  function Get(bs: ByteString): (n: nat)
  {
    if bs == [] then 0 else 256 * Get(bs[..|bs| - 1]) + bs[|bs| - 1]
  }

  lemma {:induction false} GetPut(n: nat, w: nat)
    requires n < Range(w)
    ensures Get(Put(n, w)) == n
  {
    if w > 0 {
      GetPut(n / 256, w - 1);
      assert Put(n, w)[..w - 1] == Put(n / 256, w - 1);
    }
  }

  lemma {:induction false} PutGet(bs: ByteString)
    ensures Get(bs) < Range(|bs|)
    ensures Put(Get(bs), |bs|) == bs
  {
    if bs != [] {
      var hi := bs[..|bs| - 1];
      PutGet(hi);
      assert Get(bs) / 256 == Get(hi) && Get(bs) % 256 == bs[|bs| - 1];
      assert bs == hi + [bs[|bs| - 1]];
    }
  }

  lemma Range8()
    ensures Range(8) == U64
  {
    assert Range(2) == 0x1_0000;
    assert Range(4) == 0x1_0000 * Range(2);
    assert Range(6) == 0x1_0000 * Range(4);
    assert Range(8) == 0x1_0000 * Range(6);
  }

  /** The eight bytes of a number, most significant first, written out. */
  function EightBytes(n: Uint64): (bs: ByteString)
  {
    [n / 0x100_0000_0000_0000, n / 0x1_0000_0000_0000 % 256, n / 0x100_0000_0000 % 256, n / 0x1_0000_0000 % 256,
     n / 0x100_0000 % 256, n / 0x1_0000 % 256, n / 0x100 % 256, n % 256]
  }

  lemma PutTwo(n: nat, w: nat)
    requires w >= 2
    ensures Put(n, w) == Put(n / 0x1_0000, w - 2) + [n / 0x100 % 256, n % 256]
  {
    assert n / 256 / 256 == n / 0x1_0000;
    assert Put(n, w) == Put(n / 256, w - 1) + [n % 256];
    assert Put(n / 256, w - 1) == Put(n / 256 / 256, w - 2) + [n / 256 % 256];
  }

  lemma HighParts(n: Uint64)
    ensures n / 0x1_0000 / 0x1_0000 == n / 0x1_0000_0000
    ensures n / 0x1_0000_0000 / 0x1_0000 == n / 0x1_0000_0000_0000
    ensures n / 0x1_0000_0000_0000 / 0x1_0000 == 0
  {
  }

  lemma MiddleParts(n: Uint64)
    ensures n / 0x1_0000 / 0x100 == n / 0x100_0000
    ensures n / 0x1_0000_0000 / 0x100 == n / 0x100_0000_0000
    ensures n / 0x1_0000_0000_0000 / 0x100 % 256 == n / 0x100_0000_0000_0000
  {
  }

  /** An eight-byte field is laid out most significant byte first. */
  lemma PutEight(n: Uint64)
    ensures Put(n, 8) == EightBytes(n)
  {
    hide Put;
    var a, b, c := n / 0x1_0000, n / 0x1_0000_0000, n / 0x1_0000_0000_0000;
    HighParts(n);
    MiddleParts(n);
    PutTwo(n, 8);
    PutTwo(a, 6);
    PutTwo(b, 4);
    PutTwo(c, 2);
    assert |Put(0, 0)| == 0;
  }

  function Field(bs: ByteString, off: nat): (n: Uint64)
    requires off + 8 <= |bs|
  {
    PutGet(bs[off..off + 8]);
    Range8();
    Get(bs[off..off + 8])
  }

  /** HashKey then SeqNum, eight big-endian bytes each: the one cache key of ingress and NACK server. */
  function CacheKey(hashKey: Uint64, seqNum: Uint64): (key: ByteString)
    ensures |key| == 16
    ensures Field(key, 0) == hashKey && Field(key, 8) == seqNum
  {
    var key := Put(hashKey, 8) + Put(seqNum, 8);
    assert key[0..8] == Put(hashKey, 8) && key[8..16] == Put(seqNum, 8);
    Range8();
    GetPut(hashKey, 8);
    GetPut(seqNum, 8);
    key
  }

  /** Byte for byte: HashKey, then SeqNum, most significant bytes first. */
  lemma CacheKeyByBytes(hashKey: Uint64, seqNum: Uint64)
    ensures CacheKey(hashKey, seqNum) == EightBytes(hashKey) + EightBytes(seqNum)
  {
    hide Put, EightBytes;
    PutEight(hashKey);
    PutEight(seqNum);
  }

  /** Two cache keys coincide only for the same flow and the same sequence number. */
  lemma CacheKeyInjective(h1: Uint64, s1: Uint64, h2: Uint64, s2: Uint64)
    ensures CacheKey(h1, s1) == CacheKey(h2, s2) <==> h1 == h2 && s1 == s2
  {
    assert Field(CacheKey(h1, s1), 0) == h1 && Field(CacheKey(h1, s1), 8) == s1;
    assert Field(CacheKey(h2, s2), 0) == h2 && Field(CacheKey(h2, s2), 8) == s2;
  }

  /** Writes the w-byte big-endian layout of n into buf at off, least significant byte first. */
  method PutAt(buf: array<Byte>, off: nat, w: nat, n: nat)
    requires off + w <= buf.Length
    modifies buf
    ensures buf[..] == old(buf[..off]) + Put(n, w) + old(buf[off + w..])
  {
    var rest, i := n, w;
    while i > 0
      invariant 0 <= i <= w
      invariant buf[off + w..] == old(buf[off + w..])
      invariant buf[..off + i] == old(buf[..off + i])
      invariant Put(n, w) == Put(rest, i) + buf[off + i..off + w]
    {
      i := i - 1;
      assert Put(rest, i + 1) == Put(rest / 256, i) + [rest % 256];
      ghost var done := buf[off + i + 1..off + w];
      buf[off + i] := rest % 256;
      assert buf[off + i + 1..off + w] == done;
      assert buf[off + i..off + w] == [rest % 256] + done;
      rest := rest / 256;
    }
    assert buf[..] == buf[..off] + buf[off..off + w] + buf[off + w..];
  }
}
