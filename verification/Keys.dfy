/**
 The text keys of the chain and group tiers. A source address is IPv6 text and so contains colons
 itself; the number is appended after one more colon.
 */
module Keys {
  import opened Bytes
  import opened Numerals

  /** Source text, a colon, and the HashKey as sixteen hexadecimal digits. */
  function ChainKey(src: string, hashKey: Uint64): (key: string)
  {
    src + ":" + Hex(hashKey, 16)
  }

  /** Source text, a colon, and the group index in decimal. */
  function GroupKey(src: string, group: nat): (key: string)
  {
    src + ":" + Render(group, 10)
  }

  lemma Power16Is64Bits()
    ensures Power16(16) == U64
  {
    assert Power16(4) == 0x1_0000;
    assert Power16(8) == 0x1_0000 * Power16(4);
    assert Power16(12) == 0x1_0000 * Power16(8);
    assert Power16(16) == 0x1_0000 * Power16(12);
  }

  /** Two texts split by a final colon are equal only part by part. */
  lemma LastColonSplits(a: string, x: string, b: string, y: string)
    requires ':' !in x && ':' !in y
    requires a + ":" + x == b + ":" + y
    ensures a == b && x == y
  {
    var s := a + ":" + x;
    assert s[|a|] == ':' && s[|b|] == ':';
    assert |a| == |b|;
    assert s[..|a|] == a && s[..|b|] == b;
    assert s[|a| + 1..] == x && s[|b| + 1..] == y;
  }

  lemma DigitsHaveNoColon(s: string, base: nat)
    requires base <= 16 && AllDigits(s, base)
    ensures ':' !in s
  {
    assert DigitValue(':') == 36;
  }

  /** A chain entry belongs to one (source, HashKey) pair only. */
  lemma ChainKeyInjective(src1: string, h1: Uint64, src2: string, h2: Uint64)
    ensures ChainKey(src1, h1) == ChainKey(src2, h2) <==> src1 == src2 && h1 == h2
  {
    if ChainKey(src1, h1) == ChainKey(src2, h2) {
      Power16Is64Bits();
      ValueHex(h1, 16);
      ValueHex(h2, 16);
      DigitsHaveNoColon(Hex(h1, 16), 16);
      DigitsHaveNoColon(Hex(h2, 16), 16);
      LastColonSplits(src1, Hex(h1, 16), src2, Hex(h2, 16));
    }
  }

  /** A group bucket belongs to one (source, group) pair only. */
  lemma GroupKeyInjective(src1: string, g1: nat, src2: string, g2: nat)
    ensures GroupKey(src1, g1) == GroupKey(src2, g2) <==> src1 == src2 && g1 == g2
  {
    if GroupKey(src1, g1) == GroupKey(src2, g2) {
      ValueRender(g1, 10);
      ValueRender(g2, 10);
      DigitsHaveNoColon(Render(g1, 10), 10);
      DigitsHaveNoColon(Render(g2, 10), 10);
      LastColonSplits(src1, Render(g1, 10), src2, Render(g2, 10));
    }
  }
}
