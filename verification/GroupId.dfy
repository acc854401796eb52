/** The -mc-group-id parser: hexadecimal with a 0x prefix, else decimal, else bare hexadecimal. */
module GroupId {
  import opened Numerals

  datatype Parsed = Ok(value: nat) | Bad

  const MAX := 0xFFFF

  /** White space as Unicode defines it. */
  predicate IsSpace(c: char) {
    || '\t' <= c <= '\r' || c == ' ' || c == '\U{85}' || c == '\U{A0}' || c == '\U{1680}'
    || '\U{2000}' <= c <= '\U{200A}' || c == '\U{2028}' || c == '\U{2029}' || c == '\U{202F}'
    || c == '\U{205F}' || c == '\U{3000}'
  }

  /** The white space characters, one by one. */
  lemma SpacesAre(c: char)
    ensures IsSpace(c) <==>
              c in ['\t', '\n', '\U{B}', '\U{C}', '\r', ' ', '\U{85}', '\U{A0}', '\U{1680}', '\U{2000}', '\U{2001}',
                    '\U{2002}', '\U{2003}', '\U{2004}', '\U{2005}', '\U{2006}', '\U{2007}', '\U{2008}', '\U{2009}',
                    '\U{200A}', '\U{2028}', '\U{2029}', '\U{202F}', '\U{205F}', '\U{3000}']
  {
    if '\U{2000}' <= c <= '\U{200A}' { assert 0x2000 <= c as int <= 0x200A; }
  }

  function TrimLeft(s: string): (t: string)
  {
    if s != [] && IsSpace(s[0]) then TrimLeft(s[1..]) else s
  }

  function TrimRight(s: string): (t: string)
  {
    if s != [] && IsSpace(s[|s| - 1]) then TrimRight(s[..|s| - 1]) else s
  }

  function Trim(s: string): (t: string)
  {
    TrimRight(TrimLeft(s))
  }

  /** The 16-bit unsigned scan: one digit at a time, giving up at the first bad digit or overflow. */
  function Scan(s: string, base: nat, i: nat, n: nat): (r: Parsed)
    requires i <= |s|
    decreases |s| - i
  {
    if i == |s| then Ok(n)
    else
      var d := DigitValue(s[i]);
      if d >= base || n * base + d > MAX then Bad else Scan(s, base, i + 1, n * base + d)
  }

  function ParseUint16(s: string, base: nat): (r: Parsed)
  {
    if s == [] then Bad else Scan(s, base, 0, 0)
  }

  predicate HasHexPrefix(s: string) {
    |s| >= 2 && s[0] == '0' && s[1] in "xX"
  }

  function ParseGroupId(s: string): (r: Parsed)
  {
    var t := Trim(s);
    if t == [] then Bad
    else if HasHexPrefix(t) then ParseUint16(t[2..], 16)
    else if ParseUint16(t, 10).Bad? then ParseUint16(t, 16)
    else ParseUint16(t, 10)
  }

  // ----- the early-exit scan computes the plain value -----

  lemma AppendGrows(s: string, c: char, base: nat)
    requires base >= 1
    ensures Value(s, base) <= Value(s + [c], base)
  {
    hide Value;
    ValueAppend(s, c, base);
    TimesGrows(base, Value(s, base));
  }

  lemma TimesGrows(b: nat, v: nat)
    requires b >= 1
    ensures v <= b * v
  {
    assert b * v == (b - 1) * v + v;
  }

  lemma {:induction false} PrefixValue(s: string, base: nat, i: nat)
    requires base >= 1 && i <= |s|
    ensures Value(s[..i], base) <= Value(s, base)
    decreases |s| - i
  {
    hide Value;
    if i == |s| {
      assert s[..i] == s;
    } else {
      AppendGrows(s[..i], s[i], base);
      assert s[..i + 1] == s[..i] + [s[i]];
      PrefixValue(s, base, i + 1);
    }
  }

  lemma AllDigitsSplit(s: string, base: nat, i: nat)
    requires i < |s|
    ensures AllDigits(s[i..], base) <==> DigitValue(s[i]) < base && AllDigits(s[i + 1..], base)
  {
    assert s[i..] == [s[i]] + s[i + 1..];
  }

  lemma {:induction false} ScanExact(s: string, base: nat, i: nat)
    requires base >= 1 && i <= |s| && Value(s[..i], base) <= MAX
    ensures AllDigits(s[i..], base) && Value(s, base) <= MAX ==>
              Scan(s, base, i, Value(s[..i], base)) == Ok(Value(s, base))
    ensures !(AllDigits(s[i..], base) && Value(s, base) <= MAX) ==>
              Scan(s, base, i, Value(s[..i], base)) == Bad
    decreases |s| - i
  {
    if i == |s| {
      assert s[..i] == s;
    } else {
      hide Value, AllDigits;
      var n, d := Value(s[..i], base), DigitValue(s[i]);
      ValueAppend(s[..i], s[i], base);
      assert s[..i + 1] == s[..i] + [s[i]];
      AllDigitsSplit(s, base, i);
      PrefixValue(s, base, i + 1);
      assert n * base + d == Value(s[..i + 1], base);
      if d < base && n * base + d <= MAX {
        ScanExact(s, base, i + 1);
      }
    }
  }

  lemma ParseUint16Exact(s: string, base: nat)
    requires base >= 1
    ensures ParseUint16(s, base)
            == if s != [] && AllDigits(s, base) && Value(s, base) <= 65535 then Ok(Value(s, base)) else Bad
  {
    if s != [] {
      assert s[..0] == [] && s[0..] == s;
      ScanExact(s, base, 0);
    }
  }

  // ----- decimal text is never re-read as hexadecimal -----

  /** Read as hexadecimal, decimal text is worth at least as much, and more from ten up. */
  lemma {:induction false} HexAtLeastDecimal(s: string)
    requires AllDigits(s, 10)
    ensures Value(s, 16) >= Value(s, 10)
    ensures Value(s, 16) == Value(s, 10) <==> Value(s, 16) < 10
  {
    if s != [] {
      HexAtLeastDecimal(s[..|s| - 1]);
    }
  }

  /**
   Exactly what is accepted, and as what number: prefixed hexadecimal, decimal, and bare
   hexadecimal only when the text has a letter.
   */
  lemma ParseGroupIdExact(s: string, n: nat)
    ensures ParseGroupId(s) == Ok(n) <==>
              var t := Trim(s);
              && n <= 65535
              && if HasHexPrefix(t) then |t| > 2 && AllDigits(t[2..], 16) && Value(t[2..], 16) == n
                 else && t != [] && AllDigits(t, 16)
                      && n == if AllDigits(t, 10) then Value(t, 10) else Value(t, 16)
  {
    var t := Trim(s);
    hide Value;
    if t != [] {
      if HasHexPrefix(t) {
        ParseUint16Exact(t[2..], 16);
      } else {
        ParseUint16Exact(t, 10);
        ParseUint16Exact(t, 16);
        if AllDigits(t, 10) { HexAtLeastDecimal(t); }
      }
    }
  }

  /** All-digit text above 65535 is rejected: its hexadecimal reading is out of range as well. */
  lemma LargeDecimalRejected(s: string)
    requires AllDigits(Trim(s), 10) && Value(Trim(s), 10) > 65535
    ensures ParseGroupId(s) == Bad
  {
    hide Value;
    var t := Trim(s);
    if ParseGroupId(s).Ok? { ParseGroupIdExact(s, ParseGroupId(s).value); }
    assert DigitValue('x') == 33 && DigitValue('X') == 33;
  }

  /** The hexadecimal fallback succeeds only on text with a letter a-f. */
  lemma FallbackNeedsLetter(s: string)
    requires !HasHexPrefix(Trim(s)) && ParseUint16(Trim(s), 10).Bad? && ParseGroupId(s).Ok?
    ensures exists i :: 0 <= i < |Trim(s)| && 10 <= DigitValue(Trim(s)[i]) < 16
  {
    hide Value;
    var t := Trim(s);
    ParseGroupIdExact(s, ParseGroupId(s).value);
    ParseUint16Exact(t, 10);
    if AllDigits(t, 10) {
      HexAtLeastDecimal(t);
    }
  }

  // ----- round trips -----

  lemma {:induction false} TrimPadding(pre: string, core: string, post: string)
    requires forall i :: 0 <= i < |pre| ==> IsSpace(pre[i])
    requires forall i :: 0 <= i < |post| ==> IsSpace(post[i])
    requires core != [] && !IsSpace(core[0]) && !IsSpace(core[|core| - 1])
    ensures Trim(pre + core + post) == core
    decreases |pre| + |post|
  {
    var s := pre + core + post;
    if pre != [] {
      assert s[1..] == pre[1..] + core + post;
      TrimPadding(pre[1..], core, post);
    } else if post != [] {
      var rest := post[..|post| - 1];
      TrimPadding(pre, core, rest);
      assert s[..|s| - 1] == core + rest == pre + core + rest;
      assert s[0] == core[0] && (core + rest)[0] == core[0];
      assert TrimLeft(s) == s && TrimLeft(core + rest) == core + rest;
    } else {
      assert s == core;
    }
  }

  lemma DigitIsNoSpace(c: char)
    requires DigitValue(c) < 36
    ensures !IsSpace(c)
  {
  }

  /** Every group id parses back from its decimal text, whatever white space surrounds it. */
  lemma DecimalRoundTrip(n: nat, pre: string, post: string)
    requires n <= 65535
    requires forall i :: 0 <= i < |pre| ==> IsSpace(pre[i])
    requires forall i :: 0 <= i < |post| ==> IsSpace(post[i])
    ensures ParseGroupId(pre + Render(n, 10) + post) == Ok(n)
  {
    var t := Render(n, 10);
    ValueRender(n, 10);
    DigitIsNoSpace(t[0]);
    DigitIsNoSpace(t[|t| - 1]);
    TrimPadding(pre, t, post);
    hide Value, Render, Trim;
    assert DigitValue('x') == 33 && DigitValue('X') == 33;
    ParseGroupIdExact(pre + t + post, n);
  }

  /** Every group id parses back from its 0x text, with either case of the x. */
  lemma PrefixedHexRoundTrip(n: nat, x: char, pre: string, post: string)
    requires n <= 65535 && x in "xX"
    requires forall i :: 0 <= i < |pre| ==> IsSpace(pre[i])
    requires forall i :: 0 <= i < |post| ==> IsSpace(post[i])
    ensures ParseGroupId(pre + (['0', x] + Render(n, 16)) + post) == Ok(n)
  {
    var h := Render(n, 16);
    var t := ['0', x] + h;
    ValueRender(n, 16);
    DigitIsNoSpace('0');
    DigitIsNoSpace(h[|h| - 1]);
    TrimPadding(pre, t, post);
    hide Value, Render, Trim;
    assert t[2..] == h;
    ParseGroupIdExact(pre + t + post, n);
  }

  /**
   The bare hexadecimal form the documentation offers reads back exactly when it has a letter or
   its number is below ten; otherwise the same text is taken as decimal.
   */
  lemma BareHexRoundTrip(s: string)
    requires s != [] && AllDigits(s, 16) && Value(s, 16) <= 65535
    ensures ParseGroupId(s) == Ok(Value(s, 16)) <==> Value(s, 16) < 10 || !AllDigits(s, 10)
  {
    DigitIsNoSpace(s[0]);
    DigitIsNoSpace(s[|s| - 1]);
    TrimPadding([], s, []);
    assert [] + s + [] == s;
    hide Value, Trim;
    assert DigitValue('x') == 33 && DigitValue('X') == 33;
    ParseGroupIdExact(s, Value(s, 16));
    if AllDigits(s, 10) { HexAtLeastDecimal(s); }
  }

  /** Prefixed hexadecimal reads back with the letters in either case and any leading zeros. */
  lemma SpelledHexRoundTrip(s: string, digits: seq<nat>, x: char, pre: string, post: string)
    requires s != [] && Spells(s, digits) && Number(digits, 16) <= 65535 && x in "xX"
    requires forall i :: 0 <= i < |pre| ==> IsSpace(pre[i])
    requires forall i :: 0 <= i < |post| ==> IsSpace(post[i])
    ensures ParseGroupId(pre + (['0', x] + s) + post) == Ok(Number(digits, 16))
  {
    hide Value, Number;
    var t := ['0', x] + s;
    SpelledValue(s, digits, 16);
    DigitIsNoSpace('0');
    DigitIsNoSpace(s[|s| - 1]);
    TrimPadding(pre, t, post);
    hide Trim;
    assert t[2..] == s;
    ParseGroupIdExact(pre + t + post, Number(digits, 16));
  }

  /** Bare hexadecimal, in either case, reads back exactly when a digit is a letter or the number is below ten. */
  lemma SpelledBareHex(s: string, digits: seq<nat>)
    requires s != [] && Spells(s, digits) && Number(digits, 16) <= 65535
    ensures ParseGroupId(s) == Ok(Number(digits, 16)) <==>
              Number(digits, 16) < 10 || exists i :: 0 <= i < |digits| && digits[i] >= 10
  {
    hide Value, Number, ParseGroupId;
    SpelledValue(s, digits, 16);
    SpelledValue(s, digits, 10);
    BareHexRoundTrip(s);
  }

  /** The two forms the documentation gives, in either case. */
  lemma DocumentedForms()
    ensures ParseGroupId("0x000B") == ParseGroupId("0X000b") == Ok(11)
    ensures ParseGroupId("000B") == ParseGroupId("000b") == Ok(11)
  {
    hide ParseGroupId;
    ElevenReadsBack("000B", 'x');
    ElevenReadsBack("000b", 'X');
    assert ['0', 'x'] + "000B" == "0x000B" && ['0', 'X'] + "000b" == "0X000b";
  }

  lemma Eleven()
    ensures Number([0, 0, 0, 11], 16) == 11
  {
    var digits: seq<nat> := [0, 0, 0, 11];
    assert digits[..3] == [0, 0, 0] && [0, 0, 0][..2] == [0, 0] && [0, 0][..1] == [0] && [0][..0] == [];
  }

  lemma ElevenReadsBack(s: string, x: char)
    requires (s == "000B" || s == "000b") && x in "xX"
    ensures ParseGroupId(['0', x] + s) == Ok(11) && ParseGroupId(s) == Ok(11)
  {
    var digits: seq<nat> := [0, 0, 0, 11];
    assert Spells(s, digits);
    Eleven();
    hide ParseGroupId, Number, Spells;
    SpelledHexRoundTrip(s, digits, x, [], []);
    assert [] + (['0', x] + s) + [] == ['0', x] + s;
    assert digits[3] >= 10;
    SpelledBareHex(s, digits);
  }

  /** A bare form that is misread: group id 0x10 written "10" is taken as ten. */
  lemma BareHexMisread()
    ensures Render(0x10, 16) == "10" && ParseGroupId("10") == Ok(10) && Value("10", 16) == 0x10
  {
    TenTexts();
    hide Render, ParseGroupId, Value;
    ValueRender(0x10, 16);
    DecimalRoundTrip(10, [], []);
    assert [] + "10" + [] == "10";
  }

  lemma TenTexts()
    ensures Render(0x10, 16) == "10" && Render(10, 10) == "10"
  {
    assert Render(1, 16) == "1" && Render(1, 10) == "1";
  }
}
