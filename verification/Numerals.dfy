/** Numbers as text: what the formatted rate-limit keys and the group-id parser share. */
module Numerals {

  const DIGITS := "0123456789abcdef"

  function Digit(d: nat): (c: char)
    requires d < 16
  {
    DIGITS[d]
  }

  /** The value of a digit or letter in either case, or 36 for any other character. */
  function DigitValue(c: char): (d: nat)
    ensures d <= 36
  {
    if '0' <= c <= '9' then c as int - '0' as int
    else if 'a' <= c <= 'z' then c as int - 'a' as int + 10
    else if 'A' <= c <= 'Z' then c as int - 'A' as int + 10
    else 36
  }

  predicate AllDigits(s: string, base: nat) {
    forall i :: 0 <= i < |s| ==> DigitValue(s[i]) < base
  }

  /** The number a text denotes in a base; letters of either case count. */
  function Value(s: string, base: nat): (n: nat)
  {
    if s == [] then 0 else base * Value(s[..|s| - 1], base) + DigitValue(s[|s| - 1])
  }

  /** The shortest text of n in a base. */
  function Render(n: nat, base: nat): (s: string)
    requires 2 <= base <= 16
    ensures s != []
  {
    if n < base then [Digit(n)] else Render(n / base, base) + [Digit(n % base)]
  }

  /** The hexadecimal text of n padded or cut to a fixed width. */
  function Hex(n: nat, width: nat): (s: string)
    ensures |s| == width
  {
    if width == 0 then [] else Hex(n / 16, width - 1) + [Digit(n % 16)]
  }

  ghost function Power16(w: nat): (r: nat)
    ensures r > 0
  {
    if w == 0 then 1 else 16 * Power16(w - 1)
  }

  lemma DigitRoundTrip(d: nat)
    requires d < 16
    ensures DigitValue(Digit(d)) == d
  {
  }

  lemma ValueAppend(s: string, c: char, base: nat)
    ensures Value(s + [c], base) == base * Value(s, base) + DigitValue(c)
  {
    assert (s + [c])[..|s|] == s;
  }

  lemma DivMod(n: nat, base: nat)
    requires base >= 2
    ensures base * (n / base) + n % base == n && n % base < base
    ensures n >= base ==> n / base < n
  {
  }

  lemma {:induction false} ValueRender(n: nat, base: nat)
    requires 2 <= base <= 16
    ensures AllDigits(Render(n, base), base) && Value(Render(n, base), base) == n
    decreases n
  {
    DivMod(n, base);
    if n < base {
      DigitRoundTrip(n);
      ValueAppend([], Digit(n), base);
      assert [] + [Digit(n)] == [Digit(n)];
    } else {
      ValueRender(n / base, base);
      AppendDigit(Render(n / base, base), n % base, base);
    }
  }

  lemma AppendDigit(s: string, d: nat, base: nat)
    requires d < base <= 16 && AllDigits(s, base)
    ensures AllDigits(s + [Digit(d)], base)
    ensures Value(s + [Digit(d)], base) == base * Value(s, base) + d
  {
    hide Value;
    DigitRoundTrip(d);
    ValueAppend(s, Digit(d), base);
  }

  // ----- text by its characters -----

  const UPPER := "0123456789ABCDEF"

  /** Text whose characters are the given digits, each letter in either case. */
  predicate Spells(s: string, digits: seq<nat>) {
    |s| == |digits| && forall i :: 0 <= i < |s| ==> digits[i] < 16 && s[i] in [DIGITS[digits[i]], UPPER[digits[i]]]
  }

  /** The number that digits make in a base. */
  function Number(digits: seq<nat>, base: nat): (n: nat)
  {
    if digits == [] then 0 else base * Number(digits[..|digits| - 1], base) + digits[|digits| - 1]
  }

  lemma SpelledDigit(c: char, d: nat)
    requires d < 16 && c in [DIGITS[d], UPPER[d]]
    ensures DigitValue(c) == d
  {
  }

  /** Text means what its digits say, in either case of the letters. */
  lemma {:induction false} SpelledValue(s: string, digits: seq<nat>, base: nat)
    requires Spells(s, digits)
    ensures Value(s, base) == Number(digits, base)
    ensures AllDigits(s, base) <==> forall i :: 0 <= i < |digits| ==> digits[i] < base
  {
    forall i | 0 <= i < |s| ensures DigitValue(s[i]) == digits[i] { SpelledDigit(s[i], digits[i]); }
    if s != [] {
      hide DigitValue;
      SpelledValue(s[..|s| - 1], digits[..|s| - 1], base);
    }
  }

  lemma {:induction false} ValueHex(n: nat, w: nat)
    requires n < Power16(w)
    ensures AllDigits(Hex(n, w), 16) && Value(Hex(n, w), 16) == n
  {
    if w > 0 {
      DigitRoundTrip(n % 16);
      ValueHex(n / 16, w - 1);
      ValueAppend(Hex(n / 16, w - 1), Digit(n % 16), 16);
    }
  }
}
