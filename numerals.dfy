/**
 * Digit strings in a base up to 16: the reading that Python's int(text, base)
 * performs on plain ASCII digits, and the fixed-width and minimal renderings
 * used for hexadecimal MAC text and for str() of an integer.
 */
module Numerals {

  /** ASCII hexadecimal digit, either case. */
  predicate IsHexDigit(c: char) {
    '0' <= c <= '9' || 'a' <= c <= 'f' || 'A' <= c <= 'F'
  }

  function HexDigitValue(c: char): (d: nat)
    requires IsHexDigit(c)
    ensures d < 16
  {
    if '0' <= c <= '9' then c as int - '0' as int
    else if 'a' <= c <= 'f' then c as int - 'a' as int + 10
    else c as int - 'A' as int + 10
  }

  /** A digit of the given base. */
  predicate IsDigit(c: char, base: nat) {
    IsHexDigit(c) && HexDigitValue(c) < base
  }

  predicate AllDigits(s: string, base: nat) {
    forall i :: 0 <= i < |s| ==> IsDigit(s[i], base)
  }

  /** The lower-case digit for d. */
  function DigitChar(d: nat): (c: char)
    requires d < 16
    ensures IsHexDigit(c) && HexDigitValue(c) == d
    ensures '0' <= c <= '9' || 'a' <= c <= 'f'
  {
    "0123456789abcdef"[d]
  }

  function Pow(base: nat, w: nat): nat {
    if w == 0 then 1 else base * Pow(base, w - 1)
  }

  /** The number a digit string denotes, most significant digit first. */
  function ValueOf(s: string, base: nat): nat
    requires AllDigits(s, base)
  {
    if s == [] then 0 else ValueOf(s[..|s| - 1], base) * base + HexDigitValue(s[|s| - 1])
  }

  /** The last width digits of n, padded with zeros, in lower case. */
  function Render(n: nat, base: nat, width: nat): (r: string)
    requires 2 <= base <= 16
    ensures |r| == width && AllDigits(r, base)
    ensures forall i :: 0 <= i < |r| ==> '0' <= r[i] <= '9' || 'a' <= r[i] <= 'f'
  {
    if width == 0 then [] else Render(n / base, base, width - 1) + [DigitChar(n % base)]
  }

  /** The digits of n without leading zeros ("0" for zero), in lower case. */
  function RenderMin(n: nat, base: nat): (r: string)
    requires 2 <= base <= 16
    ensures r != [] && AllDigits(r, base)
  {
    if n < base then [DigitChar(n)] else RenderMin(n / base, base) + [DigitChar(n % base)]
  }

  /** Python's str() of an integer: optional minus sign, then decimal digits. */
  function IntToDecimal(i: int): string {
    if i < 0 then "-" + RenderMin(-i, 10) else RenderMin(i, 10)
  }

  /** Euclidean division by a positive base, as Dafny defines it on naturals. */
  lemma DivMod(n: nat, base: nat)
    requires base > 0
    ensures n == (n / base) * base + n % base && n % base < base
  {
  }

  /** Reading back a fixed-width rendering gives the number again. */
  lemma {:induction false} ValueOfRender(n: nat, base: nat, width: nat)
    requires 2 <= base <= 16
    requires n < Pow(base, width)
    ensures ValueOf(Render(n, base, width), base) == n
    decreases width
  {
    if width > 0 {
      var r := Render(n, base, width);
      var q := Render(n / base, base, width - 1);
      var c := DigitChar(n % base);
      assert r == q + [c];
      assert r[..|r| - 1] == q && r[|r| - 1] == c;
      BelowPow(n, base, width);
      ValueOfRender(n / base, base, width - 1);
      LastDigit(r, base, n / base, n % base);
      DivMod(n, base);
    }
  }

  /** The value of a digit string, split at its last digit. */
  lemma LastDigit(s: string, base: nat, v: nat, d: nat)
    requires s != [] && AllDigits(s, base)
    requires ValueOf(s[..|s| - 1], base) == v && HexDigitValue(s[|s| - 1]) == d
    ensures ValueOf(s, base) == v * base + d
  {
  }

  /** Dropping the last digit keeps a number below the next lower power. */
  lemma BelowPow(n: nat, base: nat, width: nat)
    requires 2 <= base && width > 0 && n < Pow(base, width)
    ensures n / base < Pow(base, width - 1)
  {
    var p := Pow(base, width - 1);
    assert Pow(base, width) == base * p;
    if n / base >= p {
      DivMod(n, base);
      MulMono(p, n / base, base);
      assert false;
    }
  }

  /** Dividing a number not below the base makes it strictly smaller. */
  lemma DivLess(n: nat, base: nat)
    requires 2 <= base <= n
    ensures 0 < n / base < n
  {
    var k := n / base;
    DivMod(n, base);
    if k == 0 {
      assert false;
    }
    MulMono(2, base, k);
  }

  lemma MulMono(a: nat, b: nat, c: nat)
    requires a <= b
    ensures a * c <= b * c
  {
  }

  /** Reading back a minimal rendering gives the number again. */
  lemma {:induction false} ValueOfRenderMin(n: nat, base: nat)
    requires 2 <= base <= 16
    ensures ValueOf(RenderMin(n, base), base) == n
    decreases n
  {
    if n >= base {
      var r := RenderMin(n, base);
      var q := RenderMin(n / base, base);
      assert r == q + [DigitChar(n % base)];
      assert r[..|r| - 1] == q;
      DivMod(n, base);
      DivLess(n, base);
      ValueOfRenderMin(n / base, base);
      assert ValueOf(r, base) == ValueOf(q, base) * base + n % base;
    }
  }

  /** A digit string of length w denotes a number below base^w. */
  lemma {:induction false} ValueOfBound(s: string, base: nat)
    requires AllDigits(s, base)
    ensures ValueOf(s, base) < Pow(base, |s|)
  {
    if s != [] {
      var p := s[..|s| - 1];
      ValueOfBound(p, base);
      assert IsDigit(s[|s| - 1], base);
      DigitStep(ValueOf(p, base), HexDigitValue(s[|s| - 1]), base, Pow(base, |p|));
    }
  }

  /** Appending a digit to a number below p gives a number below base * p. */
  lemma DigitStep(v: nat, d: nat, base: nat, p: nat)
    requires v < p && d < base
    ensures v * base + d < base * p
  {
    MulMono(v + 1, p, base);
    assert (v + 1) * base == v * base + base;
  }

  /** The lower-case spelling of a digit string. */
  function Lower(s: string): (r: string)
    requires forall i :: 0 <= i < |s| ==> IsHexDigit(s[i])
    ensures |r| == |s|
  {
    if s == [] then [] else Lower(s[..|s| - 1]) + [DigitChar(HexDigitValue(s[|s| - 1]))]
  }

  /** Rendering the value of a digit string at its own width restores the
      string, up to the case of its letters. */
  lemma {:induction false} RenderValueOf(s: string, base: nat)
    requires 2 <= base <= 16 && AllDigits(s, base)
    ensures Render(ValueOf(s, base), base, |s|) == Lower(s)
  {
    if s != [] {
      var p := s[..|s| - 1];
      var d := HexDigitValue(s[|s| - 1]);
      var pv := ValueOf(p, base);
      var v := pv * base + d;
      assert ValueOf(s, base) == v;
      DivModUnique(pv, d, base);
      RenderValueOf(p, base);
    }
  }

  /** Division undoes multiplication followed by adding a digit. */
  lemma DivModUnique(q: nat, d: nat, base: nat)
    requires d < base
    ensures (q * base + d) / base == q && (q * base + d) % base == d
  {
    var n := q * base + d;
    DivMod(n, base);
    var k := n / base;
    assert (q + 1) * base == q * base + base;
    assert (k + 1) * base == k * base + base;
    if k > q {
      MulMono(q + 1, k, base);
      assert false;
    }
    if k < q {
      MulMono(k + 1, q, base);
      assert false;
    }
    assert k * base == q * base;
  }

  predicate IsLowerHex(c: char) {
    '0' <= c <= '9' || 'a' <= c <= 'f'
  }

  /** A string of lower-case digits is its own lower-case spelling. */
  lemma {:induction false} LowerIdle(s: string)
    requires forall i :: 0 <= i < |s| ==> IsLowerHex(s[i])
    ensures forall i :: 0 <= i < |s| ==> IsHexDigit(s[i])
    ensures Lower(s) == s
  {
    if s != [] {
      var p := s[..|s| - 1];
      var c := s[|s| - 1];
      assert forall i :: 0 <= i < |p| ==> p[i] == s[i];
      LowerIdle(p);
      LowerDigitChar(c);
      assert Lower(s) == Lower(p) + [DigitChar(HexDigitValue(c))];
      assert s == p + [c];
    }
  }

  /** A lower-case digit is the digit of its own value. */
  lemma LowerDigitChar(c: char)
    requires IsLowerHex(c)
    ensures IsHexDigit(c) && DigitChar(HexDigitValue(c)) == c
  {
  }
}
