/**
 * MAC addresses as the board layout writes them (`_mac_to_int` in
 * src/multi_snap_config.py): an integer, `0x` followed by hexadecimal
 * digits, or hexadecimal digits with colons anywhere, e.g. xx:xx:xx:xx:xx:xx.
 */
module MacAddress {
  import opened Results
  import opened Numerals
  import opened PyValue

  datatype MacError =
    | NoStrip       // the value is neither an integer nor a string: `.strip()` raises AttributeError
    | InvalidHex(text: string)  // int(text, 16) raises ValueError

  /** `0x` at the start, the case the source tests for; `0X` is not. */
  predicate StartsWith0x(t: string) {
    |t| >= 2 && t[0] == '0' && t[1] == 'x'
  }

  /** The text `_mac_to_int` hands to int(text, 16): the stripped string as
      it is when it starts with `0x`, otherwise with every colon removed. */
  function MacText(s: string): (text: string)
    ensures StartsWith0x(Strip(s)) ==> text == Strip(s)
    ensures !StartsWith0x(Strip(s)) ==> forall i :: 0 <= i < |text| ==> text[i] != ':'
  {
    var t := Strip(s);
    if StartsWith0x(t) then t else Without(t, ':')
  }

  /** `_mac_to_int`: the integer a MAC address denotes. */
  function MacToInt(mac: Value): (r: Result<int, MacError>)
    ensures mac.VInt? ==> r == Ok(mac.i)
    ensures mac.VBool? ==> r == Ok(if mac.b then 1 else 0)
    ensures mac.VStr? ==> (r.Ok? <==> PyInt(MacText(mac.s), 16).Some?)
    ensures mac.VStr? && r.Ok? ==> r.value == PyInt(MacText(mac.s), 16).value
    ensures mac.VStr? && r.Err? ==> r == Err(InvalidHex(MacText(mac.s)))
    ensures !(mac.VInt? || mac.VBool? || mac.VStr?) ==> r == Err(NoStrip)
  {
    match mac
    case VInt(i) => Ok(i)
    case VBool(b) => Ok(if b then 1 else 0)
    case VStr(s) =>
      var text := MacText(s);
      var n := PyInt(text, 16);
      if n.Some? then Ok(n.value) else Err(InvalidHex(text))
    case _ => Err(NoStrip)
  }

  /** Whitespace around the text is ignored. */
  lemma MacPadding(p: string, s: string, q: string)
    requires AllBlank(StrBlanks, p) && AllBlank(StrBlanks, q)
    ensures MacToInt(VStr(p + s + q)) == MacToInt(VStr(s))
  {
    TrimPadding(StrBlanks, p, s, q);
  }

  /** A separator U+001C-U+001F after a colon survives strip() and the
      removal of colons, and int() then fails on it. */
  lemma MacSeparator(c: char)
    requires '\U{1C}' <= c <= '\U{1F}'
    ensures MacToInt(VStr([':', c, '5'])) == Err(InvalidHex([c, '5']))
  {
    var s := [':', c, '5'];
    TrimIdle(StrBlanks, s);
    assert !StartsWith0x(s);
    assert s[1..] == [c, '5'] && [c, '5'][1..] == "5";
    WithoutIdle([c, '5'], ':');
    assert Without(s, ':') == Without(s[1..], ':');
    PyIntSeparator(c, 16);
  }

  /** `0x` or `0X` followed by hexadecimal digits reads as that hexadecimal
      number: `0x` by the first branch, `0X` through the colon branch, since
      int(text, 16) accepts either prefix. */
  lemma MacHexPrefix(prefix: string, d: string)
    requires prefix == "0x" || prefix == "0X"
    requires d != [] && AllDigits(d, 16)
    ensures MacToInt(VStr(prefix + d)) == Ok(ValueOf(d, 16))
  {
    HexPrefixText(prefix, d);
    PyIntHexPrefix(prefix, d);
  }

  /** A prefixed run of digits is handed to int() as it is. */
  lemma HexPrefixText(prefix: string, d: string)
    requires prefix == "0x" || prefix == "0X"
    requires d != [] && AllDigits(d, 16)
    ensures MacText(prefix + d) == prefix + d
  {
    var t := prefix + d;
    assert t[0] == '0' && t[1] == prefix[1] && t[|t| - 1] == d[|d| - 1];
    assert IsDigit(d[|d| - 1], 16);
    TrimIdle(StrBlanks, t);
    if prefix == "0X" {
      forall i | 0 <= i < |t| ensures t[i] != ':' {
        if i >= 2 {
          assert t[i] == d[i - 2] && IsDigit(d[i - 2], 16);
        }
      }
      WithoutIdle(t, ':');
    }
  }

  /** Hexadecimal digits with colons anywhere among them read as the digits
      alone. */
  lemma MacColons(s: string)
    requires forall i :: 0 <= i < |s| ==> IsDigit(s[i], 16) || s[i] == ':'
    requires Without(s, ':') != []
    ensures AllDigits(Without(s, ':'), 16)
    ensures MacToInt(VStr(s)) == Ok(ValueOf(Without(s, ':'), 16))
  {
    ColonText(s);
    WithoutSeparators(s, ':', 16);
    PyIntDigits(Without(s, ':'), 16);
  }

  /** Digits and colons need no stripping and no `0x` branch. */
  lemma ColonText(s: string)
    requires forall i :: 0 <= i < |s| ==> IsDigit(s[i], 16) || s[i] == ':'
    requires s != []
    ensures MacText(s) == Without(s, ':')
  {
    assert IsDigit(s[0], 16) || s[0] == ':';
    assert IsDigit(s[|s| - 1], 16) || s[|s| - 1] == ':';
    TrimIdle(StrBlanks, s);
    if |s| >= 2 {
      assert IsDigit(s[1], 16) || s[1] == ':';
    }
  }

  /** In particular every fixed-width hexadecimal rendering reads back. */
  lemma MacHexRoundTrip(n: nat, width: nat)
    requires 1 <= width && n < Pow(16, width)
    ensures MacToInt(VStr("0x" + Render(n, 16, width))) == Ok(n)
  {
    MacHexPrefix("0x", Render(n, 16, width));
    ValueOfRender(n, 16, width);
  }

  /** Two-digit groups of lower-case hexadecimal digits joined by colons. */
  predicate Grouped(s: string) {
    && |s| >= 2 && IsLowerHex(s[0]) && IsLowerHex(s[1])
    && (|s| == 2 || (s[2] == ':' && Grouped(s[3..])))
  }

  /** Insert a colon after every second character. */
  function Group(d: string): string {
    if |d| <= 2 then d else d[..2] + ":" + Group(d[2..])
  }

  /** Where the colons of a grouped string stand. */
  lemma {:induction false} GroupedShape(s: string)
    requires Grouped(s)
    ensures |s| % 3 == 2
    ensures forall i :: 0 <= i < |s| ==> (s[i] == ':' <==> i % 3 == 2)
    ensures forall i :: 0 <= i < |s| && i % 3 != 2 ==> IsLowerHex(s[i])
  {
    if |s| > 2 {
      GroupedShape(s[3..]);
      forall i | 3 <= i < |s|
        ensures (s[i] == ':' <==> i % 3 == 2) && (i % 3 != 2 ==> IsLowerHex(s[i]))
      {
        assert s[i] == s[3..][i - 3];
      }
    }
  }

  /** Grouping an even run of lower-case digits gives a grouped string whose
      colons, removed, give the run back. */
  lemma {:induction false} GroupDigits(d: string)
    requires |d| >= 2 && |d| % 2 == 0
    requires forall i :: 0 <= i < |d| ==> IsLowerHex(d[i])
    ensures Grouped(Group(d)) && |Group(d)| == |d| + |d| / 2 - 1
    ensures Without(Group(d), ':') == d
  {
    var g := Group(d);
    if |d| == 2 {
      WithoutIdle(d, ':');
    } else {
      GroupDigits(d[2..]);
      assert g == d[..2] + ":" + Group(d[2..]);
      assert g[3..] == Group(d[2..]);
      WithoutAppend(d[..2] + ":", Group(d[2..]), ':');
      WithoutAppend(d[..2], ":", ':');
      WithoutIdle(d[..2], ':');
      assert d == d[..2] + d[2..];
    }
  }

  /** Removing the colons of a grouped string and grouping again restores it. */
  lemma {:induction false} UngroupGrouped(s: string)
    requires Grouped(s)
    ensures var d := Without(s, ':');
      && |d| == 2 * (|s| + 1) / 3 && (forall i :: 0 <= i < |d| ==> IsLowerHex(d[i]))
      && Group(d) == s
  {
    if |s| == 2 {
      WithoutIdle(s, ':');
    } else {
      var rest := s[3..];
      UngroupGrouped(rest);
      assert s == s[..2] + ":" + rest;
      WithoutAppend(s[..2] + ":", rest, ':');
      WithoutAppend(s[..2], ":", ':');
      WithoutIdle(s[..2], ':');
      var d := Without(s, ':');
      assert d == s[..2] + Without(rest, ':');
      assert d[..2] == s[..2] && d[2..] == Without(rest, ':');
    }
  }

  const MacLimit: nat := 0x1_0000_0000_0000

  lemma MacLimitIsPow()
    ensures Pow(16, 12) == MacLimit
  {
    assert Pow(16, 4) == 0x1_0000;
    assert Pow(16, 8) == 0x1_0000_0000;
  }

  /** The conventional spelling of a 48-bit MAC: six two-digit lower-case
      hexadecimal groups joined by colons. */
  function FormatMac(n: nat): (r: string)
    requires n < MacLimit
    ensures |r| == 17 && Grouped(r)
    ensures forall i :: 0 <= i < 17 ==> (r[i] == ':' <==> i % 3 == 2)
  {
    var d := Render(n, 16, 12);
    GroupDigits(d);
    GroupedShape(Group(d));
    Group(d)
  }

  /** Parsing the six-group spelling of any 48-bit number gives the number. */
  lemma MacRoundTrip(n: nat)
    requires n < MacLimit
    ensures MacToInt(VStr(FormatMac(n))) == Ok(n)
  {
    var s := FormatMac(n);
    var d := Render(n, 16, 12);
    GroupDigits(d);
    GroupedShape(s);
    MacColons(s);
    MacLimitIsPow();
    ValueOfRender(n, 16, 12);
  }

  /** Every six-group spelling is the spelling of the 48-bit number it parses to. */
  lemma MacCanonical(s: string)
    requires Grouped(s) && |s| == 17
    ensures MacToInt(VStr(s)).Ok?
    ensures var n := MacToInt(VStr(s)).value; 0 <= n < MacLimit && FormatMac(n) == s
  {
    GroupedShape(s);
    UngroupGrouped(s);
    var d := Without(s, ':');
    assert |d| == 12;
    MacColons(s);
    var n := ValueOf(d, 16);
    LowerIdle(d);
    ValueOfBound(d, 16);
    MacLimitIsPow();
    assert n < MacLimit;
    RenderValueOf(d, 16);
    assert Render(n, 16, 12) == d;
    assert FormatMac(n) == Group(d);
  }
}
