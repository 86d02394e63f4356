/**
 * The slice of Python's object model that the configuration code relies on,
 * applied to values as a YAML loader produces them: truthiness, str(),
 * int(), str.strip(), dict lookup and iteration.
 */
module PyValue {
  import opened Results
  import opened Numerals

  /** A float: a finite one is its exact value together with the text
      repr() gives it; infinities and NaN are separate. */
  datatype Float = Finite(value: real, text: string) | Infinite(negative: bool) | NaN

  /** A loaded YAML value. A dict is its (key, value) pairs in insertion
      order; a loaded dict never holds two equal keys. */
  datatype Value =
    | VNone
    | VBool(b: bool)
    | VInt(i: int)
    | VFloat(f: Float)
    | VStr(s: string)
    | VList(items: seq<Value>)
    | VDict(entries: seq<(Value, Value)>)

  type Entries = seq<(Value, Value)>

  /** Python's bool(v): None, False, zero and empty containers are false. */
  predicate Truthy(v: Value) {
    match v
    case VNone => false
    case VBool(b) => b
    case VInt(i) => i != 0
    case VFloat(f) => !(f.Finite? && f.value == 0.0)
    case VStr(s) => s != []
    case VList(xs) => xs != []
    case VDict(es) => es != []
  }

  /** `key in d` and `d[key]` for a string key: the value stored under it. */
  function Lookup(es: Entries, key: string): Option<Value> {
    if es == [] then None
    else if es[0].0 == VStr(key) then Some(es[0].1)
    else Lookup(es[1..], key)
  }

  /** A key is found exactly when some entry holds it, and then the value found
      is stored under it. */
  lemma {:induction false} LookupFound(es: Entries, key: string)
    ensures Lookup(es, key).None? <==> forall i :: 0 <= i < |es| ==> es[i].0 != VStr(key)
    ensures Lookup(es, key).Some? ==> exists i :: 0 <= i < |es| && es[i] == (VStr(key), Lookup(es, key).value)
  {
    if es != [] && es[0].0 != VStr(key) {
      LookupFound(es[1..], key);
      assert forall i :: 1 <= i < |es| ==> es[i] == es[1..][i - 1];
      if Lookup(es, key).Some? {
        var j :| 0 <= j < |es[1..]| && es[1..][j] == (VStr(key), Lookup(es, key).value);
        assert es[j + 1] == es[1..][j];
      }
    }
  }

  /** The first entry holding a key is the one found. */
  lemma {:induction false} LookupFirst(es: Entries, key: string, k: nat)
    requires k < |es| && es[k].0 == VStr(key)
    requires forall j :: 0 <= j < k ==> es[j].0 != VStr(key)
    ensures Lookup(es, key) == Some(es[k].1)
  {
    if k > 0 {
      assert es[1..][k - 1] == es[k];
      LookupFirst(es[1..], key, k - 1);
    }
  }

  /** d.get(key, default). */
  function GetOr(es: Entries, key: string, default: Value): Value {
    match Lookup(es, key)
    case Some(v) => v
    case None => default
  }

  /** d.get(key): None both when the key is absent and when it holds None. */
  function Get(es: Entries, key: string): Value {
    GetOr(es, key, VNone)
  }

  /** The elements `for x in v` visits: a list's items, a string's
      characters, a dict's keys; None when Python raises TypeError. */
  function Iter(v: Value): Option<seq<Value>> {
    match v
    case VList(xs) => Some(xs)
    case VStr(s) => Some(seq(|s|, i requires 0 <= i < |s| => VStr([s[i]])))
    case VDict(es) => Some(seq(|es|, i requires 0 <= i < |es| => es[i].0))
    case _ => None
  }

  function Join(parts: seq<string>): string {
    if parts == [] then "" else if |parts| == 1 then parts[0] else parts[0] + ", " + Join(parts[1..])
  }

  function FloatRepr(f: Float): string {
    match f
    case Finite(_, text) => text
    case Infinite(negative) => if negative then "-inf" else "inf"
    case NaN => "nan"
  }

  /** repr(v). A string is shown between single quotes. */
  function Repr(v: Value): string {
    match v
    case VNone => "None"
    case VBool(b) => if b then "True" else "False"
    case VInt(i) => IntToDecimal(i)
    case VFloat(f) => FloatRepr(f)
    case VStr(s) => "'" + s + "'"
    case VList(xs) => "[" + Join(seq(|xs|, i requires 0 <= i < |xs| => Repr(xs[i]))) + "]"
    case VDict(es) =>
      "{" + Join(seq(|es|, i requires 0 <= i < |es| => Repr(es[i].0) + ": " + Repr(es[i].1))) + "}"
  }

  /** str(v): a string is itself, everything else its repr. */
  function Str(v: Value): string {
    if v.VStr? then v.s else Repr(v)
  }

  /** The characters for which Python's str.isspace() holds: what str.strip()
      removes. */
  predicate IsSpace(c: char) {
    || c == ' '
    || '\t' <= c <= '\r'
    || '\U{1C}' <= c <= '\U{1F}'
    || c == '\U{85}' || c == '\U{A0}' || c == '\U{1680}'
    || '\U{2000}' <= c <= '\U{200A}'
    || c == '\U{2028}' || c == '\U{2029}' || c == '\U{202F}' || c == '\U{205F}' || c == '\U{3000}'
  }

  /** The whitespace int() skips around a number. int() keeps every ASCII
      character as it is and trims only " \t\n\v\f\r" (other whitespace is
      first mapped to a space), so the separators U+001C-U+001F, which
      str.isspace() accepts, are not skipped and make int() fail. */
  predicate IntSpace(c: char) {
    IsSpace(c) && !('\U{1C}' <= c <= '\U{1F}')
  }

  /** Which whitespace a trim removes: str.strip()'s or int()'s. */
  datatype Blanks = StrBlanks | IntBlanks

  predicate Blank(w: Blanks, c: char) {
    match w
    case StrBlanks => IsSpace(c)
    case IntBlanks => IntSpace(c)
  }

  predicate AllBlank(w: Blanks, s: string) {
    forall i :: 0 <= i < |s| ==> Blank(w, s[i])
  }

  function TrimLeft(w: Blanks, s: string): (r: string)
    ensures r == [] || !Blank(w, r[0])
  {
    if s != [] && Blank(w, s[0]) then TrimLeft(w, s[1..]) else s
  }

  function TrimRight(w: Blanks, s: string): string {
    if s != [] && Blank(w, s[|s| - 1]) then TrimRight(w, s[..|s| - 1]) else s
  }

  /** s without its leading and trailing whitespace of the set w. */
  function Trim(w: Blanks, s: string): (r: string)
    ensures r == [] || (!Blank(w, r[0]) && !Blank(w, r[|r| - 1]))
  {
    TrimRightKeepsLeft(w, TrimLeft(w, s));
    TrimRight(w, TrimLeft(w, s))
  }

  /** s.strip(). */
  function Strip(s: string): (r: string)
    ensures r == [] || (!IsSpace(r[0]) && !IsSpace(r[|r| - 1]))
  {
    Trim(StrBlanks, s)
  }

  lemma {:induction false} TrimRightKeepsLeft(w: Blanks, s: string)
    requires s == [] || !Blank(w, s[0])
    ensures var r := TrimRight(w, s); r == [] || (!Blank(w, r[0]) && !Blank(w, r[|r| - 1]))
  {
    if s != [] && Blank(w, s[|s| - 1]) {
      TrimRightKeepsLeft(w, s[..|s| - 1]);
    }
  }

  lemma {:induction false} TrimLeftSpaces(w: Blanks, p: string, s: string)
    requires AllBlank(w, p)
    ensures TrimLeft(w, p + s) == TrimLeft(w, s)
  {
    if p != [] {
      assert (p + s)[0] == p[0] && (p + s)[1..] == p[1..] + s;
      TrimLeftSpaces(w, p[1..], s);
    } else {
      assert p + s == s;
    }
  }

  lemma {:induction false} TrimRightSpaces(w: Blanks, s: string, q: string)
    requires AllBlank(w, q)
    ensures TrimRight(w, s + q) == TrimRight(w, s)
  {
    if q != [] {
      assert (s + q)[|s + q| - 1] == q[|q| - 1];
      assert (s + q)[..|s + q| - 1] == s + q[..|q| - 1];
      TrimRightSpaces(w, s, q[..|q| - 1]);
    } else {
      assert s + q == s;
    }
  }

  /** Trimming the left of s + q: trailing text survives unless s is all blank. */
  lemma {:induction false} TrimLeftAppend(w: Blanks, s: string, q: string)
    ensures TrimLeft(w, s + q) == if AllBlank(w, s) then TrimLeft(w, q) else TrimLeft(w, s) + q
  {
    if s != [] {
      assert (s + q)[1..] == s[1..] + q;
      if Blank(w, s[0]) {
        TrimLeftAppend(w, s[1..], q);
      }
    } else {
      assert s + q == q;
    }
  }

  lemma {:induction false} TrimRightIdle(w: Blanks, s: string)
    requires s == [] || !Blank(w, s[|s| - 1])
    ensures TrimRight(w, s) == s
  {
  }

  lemma {:induction false} TrimLeftIdle(w: Blanks, s: string)
    requires s == [] || !Blank(w, s[0])
    ensures TrimLeft(w, s) == s
  {
  }

  lemma {:induction false} TrimLeftAllBlank(w: Blanks, s: string)
    requires AllBlank(w, s)
    ensures TrimLeft(w, s) == []
  {
    if s != [] {
      TrimLeftAllBlank(w, s[1..]);
    }
  }

  /** Whitespace of the set w around a string does not change its trim. */
  lemma {:induction false} TrimPadding(w: Blanks, p: string, s: string, q: string)
    requires AllBlank(w, p) && AllBlank(w, q)
    ensures Trim(w, p + s + q) == Trim(w, s)
  {
    assert p + s + q == p + (s + q);
    TrimLeftSpaces(w, p, s + q);
    TrimLeftAppend(w, s, q);
    if AllBlank(w, s) {
      TrimLeftAllBlank(w, q);
      TrimLeftAllBlank(w, s);
    } else {
      TrimRightSpaces(w, TrimLeft(w, s), q);
    }
  }

  /** A string without whitespace of the set w at either end is its own trim. */
  lemma TrimIdle(w: Blanks, s: string)
    requires s == [] || (!Blank(w, s[0]) && !Blank(w, s[|s| - 1]))
    ensures Trim(w, s) == s
  {
    TrimLeftIdle(w, s);
    TrimRightIdle(w, s);
  }

  /** Python's int(x) for a finite float: truncation toward zero. */
  function Truncate(x: real): (r: int)
    ensures x >= 0.0 ==> r as real <= x < r as real + 1.0
    ensures x < 0.0 ==> r as real - 1.0 < x <= r as real
  {
    if x >= 0.0 then x.Floor else -((-x).Floor)
  }

  /** s.replace(c, ""). */
  function Without(s: string, c: char): (r: string)
    ensures forall i :: 0 <= i < |r| ==> r[i] != c
  {
    if s == [] then []
    else if s[0] == c then Without(s[1..], c)
    else [s[0]] + Without(s[1..], c)
  }

  lemma {:induction false} WithoutAppend(a: string, b: string, c: char)
    ensures Without(a + b, c) == Without(a, c) + Without(b, c)
  {
    if a == [] {
      assert a + b == b;
    } else {
      assert (a + b)[0] == a[0] && (a + b)[1..] == a[1..] + b;
      WithoutAppend(a[1..], b, c);
    }
  }

  lemma {:induction false} WithoutIdle(s: string, c: char)
    requires forall i :: 0 <= i < |s| ==> s[i] != c
    ensures Without(s, c) == s
  {
    if s != [] {
      WithoutIdle(s[1..], c);
    }
  }

  /** Digits of the base, where single underscores may stand between two
      digits: Python's digit grouping. */
  predicate DigitGroups(s: string, base: nat) {
    && s != [] && IsDigit(s[0], base) && IsDigit(s[|s| - 1], base)
    && (forall i :: 0 <= i < |s| ==> IsDigit(s[i], base) || s[i] == '_')
    && (forall i :: 0 <= i < |s| - 1 ==> s[i] == '_' ==> s[i + 1] != '_')
  }

  /** Removing the separators c from digits and separators leaves digits. */
  lemma {:induction false} WithoutSeparators(s: string, c: char, base: nat)
    requires forall i :: 0 <= i < |s| ==> IsDigit(s[i], base) || s[i] == c
    ensures AllDigits(Without(s, c), base)
  {
    if s != [] {
      WithoutSeparators(s[1..], c, base);
    }
  }

  /** `0x` or `0X`. */
  predicate HasHexPrefix(s: string) {
    |s| >= 2 && s[0] == '0' && (s[1] == 'x' || s[1] == 'X')
  }

  /** The digits int(t, base) reads: after the whitespace int() skips, the
      sign and, in base 16, a `0x`/`0X` prefix together with one underscore
      after it. */
  function DigitPart(t: string, base: nat): (ds: string)
    ensures |ds| <= |Trim(IntBlanks, t)|
  {
    var u := Trim(IntBlanks, t);
    var body := if u != [] && (u[0] == '-' || u[0] == '+') then u[1..] else u;
    if base == 16 && HasHexPrefix(body) then
      (if |body| > 2 && body[2] == '_' then body[3..] else body[2..])
    else body
  }

  /** Python's int(t, base) for base 10 or 16, on ASCII digits; None when it
      raises ValueError. */
  function PyInt(t: string, base: nat): (r: Option<int>)
    requires base == 10 || base == 16
    ensures r.Some? <==> DigitGroups(DigitPart(t, base), base)
  {
    var ds := DigitPart(t, base);
    if DigitGroups(ds, base) then
      WithoutSeparators(ds, '_', base);
      Some(Signed(Trim(IntBlanks, t), ValueOf(Without(ds, '_'), base)))
    else None
  }

  /** The magnitude n under the sign that u begins with. */
  function Signed(u: string, n: nat): (r: int)
    ensures r == n || r == -(n as int)
    ensures r < 0 ==> u != [] && u[0] == '-'
  {
    if u != [] && u[0] == '-' then -(n as int) else n
  }

  /** Plain digits read as the number they denote. */
  lemma PyIntDigits(d: string, base: nat)
    requires base == 10 || base == 16
    requires d != [] && AllDigits(d, base)
    ensures PyInt(d, base) == Some(ValueOf(d, base))
  {
    PlainDigitPart(d, base);
    assert DigitGroups(d, base) by {
      assert IsDigit(d[0], base) && IsDigit(d[|d| - 1], base);
    }
    WithoutIdle(d, '_');
    assert d[0] != '-';
  }

  /** A minus sign before plain digits negates them. */
  lemma PyIntNegative(d: string, base: nat, n: nat)
    requires base == 10 || base == 16
    requires d != [] && AllDigits(d, base) && ValueOf(d, base) == n
    ensures PyInt("-" + d, base) == Some(-(n as int))
  {
    var t := "-" + d;
    assert t[0] == '-' && t[1..] == d && t[|t| - 1] == d[|d| - 1];
    assert IsDigit(d[|d| - 1], base);
    TrimIdle(IntBlanks, t);
    PlainDigitPart(d, base);
    var ds := DigitPart(t, base);
    assert ds == d;
    assert DigitGroups(ds, base) by {
      assert IsDigit(d[0], base);
    }
    WithoutIdle(d, '_');
    WithoutSeparators(ds, '_', base);
    assert Without(ds, '_') == d;
    assert Signed(Trim(IntBlanks, t), n) == -(n as int);
  }

  /** In base 16, a `0x` or `0X` prefix before plain digits is skipped. */
  lemma PyIntHexPrefix(prefix: string, d: string)
    requires prefix == "0x" || prefix == "0X"
    requires d != [] && AllDigits(d, 16)
    ensures PyInt(prefix + d, 16) == Some(ValueOf(d, 16))
  {
    var t := prefix + d;
    assert t[0] == '0' && t[2..] == d && t[|t| - 1] == d[|d| - 1];
    assert IsDigit(d[|d| - 1], 16);
    TrimIdle(IntBlanks, t);
    assert HasHexPrefix(t);
    assert IsDigit(d[0], 16);
    assert DigitPart(t, 16) == d;
    assert DigitGroups(d, 16);
    WithoutIdle(d, '_');
  }

  /** Plain digits are all int() reads of them. */
  lemma PlainDigitPart(d: string, base: nat)
    requires d != [] && AllDigits(d, base)
    ensures Trim(IntBlanks, d) == d && DigitPart(d, base) == d
  {
    assert IsDigit(d[0], base) && IsDigit(d[|d| - 1], base);
    TrimIdle(IntBlanks, d);
    if |d| >= 2 {
      assert IsDigit(d[1], base);
    }
  }

  /** Whitespace int() skips around the text does not change what it reads. */
  lemma PyIntPadding(p: string, t: string, q: string, base: nat)
    requires base == 10 || base == 16
    requires AllBlank(IntBlanks, p) && AllBlank(IntBlanks, q)
    ensures PyInt(p + t + q, base) == PyInt(t, base)
  {
    TrimPadding(IntBlanks, p, t, q);
  }

  /** A separator U+001C-U+001F before a digit makes int() fail, though
      str.strip() would remove it. */
  lemma PyIntSeparator(c: char, base: nat)
    requires base == 10 || base == 16
    requires '\U{1C}' <= c <= '\U{1F}'
    ensures PyInt([c, '5'], base).None?
    ensures Strip([c, '5']) == "5"
  {
    var t := [c, '5'];
    assert !IntSpace(c) && !IntSpace('5');
    TrimIdle(IntBlanks, t);
    assert DigitPart(t, base) == t;
    assert !IsDigit(c, base);
    assert IsSpace(c) && t[1..] == "5";
    TrimIdle(StrBlanks, "5");
  }

  /** Python's int(v); None when Python raises (TypeError, ValueError, OverflowError). */
  function ToInt(v: Value): (r: Option<int>)
    ensures v.VInt? ==> r == Some(v.i)
    ensures v.VBool? ==> r == Some(if v.b then 1 else 0)
    ensures v.VFloat? && v.f.Finite? ==> r == Some(Truncate(v.f.value))
    ensures v.VStr? ==> r == PyInt(v.s, 10)
    ensures v.VFloat? && v.f.Finite? ==> r.Some? && (r.value == 0 || (r.value < 0 <==> v.f.value < 0.0))
    ensures v.VNone? || v.VList? || v.VDict? || (v.VFloat? && !v.f.Finite?) ==> r.None?
  {
    match v
    case VInt(i) => Some(i)
    case VBool(b) => Some(if b then 1 else 0)
    case VFloat(f) => if f.Finite? then Some(Truncate(f.value)) else None
    case VStr(s) => PyInt(s, 10)
    case _ => None
  }

  /** int() reads back what str() writes for an integer. */
  lemma PyIntDecimal(i: int)
    ensures PyInt(IntToDecimal(i), 10) == Some(i)
  {
    if i < 0 {
      PyIntDecimalNegative(i);
    } else {
      PyIntDecimalNatural(i);
    }
  }

  lemma PyIntDecimalNatural(i: int)
    requires i >= 0
    ensures PyInt(IntToDecimal(i), 10) == Some(i)
  {
    ValueOfRenderMin(i, 10);
    PyIntDigits(RenderMin(i, 10), 10);
  }

  lemma PyIntDecimalNegative(i: int)
    requires i < 0
    ensures PyInt(IntToDecimal(i), 10) == Some(i)
  {
    var n: nat := -i;
    var d := RenderMin(n, 10);
    assert IntToDecimal(i) == "-" + d;
    ValueOfRenderMin(n, 10);
    PyIntNegative(d, 10, n);
  }

  /** int(str(i)) == i, with or without whitespace int() skips around the text. */
  lemma IntStrRoundTrip(i: int, p: string, q: string)
    requires AllBlank(IntBlanks, p) && AllBlank(IntBlanks, q)
    ensures ToInt(VStr(p + Str(VInt(i)) + q)) == Some(i)
  {
    assert Str(VInt(i)) == IntToDecimal(i);
    PyIntPadding(p, IntToDecimal(i), q, 10);
    PyIntDecimal(i);
  }
}
