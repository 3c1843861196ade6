/** String helpers with the semantics of the corresponding Python built-ins:
    `str.split()` with no separator, `sep.join`, decimal formatting and
    parsing of integers, code-point string ordering and `sorted` over a set
    of strings. */
module Text {

  import opened Values

  /** The characters `str.isspace()` accepts, which `str.split()` splits on. */
  predicate IsSpace(c: char) {
    ('\t' <= c <= '\r') || ('\U{1C}' <= c <= '\U{1F}') || c == ' ' ||
    c == '\U{85}' || c == '\U{A0}' || c == '\U{1680}' ||
    ('\U{2000}' <= c <= '\U{200A}') || c == '\U{2028}' || c == '\U{2029}' ||
    c == '\U{202F}' || c == '\U{205F}' || c == '\U{3000}'
  }

  predicate NoSpace(w: string) {
    forall i :: 0 <= i < |w| ==> !IsSpace(w[i])
  }

  /** A word as `str.split()` produces it: non-empty, without whitespace. */
  predicate IsWord(w: string) {
    w != [] && NoSpace(w)
  }

  /** Length of the word at the start of `s`. */
  function WordLen(s: string): (n: nat)
    requires s != [] && !IsSpace(s[0])
    ensures 1 <= n <= |s| && IsWord(s[..n])
    ensures n < |s| ==> IsSpace(s[n])
  {
    if |s| == 1 || IsSpace(s[1]) then 1
    else
      var n := 1 + WordLen(s[1..]);
      assert s[..n] == [s[0]] + s[1..][..n - 1];
      n
  }

  /** `s.split()`: the maximal runs of non-whitespace characters, in order. */
  function Words(s: string): (ws: seq<string>)
    ensures forall i :: 0 <= i < |ws| ==> IsWord(ws[i])
    decreases |s|
  {
    if s == [] then []
    else if IsSpace(s[0]) then Words(s[1..])
    else
      var n := WordLen(s);
      [s[..n]] + Words(s[n..])
  }

  /** `sep.join(ws)`. */
  function Join(sep: string, ws: seq<string>): string {
    if ws == [] then ""
    else if |ws| == 1 then ws[0]
    else ws[0] + sep + Join(sep, ws[1..])
  }

  /** `w in s` for strings: `w` occurs as a contiguous slice of `s`. */
  ghost predicate IsFactor(w: string, s: string) {
    exists i, j :: 0 <= i <= j <= |s| && s[i..j] == w
  }

  /** Every joined piece occurs in the joined string. */
  lemma {:induction false} JoinHasFactor(sep: string, ws: seq<string>, k: nat)
    requires k < |ws|
    ensures IsFactor(ws[k], Join(sep, ws))
  {
    var s := Join(sep, ws);
    if |ws| == 1 {
      assert s[0..|s|] == ws[k];
    } else if k == 0 {
      assert s[0..|ws[0]|] == ws[0];
    } else {
      JoinHasFactor(sep, ws[1..], k - 1);
      var rest := Join(sep, ws[1..]);
      var i, j :| 0 <= i <= j <= |rest| && rest[i..j] == ws[1..][k - 1];
      var off := |ws[0] + sep|;
      assert s == (ws[0] + sep) + rest;
      assert s[off + i..off + j] == rest[i..j];
    }
  }

  lemma {:induction false} WordLenOfWord(w: string, t: string)
    requires IsWord(w)
    requires t == [] || IsSpace(t[0])
    ensures WordLen(w + t) == |w|
    decreases |w|
  {
    var s := w + t;
    if |w| == 1 {
      assert |s| == 1 || s[1] == t[0];
    } else {
      assert s[1] == w[1];
      assert s[1..] == w[1..] + t;
      WordLenOfWord(w[1..], t);
    }
  }

  lemma {:induction false} WordsOfLeadingWord(w: string, t: string)
    requires IsWord(w)
    requires t == [] || IsSpace(t[0])
    ensures Words(w + t) == [w] + Words(t)
  {
    WordLenOfWord(w, t);
    var s := w + t;
    assert s[..|w|] == w;
    assert s[|w|..] == t;
  }

  /** Joining words with single spaces and splitting again gives the words
      back. */
  lemma {:induction false} WordsOfJoin(ws: seq<string>)
    requires forall i :: 0 <= i < |ws| ==> IsWord(ws[i])
    ensures Words(Join(" ", ws)) == ws
  {
    if ws == [] {
    } else if |ws| == 1 {
      WordsOfLeadingWord(ws[0], []);
      assert ws[0] + [] == ws[0];
    } else {
      var rest := Join(" ", ws[1..]);
      WordsOfJoin(ws[1..]);
      assert Words(" " + rest) == Words(rest) by {
        assert (" " + rest)[1..] == rest;
      }
      WordsOfLeadingWord(ws[0], " " + rest);
      assert ws[0] + " " + rest == ws[0] + (" " + rest);
      assert ws == [ws[0]] + ws[1..];
    }
  }

  // ---- decimal integers ----

  function DigitChar(d: nat): (c: char)
    requires d < 10
    ensures '0' <= c <= '9'
  {
    ['0', '1', '2', '3', '4', '5', '6', '7', '8', '9'][d]
  }

  function DigitValue(c: char): (d: nat)
    requires '0' <= c <= '9'
    ensures d < 10 && DigitChar(d) == c
  {
    (c as int - '0' as int) as nat
  }

  predicate IsDigits(s: string) {
    s != [] && forall i :: 0 <= i < |s| ==> '0' <= s[i] <= '9'
  }

  /** Decimal notation of a natural number, as `str(n)` gives it. */
  function NatToString(n: nat): (s: string)
    ensures IsDigits(s)
  {
    if n < 10 then [DigitChar(n)] else NatToString(n / 10) + [DigitChar(n % 10)]
  }

  /** `str(i)` for an int: a minus sign before negative numbers. */
  function IntToString(i: int): string {
    if i < 0 then "-" + NatToString(-i) else NatToString(i)
  }

  /** The number a string of decimal digits denotes. */
  function DigitsValue(s: string): nat
    requires forall i :: 0 <= i < |s| ==> '0' <= s[i] <= '9'
  {
    if s == [] then 0 else DigitsValue(s[..|s| - 1]) * 10 + DigitValue(s[|s| - 1])
  }

  /** `int(s)` for a string of an optional sign followed by decimal digits;
      None where Python raises ValueError. */
  function ParseInt(s: string): (r: Option<int>)
    ensures r.Some? ==> s != []
  {
    if s != [] && (s[0] == '-' || s[0] == '+') && IsDigits(s[1..]) then
      Some(if s[0] == '-' then 0 - DigitsValue(s[1..]) else DigitsValue(s[1..]) as int)
    else if IsDigits(s) then Some(DigitsValue(s))
    else None
  }

  // ---- plain decimal numbers ----

  function Pow10(n: nat): (p: nat)
    ensures p >= 1
  {
    if n == 0 then 1 else 10 * Pow10(n - 1)
  }

  predicate AllDigits(s: string) {
    forall i :: 0 <= i < |s| ==> '0' <= s[i] <= '9'
  }

  /** The position of the first `.` in `s`, if there is one. */
  function PointAt(s: string): (r: Option<nat>)
    ensures r.Some? ==> r.value < |s| && s[r.value] == '.' && '.' !in s[..r.value]
    ensures r.None? ==> '.' !in s
  {
    if s == [] then None
    else if s[0] == '.' then Some(0)
    else
      var rest := PointAt(s[1..]);
      assert s == [s[0]] + s[1..];
      if rest.None? then None
      else
        assert s[..rest.value + 1] == [s[0]] + s[1..][..rest.value];
        Some(rest.value + 1)
  }

  /** Digits with at most one `.` among them and at least one digit: the
      number they denote. */
  function UnsignedDecimal(s: string): Option<real> {
    var point := PointAt(s);
    if point.None? then
      if IsDigits(s) then Some(DigitsValue(s) as real) else None
    else
      var whole := s[..point.value];
      var fraction := s[point.value + 1..];
      if AllDigits(whole) && AllDigits(fraction) && (whole != [] || fraction != []) then
        Some(DecimalValue(whole, fraction))
      else None
  }

  /** The number `whole.fraction` denotes. */
  function DecimalValue(whole: string, fraction: string): real
    requires AllDigits(whole) && AllDigits(fraction)
  {
    DigitsValue(whole) as real + DigitsValue(fraction) as real / Pow10(|fraction|) as real
  }

  /** `float(s)` for a string of an optional sign followed by a plain
      decimal (`12`, `-0.5`, `.25`, `3.`); None where the model has Python
      raise ValueError. */
  function ParseDecimal(s: string): (r: Option<real>)
    ensures ParseInt(s).Some? ==> r == Some(ParseInt(s).value as real)
  {
    if s != [] && (s[0] == '-' || s[0] == '+') then
      var u := UnsignedDecimal(s[1..]);
      if u.None? then None else Some(if s[0] == '-' then -u.value else u.value)
    else UnsignedDecimal(s)
  }

  /** Digits read left to right: the value of `w + f` shifts `w` by the
      length of `f`. */
  lemma {:induction false} DigitsValueAppend(w: string, f: string)
    requires AllDigits(w) && AllDigits(f)
    ensures DigitsValue(w + f) == DigitsValue(w) * Pow10(|f|) + DigitsValue(f)
    decreases |f|
  {
    if f == [] {
      assert w + f == w;
    } else {
      var g, c := f[..|f| - 1], f[|f| - 1];
      assert (w + f)[..|w + f| - 1] == w + g;
      assert f[..|f| - 1] == g;
      DigitsValueAppend(w, g);
      var a, b, d, e := DigitsValue(w), Pow10(|g|), DigitsValue(g), DigitValue(c);
      assert DigitsValue(w + f) == DigitsValue(w + g) * 10 + e;
      assert Pow10(|f|) == 10 * b && DigitsValue(f) == d * 10 + e;
      ShiftDigit(a, b, d, e);
    }
  }

  lemma ShiftDigit(a: int, b: int, d: int, e: int)
    ensures (a * b + d) * 10 + e == a * (10 * b) + (d * 10 + e)
  {
  }

  /** Where the first `.` of `w + "." + f` stands when `w` has none. */
  lemma PointAfterWhole(w: string, f: string)
    requires AllDigits(w)
    ensures PointAt(w + "." + f) == Some(|w|)
  {
    var s := w + "." + f;
    assert s[|w|] == '.';
    assert forall i :: 0 <= i < |w| ==> s[i] == w[i];
    assert forall k :: |w| < k <= |s| ==> s[..k][|w|] == '.';
  }

  /** `float(w + "." + f)` for digit strings `w` and `f`, not both empty,
      is the integer their digits spell divided by ten to the number of
      fraction digits. */
  lemma ParseDecimalPoint(w: string, f: string)
    requires AllDigits(w) && AllDigits(f) && w + f != []
    ensures ParseDecimal(w + "." + f) == Some(ParseInt(w + f).value as real / Pow10(|f|) as real)
  {
    ParseIntOfDigits(w + f);
    ParseDecimalOfPoint(w, f);
    ShiftFraction(w, f);
  }

  lemma ParseIntOfDigits(digits: string)
    requires AllDigits(digits) && digits != []
    ensures ParseInt(digits) == Some(DigitsValue(digits) as int)
  {
    assert IsDigits(digits) && digits[0] != '-' && digits[0] != '+';
  }

  lemma ParseDecimalOfPoint(w: string, f: string)
    requires AllDigits(w) && AllDigits(f) && w + f != []
    ensures ParseDecimal(w + "." + f) == Some(DecimalValue(w, f))
  {
    var s := w + "." + f;
    PointAfterWhole(w, f);
    assert s[..|w|] == w && s[|w| + 1..] == f;
    assert s[0] != '-' && s[0] != '+' by {
      if w != [] {
        assert s[0] == w[0];
      }
    }
    assert |w + f| == |w| + |f|;
    UnsignedOfPoint(s, w, f);
  }

  lemma UnsignedOfPoint(s: string, w: string, f: string)
    requires PointAt(s) == Some(|w|) && |w| < |s| && s[..|w|] == w && s[|w| + 1..] == f
    requires AllDigits(w) && AllDigits(f) && (w != [] || f != [])
    ensures UnsignedDecimal(s) == Some(DecimalValue(w, f))
  {
    assert s[..|w|] == w && s[|w| + 1..] == f;
  }

  lemma ShiftFraction(w: string, f: string)
    requires AllDigits(w) && AllDigits(f)
    ensures DecimalValue(w, f) == DigitsValue(w + f) as real / Pow10(|f|) as real
  {
    DigitsValueAppend(w, f);
    DecimalShift(DigitsValue(w), DigitsValue(f), Pow10(|f|), DigitsValue(w + f));
  }

  lemma DecimalShift(x: int, y: int, q: int, n: int)
    requires q >= 1 && n == x * q + y
    ensures x as real + y as real / q as real == n as real / q as real
  {
    CastShift(n, x, q, y);
    RealShift(x as real, y as real, q as real, n as real);
  }

  lemma CastShift(n: int, a: int, p: int, d: int)
    requires n == a * p + d
    ensures n as real == a as real * p as real + d as real
  {
  }

  lemma RealShift(a: real, d: real, p: real, n: real)
    requires p > 0.0 && n == a * p + d
    ensures a + d / p == n / p
  {
  }

  /** A decimal fraction reads as its value: `float("0.5") == 0.5`. */
  lemma ParseHalf()
    ensures ParseDecimal("0.5") == Some(0.5)
  {
    assert PointAt("0.5") == Some(1) by {
      assert "0.5"[1..] == ".5";
    }
    assert "0.5"[..1] == "0" && "0.5"[2..] == "5";
    assert DigitsValue("0") == 0 by {
      assert "0"[..0] == [];
    }
    assert DigitsValue("5") == 5 by {
      assert "5"[..0] == [];
    }
  }

  lemma {:induction false} DigitsValueOfNatToString(n: nat)
    ensures DigitsValue(NatToString(n)) == n
  {
    if n >= 10 {
      var s := NatToString(n);
      DigitsValueOfNatToString(n / 10);
      assert s[..|s| - 1] == NatToString(n / 10);
    }
  }

  /** Parsing undoes formatting: `int(str(i)) == i`. */
  lemma ParseIntOfIntToString(i: int)
    ensures ParseInt(IntToString(i)) == Some(i)
  {
    if i < 0 {
      ParseSignedDigits(i);
    } else {
      ParseDigits(i);
    }
  }

  lemma ParseDigits(i: int)
    requires i >= 0
    ensures ParseInt(IntToString(i)) == Some(i)
  {
    var s := NatToString(i);
    assert IntToString(i) == s;
    DigitsValueOfNatToString(i);
    assert '0' <= s[0] <= '9';
  }

  lemma ParseSignedDigits(i: int)
    requires i < 0
    ensures ParseInt(IntToString(i)) == Some(i)
  {
    var n: nat := -i;
    DigitsValueOfNatToString(n);
    ParseNegated(NatToString(n));
    assert IntToString(i) == "-" + NatToString(n);
  }

  lemma ParseNegated(digits: string)
    requires IsDigits(digits)
    ensures ParseInt("-" + digits) == Some(0 - DigitsValue(digits))
  {
    assert ("-" + digits)[0] == '-' && ("-" + digits)[1..] == digits;
  }

  /** `str(v)` (and so `f"{v}"`) where the model fixes it: None, booleans,
      integers and strings. Floats, lists and dicts give None here. */
  function Display(v: Value): (r: Option<string>)
    ensures r.Some? <==> v.VNone? || v.VBool? || v.VInt? || v.VStr?
    ensures v.VStr? ==> r == Some(v.s)
  {
    match v
    case VNone => Some("None")
    case VBool(b) => Some(if b then "True" else "False")
    case VInt(i) => Some(IntToString(i))
    case VStr(s) => Some(s)
    case _ => None
  }

  /** An integer displays as the digits `int()` reads back. */
  lemma DisplayIntParses(i: int)
    ensures Display(VInt(i)).Some? && ParseInt(Display(VInt(i)).value) == Some(i)
  {
    ParseIntOfIntToString(i);
  }

  // ---- code-point ordering and sorting ----

  /** Python's `<` on strings: lexicographic by code point. */
  predicate StrLt(a: string, b: string) {
    if a == [] then b != []
    else if b == [] then false
    else a[0] < b[0] || (a[0] == b[0] && StrLt(a[1..], b[1..]))
  }

  lemma {:induction false} StrLtIrreflexive(a: string)
    ensures !StrLt(a, a)
  {
    if a != [] { StrLtIrreflexive(a[1..]); }
  }

  lemma {:induction false} StrLtTransitive(a: string, b: string, c: string)
    requires StrLt(a, b) && StrLt(b, c)
    ensures StrLt(a, c)
  {
    if a != [] && b != [] && c != [] && a[0] == b[0] && b[0] == c[0] {
      StrLtTransitive(a[1..], b[1..], c[1..]);
    }
  }

  lemma {:induction false} StrLtTotal(a: string, b: string)
    ensures a == b || StrLt(a, b) || StrLt(b, a)
  {
    if a != [] && b != [] && a[0] == b[0] {
      StrLtTotal(a[1..], b[1..]);
      if a[1..] == b[1..] {
        assert a == [a[0]] + a[1..] && b == [b[0]] + b[1..];
      }
    }
  }

  lemma {:induction false} StrLtAsymmetric(a: string, b: string)
    requires StrLt(a, b)
    ensures !StrLt(b, a)
  {
    if StrLt(b, a) {
      StrLtTransitive(a, b, a);
      StrLtIrreflexive(a);
    }
  }

  predicate IsLeast(m: string, s: set<string>) {
    m in s && forall x :: x in s && x != m ==> StrLt(m, x)
  }

  lemma {:induction false} LeastExists(s: set<string>)
    requires s != {}
    ensures exists m :: IsLeast(m, s)
    decreases |s|
  {
    var x :| x in s;
    var rest := s - {x};
    if rest == {} {
      assert s == {x};
      assert IsLeast(x, s);
    } else {
      LeastExists(rest);
      var m :| IsLeast(m, rest);
      StrLtTotal(m, x);
      if StrLt(x, m) {
        forall y | y in s && y != x ensures StrLt(x, y) {
          if y != m { StrLtTransitive(x, m, y); }
        }
        assert IsLeast(x, s);
      } else {
        assert IsLeast(m, s);
      }
    }
  }

  lemma LeastUnique(s: set<string>)
    ensures forall m, n :: IsLeast(m, s) && IsLeast(n, s) ==> m == n
  {
    forall m, n | IsLeast(m, s) && IsLeast(n, s) ensures m == n {
      if m != n { StrLtAsymmetric(m, n); }
    }
  }

  predicate StrictlyIncreasing(r: seq<string>) {
    forall i, j :: 0 <= i < j < |r| ==> StrLt(r[i], r[j])
  }

  /** `sorted(s)` for a set of strings: its elements in increasing order. */
  function SortedStrings(s: set<string>): (r: seq<string>)
    ensures |r| == |s|
    ensures forall x :: x in r <==> x in s
    ensures StrictlyIncreasing(r)
    decreases |s|
  {
    if s == {} then []
    else
      LeastExists(s);
      LeastUnique(s);
      var m :| IsLeast(m, s);
      var rest := SortedStrings(s - {m});
      assert forall i :: 0 <= i < |rest| ==> rest[i] in s - {m};
      [m] + rest
  }
}
