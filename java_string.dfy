/** The `java.lang.String` operations the rules and the detection service
    rely on: `trim`, `toUpperCase`, `toLowerCase`, `equalsIgnoreCase`,
    `String.join`, and the decimal text of numbers that string
    concatenation produces. Case mapping is ASCII only. */
module JavaString {

  /** `String.trim` removes every leading and trailing character whose code
      is at most U+0020. */
  predicate TrimsAway(c: char) {
    c <= ' '
  }

  function TrimStart(s: string): (r: string)
    ensures |r| <= |s| && r == s[|s| - |r|..]
    ensures r == [] || !TrimsAway(r[0])
    ensures forall i :: 0 <= i < |s| - |r| ==> TrimsAway(s[i])
  {
    if |s| > 0 && TrimsAway(s[0]) then TrimStart(s[1..]) else s
  }

  function TrimEnd(s: string): (r: string)
    ensures |r| <= |s| && r == s[..|r|]
    ensures r == [] || !TrimsAway(r[|r| - 1])
    ensures forall i :: |r| <= i < |s| ==> TrimsAway(s[i])
  {
    if |s| > 0 && TrimsAway(s[|s| - 1]) then TrimEnd(s[..|s| - 1]) else s
  }

  /** Java's `s.trim()`. */
  function Trim(s: string): (r: string)
    ensures r == [] || (!TrimsAway(r[0]) && !TrimsAway(r[|r| - 1]))
  {
    TrimEnd(TrimStart(s))
  }

  /** Blank padding on either side: all its characters are removed by
      `trim`. */
  predicate Blank(p: string) {
    forall i :: 0 <= i < |p| ==> TrimsAway(p[i])
  }

  lemma {:induction false} TrimStartPadded(p: string, s: string)
    requires Blank(p)
    ensures TrimStart(p + s) == TrimStart(s)
    decreases |p|
  {
    if p != [] {
      assert (p + s)[1..] == p[1..] + s;
      TrimStartPadded(p[1..], s);
    } else {
      assert p + s == s;
    }
  }

  lemma {:induction false} TrimEndPadded(s: string, p: string)
    requires Blank(p)
    ensures TrimEnd(s + p) == TrimEnd(s)
    decreases |p|
  {
    if p != [] {
      var q := p[..|p| - 1];
      assert (s + p)[..|s + p| - 1] == s + q;
      TrimEndPadded(s, q);
    } else {
      assert s + p == s;
    }
  }

  lemma {:induction false} TrimStartOfTrimmedEnd(s: string)
    requires s == [] || !TrimsAway(s[|s| - 1])
    ensures TrimEnd(TrimStart(s)) == TrimStart(s)
  {
    var t := TrimStart(s);
    assert t == s[|s| - |t|..];
  }

  /** Surrounding blanks never change the trimmed text: `trim` makes the
      comparisons of the rules insensitive to leading and trailing
      whitespace. */
  lemma {:induction false} TrimIgnoresPadding(p: string, s: string, q: string)
    requires Blank(p) && Blank(q)
    ensures Trim(p + s + q) == Trim(s)
  {
    assert p + s + q == p + (s + q);
    TrimStartPadded(p, s + q);
    if TrimStart(s) == [] {
      BlankSuffix(s, q);
      BlankTrimsAway(s + q);
    } else {
      TrimStartAppend(s, q);
      TrimEndPadded(TrimStart(s), q);
    }
  }

  /** A string that `trim` empties on the left stays blank with blank
      padding appended. */
  lemma BlankSuffix(s: string, q: string)
    requires TrimStart(s) == [] && Blank(q)
    ensures Blank(s + q)
  {
    assert forall i :: 0 <= i < |s| ==> TrimsAway(s[i]);
  }

  lemma BlankTrimsAway(x: string)
    requires Blank(x)
    ensures TrimStart(x) == []
  {
    TrimStartPadded(x, []);
    assert x + [] == x;
  }

  lemma {:induction false} TrimStartAppend(s: string, q: string)
    requires TrimStart(s) != []
    ensures TrimStart(s + q) == TrimStart(s) + q
    decreases |s|
  {
    if TrimsAway(s[0]) {
      assert (s + q)[1..] == s[1..] + q;
      TrimStartAppend(s[1..], q);
    }
  }

  /** `trim` is idempotent. */
  lemma TrimIdempotent(s: string)
    ensures Trim(Trim(s)) == Trim(s)
  {
    var t := Trim(s);
    if t != [] {
      TrimStartOfTrimmedEnd(t);
      assert TrimStart(t) == t;
    }
  }

  /** ASCII `Character.toUpperCase` and `Character.toLowerCase`. */
  function UpperChar(c: char): char {
    if 'a' <= c <= 'z' then (c as int - 32) as char else c
  }

  function LowerChar(c: char): char {
    if 'A' <= c <= 'Z' then (c as int + 32) as char else c
  }

  function ToUpper(s: string): (r: string)
    ensures |r| == |s| && forall i :: 0 <= i < |s| ==> r[i] == UpperChar(s[i])
  {
    seq(|s|, i requires 0 <= i < |s| => UpperChar(s[i]))
  }

  function ToLower(s: string): (r: string)
    ensures |r| == |s| && forall i :: 0 <= i < |s| ==> r[i] == LowerChar(s[i])
  {
    seq(|s|, i requires 0 <= i < |s| => LowerChar(s[i]))
  }

  /** One character step of `String.equalsIgnoreCase` (as
      `regionMatches(true, ...)` does it): equal, or equal after upper
      casing, or equal after upper then lower casing. */
  predicate CharEqualsIgnoreCase(c: char, d: char) {
    c == d || UpperChar(c) == UpperChar(d) || LowerChar(UpperChar(c)) == LowerChar(UpperChar(d))
  }

  /** Java's `a.equalsIgnoreCase(b)` for a non-null `b`. */
  predicate EqualsIgnoreCase(a: string, b: string) {
    |a| == |b| && forall i :: 0 <= i < |a| ==> CharEqualsIgnoreCase(a[i], b[i])
  }

  lemma CharIgnoreCaseIffUpper(c: char, d: char)
    ensures CharEqualsIgnoreCase(c, d) <==> UpperChar(c) == UpperChar(d)
    ensures CharEqualsIgnoreCase(c, d) <==> LowerChar(c) == LowerChar(d)
  {
  }

  /** Comparing ignoring case is comparing the upper-cased strings, so a set
      normalised to upper case can answer `equalsIgnoreCase` queries. */
  lemma IgnoreCaseIffUpperEqual(a: string, b: string)
    ensures EqualsIgnoreCase(a, b) <==> ToUpper(a) == ToUpper(b)
  {
    if EqualsIgnoreCase(a, b) {
      forall i | 0 <= i < |a| ensures ToUpper(a)[i] == ToUpper(b)[i] {
        CharIgnoreCaseIffUpper(a[i], b[i]);
      }
    }
    if ToUpper(a) == ToUpper(b) {
      forall i | 0 <= i < |a| ensures CharEqualsIgnoreCase(a[i], b[i]) {
        assert ToUpper(a)[i] == ToUpper(b)[i];
        CharIgnoreCaseIffUpper(a[i], b[i]);
      }
    }
  }

  /** The same with lower casing. */
  lemma IgnoreCaseIffLowerEqual(a: string, b: string)
    ensures EqualsIgnoreCase(a, b) <==> ToLower(a) == ToLower(b)
  {
    if EqualsIgnoreCase(a, b) {
      forall i | 0 <= i < |a| ensures ToLower(a)[i] == ToLower(b)[i] {
        CharIgnoreCaseIffUpper(a[i], b[i]);
      }
    }
    if ToLower(a) == ToLower(b) {
      forall i | 0 <= i < |a| ensures CharEqualsIgnoreCase(a[i], b[i]) {
        assert ToLower(a)[i] == ToLower(b)[i];
        CharIgnoreCaseIffUpper(a[i], b[i]);
      }
    }
  }

  /** `equalsIgnoreCase` is an equivalence relation. */
  lemma IgnoreCaseEquivalence(a: string, b: string, c: string)
    ensures EqualsIgnoreCase(a, a)
    ensures EqualsIgnoreCase(a, b) ==> EqualsIgnoreCase(b, a)
    ensures EqualsIgnoreCase(a, b) && EqualsIgnoreCase(b, c) ==> EqualsIgnoreCase(a, c)
  {
    IgnoreCaseIffUpperEqual(a, a);
    IgnoreCaseIffUpperEqual(a, b);
    IgnoreCaseIffUpperEqual(b, a);
    IgnoreCaseIffUpperEqual(b, c);
    IgnoreCaseIffUpperEqual(a, c);
  }

  /** Java's `String.join(sep, parts)`. */
  function Join(sep: string, parts: seq<string>): (r: string)
    ensures parts == [] ==> r == ""
    ensures |parts| == 1 ==> r == parts[0]
  {
    if parts == [] then ""
    else if |parts| == 1 then parts[0]
    else parts[0] + sep + Join(sep, parts[1..])
  }

  /** Appending one more part adds the separator and that part at the end. */
  lemma {:induction false} JoinSnoc(sep: string, parts: seq<string>, x: string)
    requires parts != []
    ensures Join(sep, parts + [x]) == Join(sep, parts) + sep + x
    decreases |parts|
  {
    if |parts| == 1 {
      assert (parts + [x])[1..] == [x];
    } else {
      assert (parts + [x])[1..] == parts[1..] + [x];
      JoinSnoc(sep, parts[1..], x);
    }
  }

  function DigitChar(d: nat): char
    requires d < 10
  {
    ('0' as int + d) as char
  }

  /** The decimal digits of a non-negative integer, most significant first. */
  function NatText(n: nat): (r: string)
    ensures r != []
    ensures forall i :: 0 <= i < |r| ==> '0' <= r[i] <= '9'
  {
    if n < 10 then [DigitChar(n)] else NatText(n / 10) + [DigitChar(n % 10)]
  }

  /** The number a string of decimal digits denotes. */
  function DigitsValue(s: string): int {
    if s == [] then 0 else DigitsValue(s[..|s| - 1]) * 10 + (s[|s| - 1] as int - '0' as int)
  }

  /** The decimal text of `n` denotes `n`, and it has no leading zero: it is
      "0" for zero and starts with a non-zero digit otherwise. */
  lemma {:induction false} NatTextValue(n: nat)
    ensures DigitsValue(NatText(n)) == n
    ensures n == 0 ==> NatText(n) == "0"
    ensures n > 0 ==> NatText(n)[0] != '0'
  {
    if n >= 10 {
      var s := NatText(n);
      NatTextValue(n / 10);
      assert s[..|s| - 1] == NatText(n / 10);
      assert s[0] == NatText(n / 10)[0];
    }
  }

  /** Java's `"" + n` for an `int` (or `long`) `n`. */
  function IntText(n: int): string {
    if n < 0 then "-" + NatText(-n) else NatText(n)
  }

  /** The digits after the decimal point of `f` in [0, 1), at most `fuel`
      of them. */
  function FractionDigits(f: real, fuel: nat): string
    requires 0.0 <= f < 1.0
    decreases fuel
  {
    if f == 0.0 || fuel == 0 then ""
    else
      var d := (f * 10.0).Floor;
      [DigitChar(d)] + FractionDigits(f * 10.0 - d as real, fuel - 1)
  }

  /** `"" + amount` for a `double` amount written in plain decimal
      notation: the integer part, a point, and the fraction digits (at
      least one). */
  function AmountText(a: real): string {
    if a < 0.0 then "-" + MagnitudeText(-a) else MagnitudeText(a)
  }

  function MagnitudeText(a: real): string
    requires a >= 0.0
  {
    var f := a - a.Floor as real;
    NatText(a.Floor) + "." + (if f == 0.0 then "0" else FractionDigits(f, 17))
  }
}
