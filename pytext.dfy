/** The few Python builtins the exporters rely on, stated over `string`
    (a `seq<char>`): `str.lower`, `str.strip`, the decimal rendering of an
    `int` in an f-string, `os.path.join` on POSIX, and Python's `%`. */
module PyText {

  /** Characters for which Python's `str.isspace()` is true. */
  predicate IsSpace(c: char) {
    || ('\t' <= c <= '\r')
    || ('\U{1C}' <= c <= ' ')
    || c == '\U{85}' || c == '\U{A0}' || c == '\U{1680}'
    || ('\U{2000}' <= c <= '\U{200A}')
    || c == '\U{2028}' || c == '\U{2029}' || c == '\U{202F}' || c == '\U{205F}' || c == '\U{3000}'
  }

  function LowerChar(c: char): char {
    if 'A' <= c <= 'Z' then (c as int + 32) as char else c
  }

  /** `str.lower()`, restricted to the ASCII letters. */
  function Lower(s: string): (r: string)
    ensures |r| == |s|
    ensures forall i :: 0 <= i < |s| && !('A' <= s[i] <= 'Z') ==> r[i] == s[i]
    ensures forall i :: 0 <= i < |s| && 'A' <= s[i] <= 'Z' ==> r[i] as int == s[i] as int + 32
  {
    seq(|s|, i requires 0 <= i < |s| => LowerChar(s[i]))
  }

  /** `str.lstrip()`: drops the leading white space, and only that. */
  function StripLeft(s: string): (r: string)
    ensures |r| <= |s| && r == s[|s| - |r|..]
    ensures forall i :: 0 <= i < |s| - |r| ==> IsSpace(s[i])
    ensures r != [] ==> !IsSpace(r[0])
  {
    if s != [] && IsSpace(s[0]) then StripLeft(s[1..]) else s
  }

  /** `str.rstrip()`: drops the trailing white space, and only that. */
  function StripRight(s: string): (r: string)
    ensures |r| <= |s| && r == s[..|r|]
    ensures forall i :: |r| <= i < |s| ==> IsSpace(s[i])
    ensures r != [] ==> !IsSpace(r[|r| - 1])
  {
    if s != [] && IsSpace(s[|s| - 1]) then StripRight(s[..|s| - 1]) else s
  }

  /** `r` sits in `s` at position `i`, and everything of `s` around it is
      white space. */
  predicate StrippedAt(s: string, i: nat, r: string) {
    && i + |r| <= |s| && r == s[i..i + |r|]
    && (forall j :: 0 <= j < i ==> IsSpace(s[j]))
    && (forall j :: i + |r| <= j < |s| ==> IsSpace(s[j]))
  }

  /** `str.strip()`: the longest infix of `s` that neither starts nor ends
      with white space, obtained by removing white space only. */
  function Strip(s: string): (r: string)
    ensures |r| <= |s|
    ensures exists i :: 0 <= i <= |s| && StrippedAt(s, i, r)
    ensures r != [] ==> !IsSpace(r[0]) && !IsSpace(r[|r| - 1])
    ensures r == [] ==> forall i :: 0 <= i < |s| ==> IsSpace(s[i])
  {
    var l := StripLeft(s);
    var r := StripRight(l);
    InfixOfSuffix(s, l, r);
    r
  }

  /** A prefix `r` of a suffix `l` of `s` is an infix of `s`; when what
      surrounds it is white space and it does not start or end with white
      space, it is what `strip` keeps. */
  lemma InfixOfSuffix(s: string, l: string, r: string)
    requires |l| <= |s| && l == s[|s| - |l|..]
    requires forall j :: 0 <= j < |s| - |l| ==> IsSpace(s[j])
    requires l != [] ==> !IsSpace(l[0])
    requires |r| <= |l| && r == l[..|r|]
    requires forall j :: |r| <= j < |l| ==> IsSpace(l[j])
    requires r != [] ==> !IsSpace(r[|r| - 1])
    ensures StrippedAt(s, |s| - |l|, r)
    ensures r != [] ==> !IsSpace(r[0]) && !IsSpace(r[|r| - 1])
    ensures r == [] ==> forall j :: 0 <= j < |s| ==> IsSpace(s[j])
  {
    var i := |s| - |l|;
    forall j | i + |r| <= j < |s|
      ensures IsSpace(s[j])
    {
      assert l[j - i] == s[j];
    }
    if r != [] {
      assert r[0] == l[0];
    }
  }

  /** A string that already neither starts nor ends with white space is
      left alone by `strip`. */
  lemma StripTrimmed(s: string)
    requires s == [] || (!IsSpace(s[0]) && !IsSpace(s[|s| - 1]))
    ensures Strip(s) == s
  {
  }

  predicate IsDigit(c: char) {
    '0' <= c <= '9'
  }

  function DigitChar(d: nat): char
    requires d < 10
  {
    ('0' as int + d) as char
  }

  function DigitValue(c: char): nat
    requires IsDigit(c)
  {
    c as int - '0' as int
  }

  predicate AllDigits(s: string) {
    forall i :: 0 <= i < |s| ==> IsDigit(s[i])
  }

  /** The decimal text of a natural number, as `f"{n}"` renders it. */
  function NatToDecimal(n: nat): (s: string)
    ensures |s| > 0 && AllDigits(s)
    ensures s[0] == '0' ==> n == 0
    decreases n
  {
    if n < 10 then [DigitChar(n)] else NatToDecimal(n / 10) + [DigitChar(n % 10)]
  }

  /** Reads a string of decimal digits back as a number. */
  function DecimalToNat(s: string): nat
    requires AllDigits(s)
  {
    if s == [] then 0 else DecimalToNat(s[..|s| - 1]) * 10 + DigitValue(s[|s| - 1])
  }

  /** Rendering a natural number and reading it back gives the number. */
  lemma {:induction false} DecimalRoundTrip(n: nat)
    ensures DecimalToNat(NatToDecimal(n)) == n
  {
    var s := NatToDecimal(n);
    if n >= 10 {
      DecimalRoundTrip(n / 10);
      assert s[..|s| - 1] == NatToDecimal(n / 10);
    }
  }

  /** The decimal text of an integer, with a leading `-` when negative. */
  function IntToDecimal(n: int): (s: string)
    ensures |s| > 0
    ensures (s[0] == '-') == (n < 0)
  {
    if n < 0 then "-" + NatToDecimal(-n) else NatToDecimal(n)
  }

  /** Distinct natural numbers render to distinct texts. */
  lemma NatToDecimalInjective(m: nat, n: nat)
    requires NatToDecimal(m) == NatToDecimal(n)
    ensures m == n
  {
    DecimalRoundTrip(m);
    DecimalRoundTrip(n);
  }

  /** Distinct integers render to distinct texts. */
  lemma IntToDecimalInjective(a: int, b: int)
    requires IntToDecimal(a) == IntToDecimal(b)
    ensures a == b
  {
    var s := IntToDecimal(a);
    if a < 0 {
      assert b < 0;
      assert NatToDecimal(-a) == NatToDecimal(-b) by {
        assert s[1..] == NatToDecimal(-a);
        assert s[1..] == NatToDecimal(-b);
      }
      NatToDecimalInjective(-a, -b);
    } else {
      assert b >= 0;
      NatToDecimalInjective(a, b);
    }
  }

  /** `os.path.join(a, b)` on POSIX: an absolute `b` replaces `a`; otherwise
      `b` is appended, with a `/` between unless `a` is empty or already ends
      with one. */
  function JoinPath(a: string, b: string): (r: string)
    ensures |r| >= |b| && r[|r| - |b|..] == b
    ensures (b == [] || b[0] != '/') ==> |r| >= |a| && r[..|a|] == a
    ensures (b == [] || b[0] != '/') && a != [] && a[|a| - 1] != '/' ==> r == a + "/" + b
  {
    if b != [] && b[0] == '/' then b
    else if a == [] || a[|a| - 1] == '/' then a + b
    else a + "/" + b
  }

  /** Joining one directory with two relative names gives the same path
      only when the names are the same. */
  lemma JoinPathCancel(a: string, b1: string, b2: string)
    requires b1 != [] && b1[0] != '/' && b2 != [] && b2[0] != '/'
    requires JoinPath(a, b1) == JoinPath(a, b2)
    ensures b1 == b2
  {
    var k := if a == [] || a[|a| - 1] == '/' then |a| else |a| + 1;
    assert JoinPath(a, b1)[k..] == b1;
    assert JoinPath(a, b2)[k..] == b2;
  }

  /** Python's `a % b` for integers: the remainder takes the sign of the
      divisor (Dafny's `%` is Euclidean), and `b == 0` is an error that the
      caller models. */
  function PyMod(a: int, b: int): (r: int)
    requires b != 0
    ensures b > 0 ==> 0 <= r < b
    ensures b < 0 ==> b < r <= 0
    ensures r == 0 <==> a % b == 0
    ensures exists q :: a == q * b + r
  {
    var m := a % b;
    if b > 0 || m == 0 then
      assert a == (a / b) * b + m;
      m
    else
      assert a == (a / b - 1) * b + (m + b);
      m + b
  }
}
