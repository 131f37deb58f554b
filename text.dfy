/** The Python string built-ins the system relies on: `str.upper()`, `str.strip()` and
    formatting an int into an f-string. */
module Text {

  // ---------------------------------------------------------------- upper case

  /** `c.upper()` for one character, over ASCII and Latin-1. The German sharp s becomes two
      letters, micro sign and y-diaeresis leave Latin-1; every other character is kept. */
  function UpperChar(c: char): string
  {
    if 'a' <= c <= 'z' then [(c as int - 32) as char]
    else if c == '\U{DF}' then "SS"
    else if c == '\U{B5}' then ['\U{39C}']
    else if c == '\U{FF}' then ['\U{178}']
    else if '\U{E0}' <= c <= '\U{FE}' && c != '\U{F7}' then [(c as int - 32) as char]
    else [c]
  }

  /** `s.upper()`. */
  function Upper(s: string): (r: string)
    ensures |r| >= |s|
    ensures r == [] <==> s == []
  {
    if s == [] then [] else UpperChar(s[0]) + Upper(s[1..])
  }

  /** Every character of s is its own upper case. */
  ghost predicate IsUpperCase(s: string)
  {
    forall i :: 0 <= i < |s| ==> UpperChar(s[i]) == [s[i]]
  }

  lemma UpperCharIsUpperCase(c: char)
    ensures IsUpperCase(UpperChar(c))
  {
  }

  lemma {:induction false} UpperAppend(a: string, b: string)
    ensures Upper(a + b) == Upper(a) + Upper(b)
  {
    if a == [] {
      assert a + b == b;
    } else {
      assert (a + b)[1..] == a[1..] + b;
      UpperAppend(a[1..], b);
    }
  }

  lemma {:induction false} UpperMakesUpperCase(s: string)
    ensures IsUpperCase(Upper(s))
  {
    if s != [] {
      UpperCharIsUpperCase(s[0]);
      UpperMakesUpperCase(s[1..]);
    }
  }

  lemma {:induction false} UpperOfUpperCase(s: string)
    requires IsUpperCase(s)
    ensures Upper(s) == s
  {
    if s != [] {
      assert IsUpperCase(s[1..]) by {
        forall i | 0 <= i < |s[1..]| ensures UpperChar(s[1..][i]) == [s[1..][i]] {
          assert s[1..][i] == s[i + 1];
        }
      }
      UpperOfUpperCase(s[1..]);
      assert UpperChar(s[0]) == [s[0]];
      assert s == [s[0]] + s[1..];
    }
  }

  /** Upper-casing twice is upper-casing once: a query that is already upper-cased is
      looked up exactly as the original. */
  lemma UpperIdempotent(s: string)
    ensures Upper(Upper(s)) == Upper(s)
  {
    UpperMakesUpperCase(s);
    UpperOfUpperCase(Upper(s));
  }

  // ---------------------------------------------------------------- strip

  /** The characters `str.isspace()` accepts. */
  predicate IsSpace(c: char)
  {
    || c == ' '
    || '\t' <= c <= '\r'
    || '\U{1C}' <= c <= '\U{1F}'
    || c == '\U{85}' || c == '\U{A0}' || c == '\U{1680}'
    || '\U{2000}' <= c <= '\U{200A}'
    || c == '\U{2028}' || c == '\U{2029}' || c == '\U{202F}' || c == '\U{205F}'
    || c == '\U{3000}'
  }

  predicate AllSpace(s: string)
  {
    forall i :: 0 <= i < |s| ==> IsSpace(s[i])
  }

  /** `s.lstrip()`: s without its leading white space. */
  function StripLeft(s: string): (r: string)
    ensures |r| <= |s| && r == s[|s| - |r|..]
    ensures forall j :: 0 <= j < |s| - |r| ==> IsSpace(s[j])
    ensures r != [] ==> !IsSpace(r[0])
  {
    if s != [] && IsSpace(s[0]) then
      var r := StripLeft(s[1..]);
      assert forall j :: 1 <= j < |s| ==> s[1..][j - 1] == s[j];
      r
    else s
  }

  /** `s.rstrip()`: s without its trailing white space. */
  function StripRight(s: string): (r: string)
    ensures |r| <= |s| && r == s[..|r|]
    ensures forall j :: |r| <= j < |s| ==> IsSpace(s[j])
    ensures r != [] ==> !IsSpace(r[|r| - 1])
  {
    if s != [] && IsSpace(s[|s| - 1]) then
      var r := StripRight(s[..|s| - 1]);
      assert forall j :: 0 <= j < |s| - 1 ==> s[..|s| - 1][j] == s[j];
      r
    else s
  }

  /** r is what is left of s once the white space before position i and after position
      i + |r| is cut off: one contiguous slice of s, with only white space around it. */
  predicate TrimmedAt(s: string, i: int, r: string)
  {
    && 0 <= i <= |s| - |r| && r == s[i..i + |r|]
    && (forall j :: 0 <= j < i ==> IsSpace(s[j]))
    && (forall j :: i + |r| <= j < |s| ==> IsSpace(s[j]))
  }

  /** `s.strip()`: s without the white space at either end. What is removed is white
      space, and what is kept is one contiguous slice of s. */
  function Strip(s: string): (r: string)
    ensures r != [] ==> !IsSpace(r[0]) && !IsSpace(r[|r| - 1])
    ensures TrimmedAt(s, |s| - |StripLeft(s)|, r)
  {
    var l := StripLeft(s);
    var r := StripRight(l);
    StripSlices(s, |s| - |l|, l, r);
    r
  }

  /** The stripped input is empty exactly when the input is blank. */
  lemma StripBlank(s: string)
    ensures Strip(s) == [] <==> AllSpace(s)
  {
    var l := StripLeft(s);
    StripSlices(s, |s| - |l|, l, StripRight(l));
  }

  lemma StripSlices(s: string, i: nat, l: string, r: string)
    requires i <= |s| && l == s[i..] && forall j :: 0 <= j < i ==> IsSpace(s[j])
    requires l != [] ==> !IsSpace(l[0])
    requires |r| <= |l| && r == l[..|r|] && forall j :: |r| <= j < |l| ==> IsSpace(l[j])
    requires r != [] ==> !IsSpace(r[|r| - 1])
    ensures r != [] ==> !IsSpace(r[0]) && !IsSpace(r[|r| - 1])
    ensures TrimmedAt(s, i, r)
    ensures r == [] <==> AllSpace(s)
  {
    assert forall j :: i <= j < |s| ==> s[j] == l[j - i];
    if r != [] {
      assert r[0] == l[0] == s[i];
    }
  }

  // ---------------------------------------------------------------- int formatting

  function DigitChar(d: nat): (c: char)
    requires d < 10
  {
    "0123456789"[d]
  }

  function DigitValue(c: char): nat
  {
    if '0' <= c <= '9' then c as int - '0' as int else 0
  }

  predicate IsDigits(s: string)
  {
    forall i :: 0 <= i < |s| ==> '0' <= s[i] <= '9'
  }

  /** The decimal digits of n, most significant first, with no leading zero. */
  function NatDigits(n: nat): (r: string)
    ensures r != [] && IsDigits(r)
    ensures r[0] == '0' ==> n == 0 && r == "0"
  {
    if n < 10 then [DigitChar(n)] else NatDigits(n / 10) + [DigitChar(n % 10)]
  }

  /** The number a string of decimal digits denotes. */
  function ParseDigits(s: string): nat
  {
    if s == [] then 0 else 10 * ParseDigits(s[..|s| - 1]) + DigitValue(s[|s| - 1])
  }

  /** `f"{n}"` for an int. */
  function Decimal(n: int): string
  {
    if n < 0 then "-" + NatDigits(-n) else NatDigits(n)
  }

  /** Reading back the digits gives the number: the formatted status code is unambiguous. */
  lemma {:induction false} NatDigitsRoundTrip(n: nat)
    ensures ParseDigits(NatDigits(n)) == n
  {
    if n >= 10 {
      var d := NatDigits(n);
      assert d[..|d| - 1] == NatDigits(n / 10);
      NatDigitsRoundTrip(n / 10);
    }
  }
}
