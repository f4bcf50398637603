/**
 * The string primitives the intake form relies on: Python's `str.strip()`
 * (used only to ask whether a field is blank) and the decimal rendering of
 * an integer that an f-string performs for `{age}`.
 */
module Text {

  /** Python's `str.isspace()` for one character: the ASCII controls
      TAB..CR and FS..US, space, and the Unicode separators Python counts. */
  predicate IsSpace(c: char) {
    var n := c as int;
    (9 <= n <= 13) || (28 <= n <= 32) || n == 0x85 || n == 0xA0 ||
    n == 0x1680 || (0x2000 <= n <= 0x200A) || n == 0x2028 || n == 0x2029 ||
    n == 0x202F || n == 0x205F || n == 0x3000
  }

  /** Drops the leading whitespace: what remains is a suffix of `s` that
      starts with a non-space, and everything dropped was whitespace. */
  function TrimStart(s: string): (r: string)
    ensures |r| <= |s| && r == s[|s| - |r|..]
    ensures forall k :: 0 <= k < |s| - |r| ==> IsSpace(s[k])
    ensures r != [] ==> !IsSpace(r[0])
    decreases |s|
  {
    if s != [] && IsSpace(s[0]) then TrimStart(s[1..]) else s
  }

  /** Drops the trailing whitespace: what remains is a prefix of `s` that
      ends with a non-space, and everything dropped was whitespace. */
  function TrimEnd(s: string): (r: string)
    ensures |r| <= |s| && r == s[..|r|]
    ensures forall k :: |r| <= k < |s| ==> IsSpace(s[k])
    ensures r != [] ==> !IsSpace(r[|r| - 1])
    decreases |s|
  {
    if s != [] && IsSpace(s[|s| - 1]) then TrimEnd(s[..|s| - 1]) else s
  }

  /** Python's `s.strip()`: the slice of `s` left once the whitespace runs
      at both ends are cut off. It is empty exactly when every character of
      `s` is whitespace, and otherwise starts and ends with a non-space. */
  function Strip(s: string): (r: string)
    ensures |r| <= |s|
    ensures exists a, b :: CutsBlankEnds(s, r, a, b)
    ensures r == [] <==> IsBlank(s)
    ensures r != [] ==> !IsSpace(r[0]) && !IsSpace(r[|r| - 1])
  {
    StripBlank(s);
    StripSlice(s);
    TrimEnd(TrimStart(s))
  }

  /** Trimming both ends keeps a slice of `s` and cuts only whitespace. */
  lemma StripSlice(s: string)
    ensures exists a, b :: CutsBlankEnds(s, TrimEnd(TrimStart(s)), a, b)
  {
    var t := TrimStart(s);
    var u := TrimEnd(t);
    var a := |s| - |t|;
    var b := a + |u|;
    assert u == s[a..b];
    TrailingCut(s);
    assert CutsBlankEnds(s, u, a, b);
  }

  /** `r` is what is left of `s` once the first `a` characters and those
      from `b` on, all of them whitespace, are cut off. */
  predicate CutsBlankEnds(s: string, r: string, a: int, b: int) {
    0 <= a <= b <= |s| && r == s[a..b] &&
    (forall k :: 0 <= k < a ==> IsSpace(s[k])) && (forall k :: b <= k < |s| ==> IsSpace(s[k]))
  }

  /** What `TrimEnd` cuts from the trimmed suffix is whitespace of `s`. */
  lemma TrailingCut(s: string)
    ensures forall k :: |s| - |TrimStart(s)| + |TrimEnd(TrimStart(s))| <= k < |s| ==> IsSpace(s[k])
  {
    var t := TrimStart(s);
    var a := |s| - |t|;
    forall k | a + |TrimEnd(t)| <= k < |s| ensures IsSpace(s[k]) {
      assert s[k] == t[k - a];
    }
  }

  lemma StripBlank(s: string)
    ensures TrimEnd(TrimStart(s)) == [] <==> forall k :: 0 <= k < |s| ==> IsSpace(s[k])
  {
    var t := TrimStart(s);
    var d := |s| - |t|;
    if TrimEnd(t) == [] {
      assert t == [];
    } else if t != [] {
      assert s[d] == t[0];
    }
  }

  /** Every character is whitespace: exactly when `s.strip()` is the empty,
      falsy string (see `Strip`). */
  predicate IsBlank(s: string) {
    forall k :: 0 <= k < |s| ==> IsSpace(s[k])
  }

  predicate IsDigit(c: char) {
    '0' as int <= c as int <= '9' as int
  }

  function DigitChar(d: nat): (c: char)
    requires d < 10
    ensures IsDigit(c) && c as int - '0' as int == d
  {
    "0123456789"[d]
  }

  /** `str(n)` for a non-negative integer: a non-empty run of digits with no
      leading zero unless the number is zero itself. */
  function NatToString(n: nat): (r: string)
    ensures r != [] && forall k :: 0 <= k < |r| ==> IsDigit(r[k])
    ensures r[0] == '0' <==> n == 0
    decreases n
  {
    if n < 10 then [DigitChar(n)] else NatToString(n / 10) + [DigitChar(n % 10)]
  }

  /** `str(n)` for any integer: a minus sign exactly for a negative `n`,
      then a non-empty run of digits with no leading zero unless `n` is 0. */
  function IntToString(n: int): (r: string)
    ensures r != [] && (r[0] == '-' <==> n < 0)
    ensures n < 0 ==> 2 <= |r| && r[1] != '0' && forall k :: 1 <= k < |r| ==> IsDigit(r[k])
    ensures 0 <= n ==> (r[0] == '0' <==> n == 0) && forall k :: 0 <= k < |r| ==> IsDigit(r[k])
  {
    if n < 0 then
      var digits := NatToString(-n);
      assert ("-" + digits)[1..] == digits;
      "-" + digits
    else
      NatToString(n)
  }

  /** The value of a run of decimal digits, most significant first. */
  function DigitsValue(s: string): nat
    requires forall k :: 0 <= k < |s| ==> IsDigit(s[k])
    decreases |s|
  {
    if s == [] then 0
    else
      var last := s[|s| - 1];
      assert IsDigit(last);
      DigitsValue(s[..|s| - 1]) * 10 + (last as int - '0' as int)
  }

  /** Reads back what `IntToString` writes. */
  function ParseInt(s: string): int
    requires s != [] && s[0] == '-' ==> forall k :: 1 <= k < |s| ==> IsDigit(s[k])
    requires !(s != [] && s[0] == '-') ==> forall k :: 0 <= k < |s| ==> IsDigit(s[k])
  {
    if s != [] && s[0] == '-' then -(DigitsValue(s[1..]) as int) else DigitsValue(s)
  }

  lemma {:induction false} NatToStringRoundTrip(n: nat)
    ensures DigitsValue(NatToString(n)) == n
    decreases n
  {
    if n >= 10 {
      var r := NatToString(n);
      assert r[..|r| - 1] == NatToString(n / 10);
      NatToStringRoundTrip(n / 10);
    }
  }

  /** The decimal rendering of an integer loses nothing: it parses back to
      the same integer, so the age shown in a summary is the age entered. */
  lemma IntToStringRoundTrip(n: int)
    ensures ParseInt(IntToString(n)) == n
  {
    if n < 0 {
      var digits := NatToString(-n);
      assert ("-" + digits)[1..] == digits;
      NatToStringRoundTrip(-n);
    } else {
      NatToStringRoundTrip(n);
    }
  }
}
