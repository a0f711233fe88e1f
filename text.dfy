/**
 * Strings as the C++ and Qt code handles them: decimal formatting of
 * integers (std::to_string(int), QString::number(int)), the C library's
 * integer parse behind std::stoi, prefix tests and substring search.
 * Characters stand for bytes of ASCII text; no encoding is modelled.
 */
module Text {
  import opened Wrappers

  const Int32Min: int := -0x8000_0000
  const Int32Max: int := 0x7FFF_FFFF

  predicate IsDigit(c: char) { '0' <= c <= '9' }

  /** isspace() in the "C" locale: space, \t, \n, \v, \f, \r. */
  predicate IsCSpace(c: char)
  {
    c == ' ' || c == '\t' || c == '\n' || c == '\U{0B}' || c == '\U{0C}' || c == '\r'
  }

  predicate AllDigits(s: string) { forall i :: 0 <= i < |s| ==> IsDigit(s[i]) }

  function DigitChar(d: nat): (c: char)
    requires d < 10
    ensures IsDigit(c) && c as int - '0' as int == d
  {
    ('0' as int + d) as char
  }

  /** Decimal digits of n, most significant first, without leading zeros. */
  function NatToString(n: nat): (s: string)
    ensures |s| >= 1 && AllDigits(s)
    ensures |s| > 1 ==> s[0] != '0'
  {
    if n < 10 then [DigitChar(n)] else NatToString(n / 10) + [DigitChar(n % 10)]
  }

  /** std::to_string(int) and QString::number(int): a minus sign for negatives. */
  function IntToString(i: int): (s: string)
    ensures |s| >= 1
    ensures s[0] == '-' <==> i < 0
  {
    if i < 0 then "-" + NatToString(-i) else NatToString(i)
  }

  /** The value of a string of decimal digits. */
  function DigitsValue(s: string): nat
    requires AllDigits(s)
  {
    if s == [] then 0 else DigitsValue(s[..|s| - 1]) * 10 + (s[|s| - 1] as int - '0' as int)
  }

  lemma {:induction false} DigitsValueOfNatToString(n: nat)
    ensures DigitsValue(NatToString(n)) == n
  {
    if n >= 10 {
      var s := NatToString(n);
      assert s[..|s| - 1] == NatToString(n / 10);
      DigitsValueOfNatToString(n / 10);
    }
  }

  lemma NatToStringInjective(m: nat, n: nat)
    requires NatToString(m) == NatToString(n)
    ensures m == n
  {
    DigitsValueOfNatToString(m);
    DigitsValueOfNatToString(n);
  }

  /** The input with its leading C whitespace removed. */
  function SkipSpaces(s: string): (r: string)
    ensures |r| <= |s| && r == s[|s| - |r|..]
    ensures r == [] || !IsCSpace(r[0])
    ensures forall i :: 0 <= i < |s| - |r| ==> IsCSpace(s[i])
  {
    if s != [] && IsCSpace(s[0]) then SkipSpaces(s[1..]) else s
  }

  /** Length of the longest prefix of s made of decimal digits. */
  function DigitRun(s: string): (k: nat)
    ensures k <= |s| && AllDigits(s[..k])
    ensures k == |s| || !IsDigit(s[k])
  {
    if s != [] && IsDigit(s[0]) then
      var k := 1 + DigitRun(s[1..]);
      assert s[..k] == [s[0]] + s[1..][..k - 1];
      k
    else 0
  }

  /** The two exceptions std::stoi throws; libstdc++ reports both as "stoi". */
  datatype ConversionError = InvalidArgument | OutOfRange {
    function What(): string { "stoi" }
  }

  /**
   * std::stoi(s) in base 10: leading whitespace is skipped, one optional sign
   * is read, then the longest run of digits; whatever follows is ignored.
   * No digit at all is invalid_argument; a value outside int is out_of_range.
   */
  function Stoi(s: string): Result<int, ConversionError>
  {
    StoiAfterSpaces(SkipSpaces(s))
  }

  /** std::stoi on a string whose leading whitespace is already skipped. */
  function StoiAfterSpaces(t: string): Result<int, ConversionError>
  {
    var signed := t != [] && (t[0] == '-' || t[0] == '+');
    var u := if signed then t[1..] else t;
    var k := DigitRun(u);
    if k == 0 then Err(InvalidArgument)
    else
      var magnitude: int := DigitsValue(u[..k]);
      var v := if signed && t[0] == '-' then -magnitude else magnitude;
      if v < Int32Min || v > Int32Max then Err(OutOfRange) else Ok(v)
  }

  /** A digit string followed by a non-digit has exactly its digits as digit run. */
  lemma DigitRunOfDigits(d: string, rest: string)
    requires AllDigits(d)
    requires rest == [] || !IsDigit(rest[0])
    ensures DigitRun(d + rest) == |d| && (d + rest)[..|d|] == d
  {
    var s := d + rest;
    assert forall j :: 0 <= j < |d| ==> s[j] == d[j];
    assert |d| < |s| ==> s[|d|] == rest[0];
  }

  /** Formatting an int and reading it back with std::stoi gives the same int. */
  lemma StoiOfIntToString(i: int)
    requires Int32Min <= i <= Int32Max
    ensures Stoi(IntToString(i)) == Ok(i)
  {
    if i < 0 {
      StoiOfNegative(-i);
    } else {
      StoiStopsAtNonDigit(i, []);
      assert NatToString(i) + [] == NatToString(i);
    }
  }

  lemma StoiOfNegative(n: nat)
    requires 0 < n <= -Int32Min
    ensures Stoi("-" + NatToString(n)) == Ok(0 - n)
  {
    var d := NatToString(n);
    var s := "-" + d;
    assert SkipSpaces(s) == s by { assert !IsCSpace(s[0]); }
    assert s[1..] == d;
    DigitRunOfDigits(d, []);
    assert d + [] == d;
    DigitsValueOfNatToString(n);
  }

  /** A digit string followed by a non-digit reads back as its own value. */
  lemma StoiStopsAtNonDigit(n: nat, rest: string)
    requires n <= Int32Max
    requires rest == [] || !IsDigit(rest[0])
    ensures Stoi(NatToString(n) + rest) == Ok(n)
  {
    var d := NatToString(n);
    var s := d + rest;
    assert s[0] == d[0];
    assert SkipSpaces(s) == s by { assert !IsCSpace(s[0]); }
    DigitRunOfDigits(d, rest);
    DigitsValueOfNatToString(n);
  }

  predicate StartsWith(s: string, prefix: string)
  {
    |prefix| <= |s| && s[..|prefix|] == prefix
  }

  /** std::string::find(sub) != npos, QString::contains. */
  predicate Contains(s: string, sub: string)
    decreases |s|
  {
    StartsWith(s, sub) || (s != [] && Contains(s[1..], sub))
  }

  lemma {:induction false} ContainsAppend(a: string, b: string, sub: string)
    requires Contains(a, sub)
    ensures Contains(a + b, sub)
    decreases |a|
  {
    if StartsWith(a, sub) {
      assert (a + b)[..|sub|] == a[..|sub|];
    } else {
      assert (a + b)[1..] == a[1..] + b;
      ContainsAppend(a[1..], b, sub);
    }
  }

  lemma {:induction false} ContainsPrepend(a: string, b: string, sub: string)
    requires Contains(b, sub)
    ensures Contains(a + b, sub)
    decreases |a|
  {
    if a == [] {
      assert a + b == b;
    } else {
      assert (a + b)[1..] == a[1..] + b;
      ContainsPrepend(a[1..], b, sub);
    }
  }

  /** A string of length below |sub| cannot contain sub. */
  lemma {:induction false} ContainsNeedsLength(s: string, sub: string)
    requires Contains(s, sub)
    ensures |sub| <= |s|
    decreases |s|
  {
    if !StartsWith(s, sub) { ContainsNeedsLength(s[1..], sub); }
  }

  /** Index of the first occurrence of c (std::string::find for one char). */
  function IndexOf(s: string, c: char): (r: Option<nat>)
    ensures r.Some? ==> r.value < |s| && s[r.value] == c
    ensures r.Some? ==> forall i :: 0 <= i < r.value ==> s[i] != c
    ensures r.None? ==> forall i :: 0 <= i < |s| ==> s[i] != c
  {
    if s == [] then None
    else if s[0] == c then Some(0)
    else match IndexOf(s[1..], c)
      case None => None
      case Some(k) => Some(k + 1)
  }

  /** One line as getline reads it: the text up to the first newline or the end. */
  function LineOf(s: string): (r: string)
    ensures '\n' !in r
    ensures StartsWith(s, r) && (|r| == |s| || s[|r|] == '\n')
  {
    if s == [] || s[0] == '\n' then "" else [s[0]] + LineOf(s[1..])
  }

  /** The text std::string(buffer) takes from a zero-filled buffer: up to the first NUL. */
  function UpToNul(chunk: string): (r: string)
    ensures StartsWith(chunk, r) && '\0' !in r
    ensures |r| == |chunk| || chunk[|r|] == '\0'
  {
    if chunk == [] || chunk[0] == '\0' then "" else [chunk[0]] + UpToNul(chunk[1..])
  }

  /** The elements of parts separated by sep, as Python's str.join. */
  function Join(parts: seq<string>, sep: string): string
  {
    if parts == [] then ""
    else if |parts| == 1 then parts[0]
    else parts[0] + sep + Join(parts[1..], sep)
  }
}
