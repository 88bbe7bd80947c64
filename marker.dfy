/**
 * `_get_num_cols`: the number of sample columns, read from the last-sample
 * marker (`_SAMPLE_PLATE_LAST`, a well label such as "A2") by dropping its
 * first character and converting the rest with Python's `int`.
 *
 * `int` on a string accepts surrounding whitespace, one optional sign and
 * decimal digits in which single underscores may separate digits; anything
 * else raises `ValueError`, modelled here as `None`.
 */
module Marker {
  import opened Wrappers

  /** The last sample well of the shipped protocol. */
  const SampleLast: string := "A2"

  predicate IsDigit(c: char) { '0' <= c <= '9' }

  /** ASCII characters that Python's `str.isspace` accepts. */
  predicate IsSpace(c: char) { c == ' ' || '\t' <= c <= '\r' || '\U{1C}' <= c <= '\U{1F}' }

  function TrimStart(s: string): (r: string)
    ensures |r| <= |s| && r == s[|s| - |r|..]
    ensures |r| > 0 ==> !IsSpace(r[0])
    ensures forall i :: 0 <= i < |s| - |r| ==> IsSpace(s[i])
  {
    if |s| > 0 && IsSpace(s[0]) then TrimStart(s[1..]) else s
  }

  function TrimEnd(s: string): (r: string)
    ensures |r| <= |s| && r == s[..|r|]
    ensures |r| > 0 ==> !IsSpace(r[|r| - 1])
    ensures forall i :: |r| <= i < |s| ==> IsSpace(s[i])
  {
    if |s| > 0 && IsSpace(s[|s| - 1]) then TrimEnd(s[..|s| - 1]) else s
  }

  /** `s.strip()` restricted to the ASCII whitespace above. */
  function Strip(s: string): string
  {
    TrimEnd(TrimStart(s))
  }

  /** Digits, possibly separated by single underscores, starting and ending with a digit. */
  predicate IsDigitString(s: string)
  {
    && |s| > 0
    && IsDigit(s[0])
    && (forall i :: 0 <= i < |s| ==> IsDigit(s[i]) || s[i] == '_')
    && (forall i :: 0 <= i < |s| && s[i] == '_' ==> i + 1 < |s| && IsDigit(s[i + 1]))
  }

  /** The decimal value of the digits of `s`, underscores skipped. */
  function DigitsValue(s: string): nat
  {
    if |s| == 0 then 0
    else if IsDigit(s[|s| - 1]) then 10 * DigitsValue(s[..|s| - 1]) + (s[|s| - 1] as int - '0' as int)
    else DigitsValue(s[..|s| - 1])
  }

  /** Python's `int(s)` in base 10; `None` where Python raises `ValueError`. */
  function ParseInt(s: string): Option<int>
  {
    ParseSigned(Strip(s))
  }

  /** `int` on a string with no surrounding whitespace: an optional sign, then digits. */
  function ParseSigned(t: string): Option<int>
  {
    if |t| > 0 && (t[0] == '+' || t[0] == '-') then
      if IsDigitString(t[1..]) then
        Some(if t[0] == '-' then -(DigitsValue(t[1..]) as int) else DigitsValue(t[1..]))
      else None
    else if IsDigitString(t) then Some(DigitsValue(t))
    else None
  }

  /** `int(marker[1:])`; slicing an empty string gives the empty string. */
  function GetNumCols(marker: string): Option<int>
  {
    ParseInt(if |marker| == 0 then marker else marker[1..])
  }

  /** The canonical decimal spelling of `n`: digits only, no leading zero. */
  function Decimal(n: nat): (s: string)
    ensures |s| > 0 && IsDigit(s[0]) && (|s| > 1 ==> s[0] != '0')
    ensures forall i :: 0 <= i < |s| ==> IsDigit(s[i])
  {
    if n < 10 then [('0' as int + n) as char]
    else Decimal(n / 10) + [('0' as int + n % 10) as char]
  }

  /** A string with no whitespace at either end is left alone by `Strip`. */
  lemma StripUnchanged(s: string)
    requires |s| > 0 && !IsSpace(s[0]) && !IsSpace(s[|s| - 1])
    ensures Strip(s) == s
  {
  }

  /** Reading back the decimal spelling of `n` gives `n`. */
  lemma {:induction false} DecimalValue(n: nat)
    ensures IsDigitString(Decimal(n))
    ensures DigitsValue(Decimal(n)) == n
  {
    var s := Decimal(n);
    if n >= 10 {
      DecimalValue(n / 10);
      assert s[..|s| - 1] == Decimal(n / 10);
    }
  }

  /** `int(str(n)) == n` and `int('-' + str(n)) == -n`. */
  lemma ParseDecimal(n: nat)
    ensures ParseInt(Decimal(n)) == Some(n)
    ensures ParseInt("-" + Decimal(n)) == Some(-(n as int))
  {
    var d := Decimal(n);
    DecimalValue(n);
    StripUnchanged(d);
    StripUnchanged("-" + d);
    assert ("-" + d)[1..] == d;
  }

  /** A well label "<row><n>" gives `n` sample columns, whatever the row letter. */
  lemma NumColsOfLabel(row: char, n: nat)
    ensures GetNumCols([row] + Decimal(n)) == Some(n)
  {
    assert ([row] + Decimal(n))[1..] == Decimal(n);
    ParseDecimal(n);
  }

  /** The shipped marker "A2" gives two sample columns. */
  lemma SampleLastColumns()
    ensures GetNumCols(SampleLast) == Some(2)
  {
    var two := Decimal(2);
    assert two == ['2'];
    assert SampleLast == ['A'] + two;
    NumColsOfLabel('A', 2);
  }

  /** Trimming the end of a string that starts with a non-space keeps that first character. */
  lemma {:induction false} TrimEndKeepsHead(s: string)
    requires |s| > 0 && !IsSpace(s[0])
    ensures |TrimEnd(s)| > 0 && TrimEnd(s)[0] == s[0]
  {
    if IsSpace(s[|s| - 1]) {
      TrimEndKeepsHead(s[..|s| - 1]);
    }
  }

  /** A string that starts with something other than whitespace, a sign or a digit raises `ValueError`. */
  lemma RejectsLeadingNonDigit(s: string)
    requires |s| > 0 && !IsSpace(s[0])
    requires !IsDigit(s[0]) && s[0] != '+' && s[0] != '-'
    ensures ParseInt(s) == None
  {
    assert TrimStart(s) == s;
    TrimEndKeepsHead(s);
  }

  /** A marker with nothing after its first character, or with a letter there, raises `ValueError`. */
  lemma MalformedMarkers(row: char)
    ensures GetNumCols([]) == None
    ensures GetNumCols([row]) == None
    ensures forall c, rest :: ('A' <= c <= 'Z' || 'a' <= c <= 'z') ==> GetNumCols([row, c] + rest) == None
  {
    assert Strip([]) == [];
    assert [row][1..] == [];
    forall c, rest | 'A' <= c <= 'Z' || 'a' <= c <= 'z'
      ensures GetNumCols([row, c] + rest) == None
    {
      assert ([row, c] + rest)[1..] == [c] + rest;
      RejectsLeadingNonDigit([c] + rest);
    }
  }
}
