/** The parts of Kotlin's standard library the settings cells rely on:
    `Char.isWhitespace`, `String.trim`, `String.toIntOrNull` and
    `Int.toString`, over a 32-bit `Int`. */
module KotlinText {
  import opened Wrappers

  const INT_MIN: int := -0x8000_0000
  const INT_MAX: int := 0x7FFF_FFFF

  /** Kotlin's `Int`. */
  type Int32 = n: int | INT_MIN <= n <= INT_MAX

  /** `Char.isWhitespace`: Java's whitespace characters together with the
      Unicode space, line and paragraph separators. */
  predicate IsWhitespace(c: char) {
    || c == '\t' || c == '\n' || c == '\U{000B}' || c == '\U{000C}' || c == '\r'
    || ('\U{001C}' <= c <= '\U{001F}')
    || c == ' ' || c == '\U{00A0}' || c == '\U{1680}'
    || ('\U{2000}' <= c <= '\U{200A}')
    || c == '\U{2028}' || c == '\U{2029}' || c == '\U{202F}' || c == '\U{205F}' || c == '\U{3000}'
  }

  /** The characters `Char.isWhitespace` accepts, listed one by one. */
  const WHITESPACE_CHARS: set<char> := {
    '\t', '\n', '\U{000B}', '\U{000C}', '\r',
    '\U{001C}', '\U{001D}', '\U{001E}', '\U{001F}',
    ' ', '\U{00A0}', '\U{1680}',
    '\U{2000}', '\U{2001}', '\U{2002}', '\U{2003}', '\U{2004}', '\U{2005}',
    '\U{2006}', '\U{2007}', '\U{2008}', '\U{2009}', '\U{200A}',
    '\U{2028}', '\U{2029}', '\U{202F}', '\U{205F}', '\U{3000}'}

  /** `IsWhitespace` accepts exactly the 28 listed characters; in particular
      no digit and no sign is whitespace. */
  lemma WhitespaceChars(c: char)
    ensures IsWhitespace(c) <==> c in WHITESPACE_CHARS
    ensures '0' <= c <= '9' || c == '-' || c == '+' ==> !IsWhitespace(c)
  {
    if '\U{2000}' <= c <= '\U{200A}' {
      var k := c as int - 0x2000;
      assert 0 <= k <= 10;
      assert c == ('\U{2000}' as int + k) as char;
    }
  }

  predicate IsDigit(c: char) {
    '0' <= c <= '9'
  }

  /** The first index at or after `i` that is not whitespace, or `|s|`. */
  function TrimStartIndex(s: string, i: nat): (k: nat)
    requires i <= |s|
    ensures i <= k <= |s|
    ensures forall j :: i <= j < k ==> IsWhitespace(s[j])
    ensures k < |s| ==> !IsWhitespace(s[k])
    decreases |s| - i
  {
    if i < |s| && IsWhitespace(s[i]) then TrimStartIndex(s, i + 1) else i
  }

  /** The end of the text before `e` once trailing whitespace is dropped,
      going no further back than `k`. */
  function TrimEndIndex(s: string, k: nat, e: nat): (f: nat)
    requires k <= e <= |s|
    ensures k <= f <= e
    ensures forall j :: f <= j < e ==> IsWhitespace(s[j])
    ensures k < f ==> !IsWhitespace(s[f - 1])
    decreases e
  {
    if k < e && IsWhitespace(s[e - 1]) then TrimEndIndex(s, k, e - 1) else e
  }

  /** How many leading whitespace characters `trim` drops. */
  function TrimOffset(s: string): (k: nat)
    ensures k <= |s|
  {
    TrimStartIndex(s, 0)
  }

  /** `String.trim()`: the text between the leading and the trailing runs of
      whitespace. */
  function Trim(s: string): (r: string)
    ensures TrimOffset(s) + |r| <= |s| && r == s[TrimOffset(s)..TrimOffset(s) + |r|]
    ensures forall i :: 0 <= i < TrimOffset(s) ==> IsWhitespace(s[i])
    ensures forall i :: TrimOffset(s) + |r| <= i < |s| ==> IsWhitespace(s[i])
    ensures r != [] ==> !IsWhitespace(r[0]) && !IsWhitespace(r[|r| - 1])
  {
    var k := TrimStartIndex(s, 0);
    s[k..TrimEndIndex(s, k, |s|)]
  }

  function DigitValue(c: char): nat
    requires IsDigit(c)
  {
    c as int - '0' as int
  }

  function DigitChar(d: nat): (c: char)
    requires d < 10
    ensures IsDigit(c) && DigitValue(c) == d
  {
    ('0' as int + d) as char
  }

  predicate AllDigits(s: string) {
    forall i :: 0 <= i < |s| ==> IsDigit(s[i])
  }

  /** The value of a string of decimal digits, most significant first. */
  function DigitsValue(s: string): nat
    requires AllDigits(s)
  {
    if s == [] then 0 else DigitsValue(s[..|s| - 1]) * 10 + DigitValue(s[|s| - 1])
  }

  /** The decimal digits of `n` without leading zeros. */
  function NatToString(n: nat): (r: string)
    ensures r != [] && AllDigits(r)
    ensures r[0] == '0' <==> n == 0
    decreases n
  {
    if n < 10 then [DigitChar(n)] else NatToString(n / 10) + [DigitChar(n % 10)]
  }

  /** `Int.toString()`: a minus sign for negative values, then the digits. */
  function IntToString(n: int): (r: string)
    ensures r != [] && (r[0] == '-' <==> n < 0)
    ensures AllDigits(if n < 0 then r[1..] else r)
    ensures |r| > 1 ==> r[0] != '0'
    ensures n < 0 ==> |r| > 1 && r[1] != '0'
  {
    if n < 0 then "-" + NatToString(-n) else NatToString(n)
  }

  /** `String.toIntOrNull()`: an optional sign followed by at least one
      decimal digit, whose value fits in an `Int`; anything else is null. */
  function ToIntOrNull(s: string): (r: Option<int>)
    ensures r.Some? ==> INT_MIN <= r.value <= INT_MAX
    ensures r.Some? ==> s != [] && s != "-" && s != "+"
  {
    if s == [] then None
    else
      var negative := s[0] == '-';
      var digits := if s[0] == '-' || s[0] == '+' then s[1..] else s;
      if digits == [] || !AllDigits(digits) then None
      else
        var v: int := if negative then -(DigitsValue(digits) as int) else DigitsValue(digits);
        if INT_MIN <= v <= INT_MAX then Some(v) else None
  }

  lemma {:induction false} DigitsOfNat(n: nat)
    ensures DigitsValue(NatToString(n)) == n
    decreases n
  {
    if n >= 10 {
      var s := NatToString(n);
      assert s[..|s| - 1] == NatToString(n / 10);
      DigitsOfNat(n / 10);
    }
  }

  lemma NoWhitespaceInDigits(s: string)
    requires AllDigits(s)
    ensures forall i :: 0 <= i < |s| ==> !IsWhitespace(s[i])
  {
  }

  /** A text that neither starts nor ends with whitespace trims to itself. */
  lemma TrimUnchanged(s: string)
    requires s != [] && !IsWhitespace(s[0]) && !IsWhitespace(s[|s| - 1])
    ensures Trim(s) == s
  {
    assert TrimStartIndex(s, 0) == 0;
    assert TrimEndIndex(s, 0, |s|) == |s|;
    assert s[0..|s|] == s;
  }

  /** Printing an `Int` and parsing it back gives the same `Int`. */
  lemma {:induction false} ParseIntToString(n: Int32)
    ensures ToIntOrNull(IntToString(n)) == Some(n)
  {
    var m: nat := if n < 0 then -(n as int) else n as int;
    var digits := NatToString(m);
    DigitsOfNat(m);
    var s := IntToString(n);
    if n < 0 {
      assert s[1..] == digits;
    } else {
      assert s == digits;
    }
  }

  /** The printed form of an `Int` has no whitespace at either end. */
  lemma TrimIntToString(n: Int32)
    ensures Trim(IntToString(n)) == IntToString(n)
  {
    var m: nat := if n < 0 then -(n as int) else n as int;
    var digits := NatToString(m);
    NoWhitespaceInDigits(digits);
    var s := IntToString(n);
    assert s[|s| - 1] == digits[|digits| - 1];
    TrimUnchanged(s);
  }

  /** Printing an `Int` and parsing it back, with or without trimming,
      gives the same `Int`. */
  lemma IntToStringRoundTrip(n: Int32)
    ensures ToIntOrNull(IntToString(n)) == Some(n)
    ensures Trim(IntToString(n)) == IntToString(n)
  {
    ParseIntToString(n);
    TrimIntToString(n);
  }
}
