/**
 * Decimal formatting and parsing of integers, and whitespace trimming, as the .NET
 * runtime performs them for the call sites in this model: `int.ToString()`,
 * `int.TryParse(string, out int)` and `string.Trim()`.
 */
module Text {
  import opened Common

  predicate IsDigit(c: char) { '0' <= c <= '9' }

  predicate AllDigits(s: string) { forall i :: 0 <= i < |s| ==> IsDigit(s[i]) }

  function DigitChar(d: nat): (c: char)
    requires d < 10
    ensures IsDigit(c) && DigitValue(c) == d
  {
    (d + 48) as char
  }

  function DigitValue(c: char): nat
    requires IsDigit(c)
  {
    c as int - 48
  }

  /** Decimal digits of a non-negative number, most significant first, no leading zeros. */
  function NatToString(n: nat): (s: string)
    ensures |s| >= 1 && AllDigits(s)
    ensures n >= 10 <==> |s| > 1
    decreases n
  {
    if n < 10 then [DigitChar(n)] else NatToString(n / 10) + [DigitChar(n % 10)]
  }

  /** `int.ToString()` with the invariant negative sign `-`. */
  function IntToString(n: int): (s: string)
    ensures |s| >= 1 && IsDigit(s[|s| - 1])
    ensures n < 0 <==> s[0] == '-'
    ensures n >= 0 ==> AllDigits(s)
  {
    if n < 0 then "-" + NatToString(-n) else NatToString(n)
  }

  /** Value of a string of decimal digits (read left to right). */
  function DigitsValue(s: string): nat
    requires AllDigits(s)
    decreases |s|
  {
    if s == [] then 0 else 10 * DigitsValue(s[..|s| - 1]) + DigitValue(s[|s| - 1])
  }

  /** Reading back the digits of `n` gives `n`. */
  lemma {:induction false} DigitsRoundTrip(n: nat)
    ensures DigitsValue(NatToString(n)) == n
    decreases n
  {
    if n >= 10 {
      var s := NatToString(n);
      assert s[..|s| - 1] == NatToString(n / 10);
      DigitsRoundTrip(n / 10);
    }
  }

  /** The index of the first character at or after `i` that is not white (or `|s|`). */
  function FirstNonWhite(s: string, white: char -> bool, i: nat): (k: nat)
    requires i <= |s|
    ensures i <= k <= |s|
    ensures forall j :: i <= j < k ==> white(s[j])
    ensures k < |s| ==> !white(s[k])
    decreases |s| - i
  {
    if i < |s| && white(s[i]) then FirstNonWhite(s, white, i + 1) else i
  }

  /** The length of `s` once the white characters at its end, down to index `i`, are dropped. */
  function LastNonWhite(s: string, white: char -> bool, n: nat): (k: nat)
    requires n <= |s|
    ensures k <= n
    ensures forall j :: k <= j < n ==> white(s[j])
    ensures k > 0 ==> !white(s[k - 1])
  {
    if n > 0 && white(s[n - 1]) then LastNonWhite(s, white, n - 1) else n
  }

  function TrimStart(s: string, white: char -> bool): (r: string)
    ensures |r| <= |s| && r == s[|s| - |r|..]
    ensures |r| > 0 ==> !white(r[0])
    ensures forall i :: 0 <= i < |s| - |r| ==> white(s[i])
  {
    s[FirstNonWhite(s, white, 0)..]
  }

  function TrimEnd(s: string, white: char -> bool): (r: string)
    ensures |r| <= |s| && r == s[..|r|]
    ensures |r| > 0 ==> !white(r[|r| - 1])
    ensures forall i :: |r| <= i < |s| ==> white(s[i])
  {
    s[..LastNonWhite(s, white, |s|)]
  }

  function Trim(s: string, white: char -> bool): string {
    TrimEnd(TrimStart(s, white), white)
  }

  /** `char.IsWhiteSpace`: the Unicode separator characters plus U+0009..U+000D and U+0085. */
  predicate IsWhiteSpace(c: char) {
    var u := c as int;
    (0x09 <= u <= 0x0D) || u == 0x20 || u == 0x85 || u == 0xA0 || u == 0x1680
    || (0x2000 <= u <= 0x200A) || u == 0x2028 || u == 0x2029 || u == 0x202F
    || u == 0x205F || u == 0x3000
  }

  /** The white space `NumberStyles.Integer` lets `int.TryParse` skip: U+0009..U+000D and U+0020. */
  predicate IsParseWhite(c: char) {
    var u := c as int;
    (0x09 <= u <= 0x0D) || u == 0x20
  }

  /**
   * `int.TryParse(s, out v)`: optional surrounding white space, an optional `+` or `-`,
   * one or more decimal digits, and a value inside the 32-bit signed range.
   */
  function TryParseInt32(s: string): (r: Option<int>)
    ensures r.Some? ==> -TwoTo31 <= r.value < TwoTo31
  {
    ParseSigned(Trim(s, IsParseWhite))
  }

  /** The sign-and-digits part of `TryParseInt32`, once the white space is gone. */
  function ParseSigned(t: string): (r: Option<int>)
    ensures r.Some? ==> -TwoTo31 <= r.value < TwoTo31
  {
    if |t| == 0 then None
    else
      var digits := if t[0] == '-' || t[0] == '+' then t[1..] else t;
      if |digits| == 0 || !AllDigits(digits) then None
      else
        var magnitude: int := DigitsValue(digits);
        var v := if t[0] == '-' then 0 - magnitude else magnitude;
        if -TwoTo31 <= v < TwoTo31 then Some(v) else None
  }

  lemma TrimUnchanged(s: string, white: char -> bool)
    requires |s| > 0 && !white(s[0]) && !white(s[|s| - 1])
    ensures Trim(s, white) == s
  {
    assert FirstNonWhite(s, white, 0) == 0;
    assert TrimStart(s, white) == s[0..] == s;
    assert LastNonWhite(s, white, |s|) == |s|;
    assert TrimEnd(s, white) == s[..|s|] == s;
  }

  /** Every 32-bit value survives formatting followed by parsing. */
  lemma ParseFormatRoundTrip(n: int)
    requires -TwoTo31 <= n < TwoTo31
    ensures TryParseInt32(IntToString(n)) == Some(n)
  {
    var s := IntToString(n);
    TrimUnchanged(s, IsParseWhite);
    if n < 0 {
      assert s[1..] == NatToString(-n);
      DigitsRoundTrip(-n);
    } else {
      DigitsRoundTrip(n);
    }
  }

  /** The text after the last ':' of a string (all of it when there is none). */
  function AfterLastColon(s: string): (r: string)
    ensures ':' !in r
    decreases |s|
  {
    if |s| == 0 then s
    else if s[|s| - 1] == ':' then []
    else AfterLastColon(s[..|s| - 1]) + [s[|s| - 1]]
  }

  lemma {:induction false} AfterLastColonOfJoin(host: string, tail: string)
    requires ':' !in tail
    ensures AfterLastColon(host + ":" + tail) == tail
    decreases |tail|
  {
    var s := host + ":" + tail;
    if tail != [] {
      assert s[..|s| - 1] == host + ":" + tail[..|tail| - 1];
      AfterLastColonOfJoin(host, tail[..|tail| - 1]);
    } else {
      assert s[|s| - 1] == ':';
    }
  }

  /** A formatted integer holds digits and possibly a leading '-', never ':'. */
  lemma IntToStringNoColon(n: int)
    ensures ':' !in IntToString(n)
  {
    var s := IntToString(n);
    if n < 0 {
      assert s[1..] == NatToString(-n);
      assert forall i :: 1 <= i < |s| ==> s[i] == s[1..][i - 1];
    }
  }

  /** Two integers with the same decimal form are equal. */
  lemma IntToStringInjective(a: int, b: int)
    requires IntToString(a) == IntToString(b)
    ensures a == b
  {
    var s := IntToString(a);
    if a < 0 {
      assert b < 0;
      assert NatToString(-a) == s[1..] == NatToString(-b);
      NatToStringInjective(-a, -b);
    } else {
      assert b >= 0;
      NatToStringInjective(a, b);
    }
  }

  /** Decimal numerals of different naturals differ. */
  lemma NatToStringInjective(a: nat, b: nat)
    requires NatToString(a) == NatToString(b)
    ensures a == b
  {
    DigitsRoundTrip(a);
    DigitsRoundTrip(b);
  }
}
