/**
 * The .NET string facilities the core relies on, over `string` = `seq<char>`:
 * `char.IsWhiteSpace` / `string.IsNullOrWhiteSpace`, ordinal `string.Contains`,
 * `int.ToString()` and `int.TryParse(string, out int)`.
 * A C# `string` that may be null is an `Option<string>`.
 */
module Text {
  import opened Wrappers

  const MinInt32: int := -0x8000_0000
  const MaxInt32: int := 0x7fff_ffff

  /** C# `int`: a 32-bit signed integer. */
  newtype Int32 = x: int | -0x8000_0000 <= x <= 0x7fff_ffff

  /** `char.IsWhiteSpace`: the Unicode white-space characters (Zs, Zl, Zp and the ASCII/Latin-1 controls). */
  predicate IsWhiteSpace(c: char) {
    c == ' ' || ('\t' <= c <= '\r') || c == '\U{85}' || c == '\U{A0}' || c == '\U{1680}'
    || ('\U{2000}' <= c <= '\U{200A}') || c == '\U{2028}' || c == '\U{2029}'
    || c == '\U{202F}' || c == '\U{205F}' || c == '\U{3000}'
  }

  /** Every character of `s` is white space (true of the empty string). */
  predicate IsBlank(s: string) {
    forall i :: 0 <= i < |s| ==> IsWhiteSpace(s[i])
  }

  /** `string.IsNullOrWhiteSpace`. */
  predicate IsNullOrWhiteSpace(s: Option<string>) {
    s.None? || IsBlank(s.value)
  }

  /** Ordinal `string.Contains(string)`: `sub` occurs somewhere in `s`. */
  predicate Contains(s: string, sub: string)
    decreases |s|
  {
    sub <= s || (|s| > 0 && Contains(s[1..], sub))
  }

  lemma {:induction false} ContainsAt(s: string, sub: string, i: nat)
    requires i + |sub| <= |s| && s[i..i + |sub|] == sub
    ensures Contains(s, sub)
    decreases i
  {
    if i == 0 {
      assert sub <= s;
    } else {
      assert s[1..][i - 1..i - 1 + |sub|] == s[i..i + |sub|];
      ContainsAt(s[1..], sub, i - 1);
    }
  }

  lemma {:induction false} ContainsWitness(s: string, sub: string) returns (i: nat)
    requires Contains(s, sub)
    ensures i + |sub| <= |s| && s[i..i + |sub|] == sub
    decreases |s|
  {
    if sub <= s {
      i := 0;
    } else {
      var j := ContainsWitness(s[1..], sub);
      assert s[1..][j..j + |sub|] == s[j + 1..j + 1 + |sub|];
      i := j + 1;
    }
  }

  /** A string that contains `sub` is at least as long as `sub`. */
  lemma {:induction false} ContainsLength(s: string, sub: string)
    requires Contains(s, sub)
    ensures |sub| <= |s|
  {
    var i := ContainsWitness(s, sub);
  }

  // ---------------------------------------------------------------------------
  // int.ToString()

  predicate IsDigit(c: char) { '0' <= c <= '9' }

  predicate AllDigits(s: string) {
    forall i :: 0 <= i < |s| ==> IsDigit(s[i])
  }

  function DigitChar(d: nat): char
    requires d < 10
  {
    ('0' as int + d) as char
  }

  /** Decimal digits of `n`, most significant first, without leading zeros. */
  function NatToString(n: nat): string
    decreases n
  {
    if n < 10 then [DigitChar(n)] else NatToString(n / 10) + [DigitChar(n % 10)]
  }

  /** `int.ToString()` under the invariant culture: an optional `-` followed by the digits. */
  function IntToString(i: int): string {
    if i < 0 then "-" + NatToString(-i) else NatToString(i)
  }

  // ---------------------------------------------------------------------------
  // int.TryParse(string, out int) with NumberStyles.Integer

  /** The white space `NumberStyles.AllowLeadingWhite`/`AllowTrailingWhite` accept: U+0009..U+000D and U+0020. */
  predicate IsNumberWhite(c: char) { c == ' ' || ('\t' <= c <= '\r') }

  function TrimStartNumberWhite(s: string): string
    decreases |s|
  {
    if |s| > 0 && IsNumberWhite(s[0]) then TrimStartNumberWhite(s[1..]) else s
  }

  function TrimEndNumberWhite(s: string): string
    decreases |s|
  {
    if |s| > 0 && IsNumberWhite(s[|s| - 1]) then TrimEndNumberWhite(s[..|s| - 1]) else s
  }

  /** The value of a run of decimal digits. */
  function DigitsValue(s: string): nat
    requires AllDigits(s)
    decreases |s|
  {
    if |s| == 0 then 0 else DigitsValue(s[..|s| - 1]) * 10 + (s[|s| - 1] as int - '0' as int)
  }

  /**
   * `int.TryParse`: surrounding number white space, an optional leading `+` or `-`,
   * at least one ASCII digit, and a value inside the 32-bit range; a null string fails.
   */
  function TryParseInt32(s: Option<string>): Option<int> {
    if s.None? then None
    else
      var t := TrimEndNumberWhite(TrimStartNumberWhite(s.value));
      var negative := |t| > 0 && t[0] == '-';
      var digits := if |t| > 0 && (t[0] == '-' || t[0] == '+') then t[1..] else t;
      if |digits| == 0 || !AllDigits(digits) then None
      else
        var magnitude: int := DigitsValue(digits);
        var v := if negative then -magnitude else magnitude;
        if MinInt32 <= v <= MaxInt32 then Some(v) else None
  }

  /** The decimal rendering of a natural number is all digits and denotes that number. */
  lemma {:induction false} NatToStringDigits(n: nat)
    ensures |NatToString(n)| > 0 && AllDigits(NatToString(n))
    ensures DigitsValue(NatToString(n)) == n
    decreases n
  {
    if n >= 10 {
      NatToStringDigits(n / 10);
      var s := NatToString(n);
      assert s[..|s| - 1] == NatToString(n / 10);
    }
  }

  /**
   * `int.TryParse(i.ToString())` recovers `i` for every 32-bit `i`: the rendering has no
   * surrounding white space, a leading `-` exactly when negative, and the digits of |i|.
   */
  lemma Int32RoundTrip(i: int)
    requires MinInt32 <= i <= MaxInt32
    ensures TryParseInt32(Some(IntToString(i))) == Some(i)
  {
    var n: nat := if i < 0 then -i else i;
    NatToStringDigits(n);
    var s := IntToString(i);
    assert !IsNumberWhite(s[0]) && !IsNumberWhite(s[|s| - 1]);
    assert TrimStartNumberWhite(s) == s;
    assert TrimEndNumberWhite(s) == s;
    if i < 0 {
      assert s[1..] == NatToString(n);
    }
  }

  /** `i.ToString()` is never null, empty or blank, so a rule `NotEmpty` on it always passes. */
  lemma IntToStringNotBlank(i: int)
    ensures !IsNullOrWhiteSpace(Some(IntToString(i)))
  {
    var n: nat := if i < 0 then -i else i;
    NatToStringDigits(n);
    var s := IntToString(i);
    assert !IsWhiteSpace(s[|s| - 1]);
  }
}
