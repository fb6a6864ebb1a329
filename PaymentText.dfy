/** The character and string tests the payment processors apply to payment details. */
module PaymentText {

  /** char.IsWhiteSpace: the space separators, the line and paragraph separators,
      U+0009 to U+000D and U+0085. */
  predicate IsWhiteSpace(c: char) {
    var n := c as int;
    n == 0x20 || 0x09 <= n <= 0x0D || n == 0x85 || n == 0xA0 || n == 0x1680 ||
    0x2000 <= n <= 0x200A || n == 0x2028 || n == 0x2029 || n == 0x202F || n == 0x205F || n == 0x3000
  }

  /** string.IsNullOrWhiteSpace on a non-null string: empty, or nothing but white space. */
  predicate IsNullOrWhiteSpace(s: string) {
    forall i :: 0 <= i < |s| ==> IsWhiteSpace(s[i])
  }

  /** The decimal digits '0' to '9'. */
  predicate IsDigit(c: char) {
    '0' <= c <= '9'
  }

  predicate AllDigits(s: string) {
    forall i :: 0 <= i < |s| ==> IsDigit(s[i])
  }

  predicate StartsWith(s: string, prefix: string) {
    |prefix| <= |s| && s[..|prefix|] == prefix
  }

  /** string.Length: the number of UTF-16 code units, so a character outside the
      Basic Multilingual Plane (above U+FFFF) counts twice, as a surrogate pair. */
  function Utf16Length(s: string): (n: nat)
    ensures |s| <= n <= 2 * |s|
  {
    if s == [] then 0 else (if s[0] as int > 0xFFFF then 2 else 1) + Utf16Length(s[1..])
  }

  /** Within the Basic Multilingual Plane, every character is one code unit. */
  lemma {:induction false} BmpUtf16Length(s: string)
    requires forall i :: 0 <= i < |s| ==> s[i] as int <= 0xFFFF
    ensures Utf16Length(s) == |s|
  {
    if s != [] {
      assert forall i :: 0 <= i < |s[1..]| ==> s[1..][i] == s[i + 1];
      BmpUtf16Length(s[1..]);
    }
  }

  /** A string of digits has as many code units as characters. */
  lemma DigitsUtf16Length(s: string)
    requires AllDigits(s)
    ensures Utf16Length(s) == |s|
  {
    BmpUtf16Length(s);
  }

  /** No digit is white space, so a non-empty string of digits is never blank. */
  lemma DigitsAreNotBlank(s: string)
    requires AllDigits(s) && |s| > 0
    ensures !IsNullOrWhiteSpace(s)
  {
    assert IsDigit(s[0]);
  }

  /** A string that starts with '+' is not blank. */
  lemma PlusPrefixIsNotBlank(s: string)
    requires StartsWith(s, "+")
    ensures !IsNullOrWhiteSpace(s) && s[0] == '+'
  {
    assert s[..1][0] == s[0];
  }
}
