/**
 * The meaning of the rule builders the validators use: NotEmpty on strings,
 * identifiers and dates, and MaximumLength on strings.
 */
module ValidationRules {
  import opened Common

  /** char.IsWhiteSpace: the separator categories Zs, Zl, Zp and U+0009–U+000D, U+0085. */
  predicate IsWhiteSpace(c: char) {
    var n := c as int;
    (9 <= n <= 13) || n == 0x20 || n == 0x85 || n == 0xA0 || n == 0x1680
    || (0x2000 <= n <= 0x200A) || n == 0x2028 || n == 0x2029 || n == 0x202F
    || n == 0x205F || n == 0x3000
  }

  /** NotEmpty on a string: not empty and not made only of white space. */
  predicate NotBlank(s: string) {
    exists i :: 0 <= i < |s| && !IsWhiteSpace(s[i])
  }

  /** NotEmpty on a Guid or a DateTime: not the type's default value. */
  predicate NotEmptyGuid(g: Guid) {
    g != EmptyGuid
  }

  predicate NotDefaultInstant(t: Instant) {
    t != DefaultInstant
  }

  /** string.Length counts UTF-16 code units: a character outside the BMP takes two. */
  function Utf16Length(s: string): (n: nat)
    ensures |s| <= n <= 2 * |s|
  {
    if s == [] then 0
    else Utf16Length(s[..|s| - 1]) + (if s[|s| - 1] as int > 0xFFFF then 2 else 1)
  }

  predicate MaximumLength(s: string, max: nat) {
    Utf16Length(s) <= max
  }

  /** For text inside the BMP the UTF-16 length is the number of characters. */
  lemma {:induction false} Utf16LengthOfBmpText(s: string)
    requires forall i :: 0 <= i < |s| ==> s[i] as int <= 0xFFFF
    ensures Utf16Length(s) == |s|
  {
    if s != [] {
      Utf16LengthOfBmpText(s[..|s| - 1]);
    }
  }

  lemma NotBlankExamples()
    ensures !NotBlank("") && !NotBlank("   ") && !NotBlank("\t\n")
    ensures NotBlank("Test Product")
  {
    assert !IsWhiteSpace("Test Product"[0]);
  }
}
