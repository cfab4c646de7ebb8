/**
  The regular expressions of the schemas, as predicates over characters.
  JavaScript regular expressions without the `u` flag read `\d` as the ASCII
  digits and `\s` as WhiteSpace plus LineTerminator; `^...$` without the `m`
  flag anchors at the two ends of the whole string.
 */
module Patterns {
  import opened Js

  /** `^[a-zA-Z\s]+$`: at least one character, each an ASCII letter or white space. */
  predicate FullNamePattern(s: string) {
    |s| >= 1 && forall i :: 0 <= i < |s| ==> IsAsciiLetter(s[i]) || IsJsWhitespace(s[i])
  }

  /** What is left once the optional leading `\+?` has been consumed. */
  function StripPlus(s: string): (d: string)
    ensures |d| <= |s|
  {
    if |s| > 0 && s[0] == '+' then s[1..] else s
  }

  /**
    `^\+?[1-9]\d{1, 14}$` as a JavaScript engine reads it. `{1, 14}` holds a
    space, so it is not a quantifier: its seven characters match themselves,
    after exactly one `\d`.
   */
  predicate PhonePatternAsWritten(s: string) {
    var d := StripPlus(s);
    |d| == 9 && IsNonZeroDigit(d[0]) && IsDigit(d[1]) && d[2..] == "{1, 14}"
  }

  /** `^\+?[1-9]\d{1,14}$`: an optional plus, then 2 to 15 digits of which the first is not 0. */
  predicate IntlPhonePattern(s: string) {
    var d := StripPlus(s);
    2 <= |d| <= 15 && IsNonZeroDigit(d[0]) && AllDigits(d)
  }

  /** No string of digits, with or without a leading plus, matches the personal phone pattern. */
  lemma NoNumericPhoneMatchesAsWritten(s: string)
    requires AllDigits(StripPlus(s))
    ensures !PhonePatternAsWritten(s)
  {
    var d := StripPlus(s);
    if |d| >= 3 {
      assert d[2..][0] == d[2] && IsDigit(d[2]);
    }
  }

  /** The field's own placeholder is refused by the personal pattern and accepted by the reference pattern. */
  lemma PlaceholderPhone()
    ensures !PhonePatternAsWritten("+919820202034")
    ensures IntlPhonePattern("+919820202034")
  {
    NoNumericPhoneMatchesAsWritten("+919820202034");
  }

  /** The one shape the personal pattern accepts: two digits followed by the literal text. */
  lemma PhoneAsWrittenExample()
    ensures PhonePatternAsWritten("+91{1, 14}")
    ensures PhonePatternAsWritten("91{1, 14}")
  {
    assert StripPlus("+91{1, 14}") == "91{1, 14}";
  }

  predicate NoAt(s: string) {
    forall i :: 0 <= i < |s| ==> s[i] != '@'
  }

  /** The `@` sits at i and the `.` at j in a match of the e-mail alternative. */
  predicate EmailSplitAt(s: string, i: int, j: int)
    requires 0 <= i < j < |s|
  {
    s[i] == '@' && s[j] == '.' && NoAt(s[..i]) && NoAt(s[i + 1..])
  }

  /** `^[^@]+@[^@]+\.[^@]+$`, by the positions of its `@` and of one `.` after it. */
  predicate BasicEmailPattern(s: string) {
    exists i, j | 0 < i && i + 1 < j < |s| - 1 :: EmailSplitAt(s, i, j)
  }

  /** The regular expression read as a concatenation of its parts. */
  ghost predicate EmailParts(s: string, a: string, c: string, d: string) {
    && s == a + "@" + c + "." + d
    && |a| > 0 && |c| > 0 && |d| > 0
    && NoAt(a) && NoAt(c) && NoAt(d)
  }

  /** The position reading and the concatenation reading of the e-mail alternative agree. */
  lemma BasicEmailPatternParts(s: string)
    ensures BasicEmailPattern(s) <==> exists a, c, d :: EmailParts(s, a, c, d)
  {
    if BasicEmailPattern(s) {
      var i, j :| 0 < i && i + 1 < j < |s| - 1 && EmailSplitAt(s, i, j);
      var a, c, d := s[..i], s[i + 1..j], s[j + 1..];
      assert s == a + "@" + c + "." + d;
      assert NoAt(c) by {
        forall k | 0 <= k < |c| ensures c[k] != '@' {
          assert c[k] == s[i + 1..][k];
        }
      }
      assert NoAt(d) by {
        forall k | 0 <= k < |d| ensures d[k] != '@' {
          assert d[k] == s[i + 1..][j - i + k];
        }
      }
      assert EmailParts(s, a, c, d);
    }
    if exists a, c, d :: EmailParts(s, a, c, d) {
      var a, c, d :| EmailParts(s, a, c, d);
      var i, j := |a|, |a| + 1 + |c|;
      assert s[..i] == a;
      assert s[i + 1..] == c + "." + d;
      assert NoAt(c + "." + d) by {
        forall k | 0 <= k < |c + "." + d| ensures (c + "." + d)[k] != '@' {
          if k < |c| {
            assert (c + "." + d)[k] == c[k];
          } else if k > |c| {
            assert (c + "." + d)[k] == d[k - |c| - 1];
          }
        }
      }
      assert EmailSplitAt(s, i, j);
    }
  }

  /** `^\d{4}$`. */
  predicate FourDigitPattern(s: string) {
    |s| == 4 && AllDigits(s)
  }
}
