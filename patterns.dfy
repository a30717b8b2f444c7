/** The two fixed regular expressions of the account-creation form, as
    predicates over strings:
      email   /^[^\s@]+@[^\s@]+\.[^\s@]+$/
      mobile  /^\d{10}$/
    Each has a scanning matcher proved equal to it. */
module Patterns {

  /** `\s`: the WhiteSpace code points of section 12.2 of ECMA-262 (TAB, VT,
      FF, ZWNBSP and the Unicode category Zs) and its LineTerminator code
      points of section 12.3 (LF, CR, LS, PS). */
  predicate IsWhiteSpace(c: char) {
    var n := c as int;
    || n == 0x0009 || n == 0x000B || n == 0x000C || n == 0xFEFF
    || n == 0x0020 || n == 0x00A0 || n == 0x1680
    || (0x2000 <= n <= 0x200A) || n == 0x202F || n == 0x205F || n == 0x3000
    || n == 0x000A || n == 0x000D || n == 0x2028 || n == 0x2029
  }

  /** `\d` without the `u` flag: exactly the ASCII digits. */
  predicate IsDigit(c: char) {
    '0' <= c <= '9'
  }

  /** The character class `[^\s@]`. */
  predicate IsAddressChar(c: char) {
    !IsWhiteSpace(c) && c != '@'
  }

  predicate AllAddressChars(s: string) {
    forall k :: 0 <= k < |s| ==> IsAddressChar(s[k])
  }

  /** `s` matches the email pattern with its literal `@` at `i` and its
      literal `.` at `j`: each of the three `[^\s@]+` runs is non-empty. */
  ghost predicate EmailSplit(s: string, i: int, j: int) {
    && 0 < i && i + 1 < j && j + 1 < |s|
    && s[i] == '@' && s[j] == '.'
    && AllAddressChars(s[..i]) && AllAddressChars(s[i + 1..j]) && AllAddressChars(s[j + 1..])
  }

  /** What `emailRegex.test(s)` answers: some way of splitting `s` matches. */
  ghost predicate EmailPattern(s: string) {
    exists i, j :: EmailSplit(s, i, j)
  }

  predicate NoWhiteSpace(s: string) {
    forall k :: 0 <= k < |s| ==> !IsWhiteSpace(s[k])
  }

  /** Position `a` holds the only `@` of `s`. */
  predicate OnlyAtSign(s: string, a: int) {
    0 <= a < |s| && s[a] == '@' && forall k :: 0 <= k < |s| && k != a ==> s[k] != '@'
  }

  /** `d` has a `.` with at least one character on each side of it. */
  predicate HasInnerDot(d: string) {
    exists k :: 0 < k < |d| - 1 && d[k] == '.'
  }

  /** The email rule stated on characters: no white space, exactly one `@`,
      something before it, and after it a domain with an inner dot. */
  predicate IsValidEmail(s: string) {
    NoWhiteSpace(s) && exists a :: 0 < a < |s| && OnlyAtSign(s, a) && HasInnerDot(s[a + 1..])
  }

  /** What `phoneRegex.test(s)` answers. */
  predicate IsValidMobile(s: string) {
    |s| == MobileLength && forall k :: 0 <= k < |s| ==> IsDigit(s[k])
  }

  const MobileLength := 10

  /** The regular expression and the character-level rule accept the same strings. */
  lemma EmailPatternIff(s: string)
    ensures EmailPattern(s) <==> IsValidEmail(s)
  {
    if EmailPattern(s) {
      var i, j :| EmailSplit(s, i, j);
      SplitCovers(s, i, j);
      assert OnlyAtSign(s, i);
      assert s[i + 1..][j - i - 1] == '.';
      assert HasInnerDot(s[i + 1..]);
    }
    if IsValidEmail(s) {
      var a :| 0 < a < |s| && OnlyAtSign(s, a) && HasInnerDot(s[a + 1..]);
      var k :| 0 < k < |s[a + 1..]| - 1 && s[a + 1..][k] == '.';
      var j := a + 1 + k;
      assert s[j] == '.';
      PartsAreAddressChars(s, a, j);
      assert EmailSplit(s, a, j);
    }
  }

  /** Every character of a matched string is either in one of the three runs
      or is the literal `@` or `.`. */
  lemma SplitCovers(s: string, i: int, j: int)
    requires EmailSplit(s, i, j)
    ensures NoWhiteSpace(s)
    ensures forall k :: 0 <= k < |s| && k != i ==> s[k] != '@'
  {
  }

  /** With no white space and a single `@`, the three runs around `a` and `j`
      hold only address characters. */
  lemma PartsAreAddressChars(s: string, a: int, j: int)
    requires NoWhiteSpace(s) && OnlyAtSign(s, a) && a < j < |s| && s[j] == '.'
    ensures AllAddressChars(s[..a]) && AllAddressChars(s[a + 1..j]) && AllAddressChars(s[j + 1..])
  {
  }

  /** Decides the email pattern: a scan for white space and the `@`, then a
      scan of the domain for an inner `.`. */
  method MatchEmail(s: string) returns (ok: bool)
    ensures ok == IsValidEmail(s)
    ensures ok <==> EmailPattern(s)
  {
    EmailPatternIff(s);
    var at := -1;
    var i := 0;
    while i < |s|
      invariant 0 <= i <= |s|
      invariant forall k :: 0 <= k < i ==> !IsWhiteSpace(s[k])
      invariant at == -1 ==> forall k :: 0 <= k < i ==> s[k] != '@'
      invariant at != -1 ==> 0 <= at < i && s[at] == '@' && forall k :: 0 <= k < i && k != at ==> s[k] != '@'
    {
      if IsWhiteSpace(s[i]) {
        return false;
      }
      if s[i] == '@' {
        if at != -1 {
          assert forall a :: 0 <= a < |s| ==> !OnlyAtSign(s, a) by {
            forall a | 0 <= a < |s| ensures !OnlyAtSign(s, a) {
              if a != i { assert s[i] == '@'; } else { assert s[at] == '@' && at != a; }
            }
          }
          return false;
        }
        at := i;
      }
      i := i + 1;
    }
    if at <= 0 {
      assert forall a :: 0 < a < |s| ==> !OnlyAtSign(s, a) by {
        forall a | 0 < a < |s| ensures !OnlyAtSign(s, a) {
          if at == 0 { assert s[0] == '@'; }
        }
      }
      return false;
    }
    assert OnlyAtSign(s, at);
    assert forall a :: 0 < a < |s| && OnlyAtSign(s, a) ==> a == at;
    // Look for a `.` strictly inside the domain s[at + 1..].
    var j := at + 2;
    while j < |s| - 1
      invariant at + 2 <= j
      invariant forall k :: at + 2 <= k < j && k < |s| - 1 ==> s[k] != '.'
    {
      if s[j] == '.' {
        assert s[at + 1..][j - at - 1] == '.';
        return true;
      }
      j := j + 1;
    }
    var domain := s[at + 1..];
    assert !HasInnerDot(domain) by {
      forall k | 0 < k < |domain| - 1 ensures domain[k] != '.' {
        assert domain[k] == s[at + 1 + k];
      }
    }
    return false;
  }

  /** A scan deciding the mobile-number pattern. */
  method MatchMobile(s: string) returns (ok: bool)
    ensures ok == IsValidMobile(s)
  {
    if |s| != MobileLength {
      return false;
    }
    var i := 0;
    while i < |s|
      invariant 0 <= i <= |s|
      invariant forall k :: 0 <= k < i ==> IsDigit(s[k])
    {
      if !IsDigit(s[i]) {
        return false;
      }
      i := i + 1;
    }
    return true;
  }
}
