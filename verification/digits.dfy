/**
 The all-digits patterns `^\d{10}$` (phone) and `^\d{16}$` (policy number)
 used by the forms, which WTForms' `Regexp` applies with Python's `re.match`.
 Digits here are the ASCII digits `0`-`9`.
 */
module Digits {

  predicate IsDigit(c: char)
  {
    '0' <= c <= '9'
  }

  /** Exactly `n` digits and nothing else: what the patterns are meant to accept. */
  predicate ExactDigits(s: string, n: nat)
  {
    |s| == n && forall i :: 0 <= i < |s| ==> IsDigit(s[i])
  }

  /**
   What `re.match(r"^\d{n}$", s)` accepts as written: Python's `$` also
   matches just before a newline that ends the string, so `n` digits
   followed by one `"\n"` pass as well.
   */
  predicate RegexAccepts(s: string, n: nat)
  {
    (|s| == n || (|s| == n + 1 && s[n] == '\n'))
    && forall i :: 0 <= i < n ==> IsDigit(s[i])
  }

  /**
   The pattern as written accepts exactly the intended strings plus those
   strings followed by a single newline.
   */
  lemma RegexAcceptsExactly(s: string, n: nat)
    ensures RegexAccepts(s, n) <==> ExactDigits(s, n) || (|s| == n + 1 && ExactDigits(s[..n], n) && s == s[..n] + "\n")
  {
    if |s| == n + 1 && ExactDigits(s[..n], n) && s == s[..n] + "\n" {
      assert s[n] == '\n';
      assert forall i :: 0 <= i < n ==> s[i] == s[..n][i];
    }
    if RegexAccepts(s, n) && |s| == n + 1 {
      assert s == s[..n] + "\n";
    }
  }
}
