/**
 * `check_password_complexity`: whether `re.match` finds
 *
 *   ^(?=.*[a-z])(?=.*[A-Z])(?=.*\d)(?=.*[@$!%*?&])[A-Za-z\d@$!%*?&]{8,}$
 *
 * at the start of the password. `.` stops at a newline, so each lookahead
 * searches the first line only; `$` matches at the end or just before one
 * final newline.
 */
module Password {
  import opened Text

  /** `[@$!%*?&]` */
  predicate IsSpecial(c: char)
  {
    c == '@' || c == '$' || c == '!' || c == '%' || c == '*' || c == '?' || c == '&'
  }

  /** `[A-Za-z\d@$!%*?&]` */
  predicate IsPasswordChar(c: char)
  {
    IsAsciiLetter(c) || IsDigit(c) || IsSpecial(c)
  }

  predicate NotNewline(c: char) { c != '\n' }

  /** `(?=.*[class])` at position 0: some character of the first line is in the class. */
  predicate LookaheadFinds(pw: string, p: char -> bool)
  {
    var line := RunEnd(pw, 0, NotNewline);
    exists x | 0 <= x < line :: p(pw[x])
  }

  /** `$` at position `k`. */
  predicate EndAnchor(pw: string, k: nat)
  {
    k == |pw| || (k + 1 == |pw| && pw[k] == '\n')
  }

  /**
   * The engine: the four lookaheads hold and the greedy run of password
   * characters is at least eight long and ends where `$` matches. Giving
   * back characters cannot help, since `$` never matches just after a
   * password character that is followed by another one.
   */
  function CheckPasswordComplexity(pw: string): (ok: bool)
    ensures ok ==> |pw| >= 8
    ensures ok ==> forall x | 0 <= x < |pw| - 1 :: IsPasswordChar(pw[x])
    ensures ok ==> IsPasswordChar(pw[|pw| - 1]) || pw[|pw| - 1] == '\n'
  {
    && LookaheadFinds(pw, IsAsciiLower)
    && LookaheadFinds(pw, IsAsciiUpper)
    && LookaheadFinds(pw, IsDigit)
    && LookaheadFinds(pw, IsSpecial)
    && var k := RunEnd(pw, 0, IsPasswordChar);
       k >= 8 && EndAnchor(pw, k)
  }

  /** The password without the one trailing newline that `$` lets through. */
  function Core(pw: string): (r: string)
    ensures |r| <= |pw| && r == pw[..|r|]
    ensures |pw| - |r| <= 1
    ensures |r| < |pw| <==> |pw| > 0 && pw[|pw| - 1] == '\n'
  {
    if |pw| > 0 && pw[|pw| - 1] == '\n' then pw[..|pw| - 1] else pw
  }

  predicate Contains(s: string, p: char -> bool)
  {
    exists x | 0 <= x < |s| :: p(s[x])
  }

  /**
   * The policy the pattern states: leaving out one trailing newline, at
   * least eight characters, all from `[A-Za-z0-9@$!%*?&]`, with a lower-case
   * letter, an upper-case letter, a digit and a special character among them.
   */
  predicate StrongPassword(pw: string)
  {
    var core := Core(pw);
    && |core| >= 8
    && (forall x | 0 <= x < |core| :: IsPasswordChar(core[x]))
    && Contains(core, IsAsciiLower)
    && Contains(core, IsAsciiUpper)
    && Contains(core, IsDigit)
    && Contains(core, IsSpecial)
  }

  /** Where the run of password characters stops when the password is accepted by the policy. */
  lemma StrongRunEnds(pw: string)
    requires StrongPassword(pw)
    ensures RunEnd(pw, 0, IsPasswordChar) == |Core(pw)|
    ensures RunEnd(pw, 0, NotNewline) == |Core(pw)|
  {
    var core := Core(pw);
    RunEndIs(pw, 0, |core|, IsPasswordChar);
    RunEndIs(pw, 0, |core|, NotNewline);
  }

  /** The engine accepts exactly the passwords the policy describes. */
  lemma CheckPasswordComplexityIff(pw: string)
    ensures CheckPasswordComplexity(pw) <==> StrongPassword(pw)
  {
    var k := RunEnd(pw, 0, IsPasswordChar);
    if CheckPasswordComplexity(pw) {
      assert Core(pw) == pw[..k];
      RunEndIs(pw, 0, k, NotNewline);
    }
    if StrongPassword(pw) {
      StrongRunEnds(pw);
    }
  }

  /** A single trailing newline is let through. */
  lemma TrailingNewlineAccepted()
    ensures CheckPasswordComplexity("Abcdef1!\n")
  {
    var pw := "Abcdef1!\n";
    var core := "Abcdef1!";
    assert Core(pw) == core;
    assert IsAsciiUpper(core[0]) && IsAsciiLower(core[1]) && IsDigit(core[6]) && IsSpecial(core[7]);
    assert forall x | 0 <= x < |core| :: IsPasswordChar(core[x]);
    CheckPasswordComplexityIff(pw);
  }

  /** A second trailing newline is not. */
  lemma TwoNewlinesRejected()
    ensures !CheckPasswordComplexity("Abcdef1!\n\n")
  {
    var pw := "Abcdef1!\n\n";
    assert !IsPasswordChar(pw[8]);
  }

  /** Seven characters are too few, however varied. */
  lemma ShortRejected(pw: string)
    requires |pw| < 8
    ensures !CheckPasswordComplexity(pw)
  {
    CheckPasswordComplexityIff(pw);
  }
}
