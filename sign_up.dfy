/** The sign-up password rule, the regular expression
    `^(?=.*[a-z])(?=.*[A-Z])(?=.*\d).{6,}$` without flags, written out as
    the matcher runs it: three lookaheads from the start of the string, then
    at least six characters none of which ends a line, up to the end. */
module SignUp {

  /** The characters `.` does not match without the `s` flag. */
  predicate IsLineTerminator(c: char) {
    c == '\n' || c == '\r' || c == '\U{2028}' || c == '\U{2029}'
  }

  datatype CharClass = LowerLetter | UpperLetter | Digit

  /** `[a-z]`, `[A-Z]` and `\d` (which is `[0-9]`). */
  predicate InClass(k: CharClass, c: char) {
    match k
    case LowerLetter => 'a' <= c <= 'z'
    case UpperLetter => 'A' <= c <= 'Z'
    case Digit => '0' <= c <= '9'
  }

  /** `(?=.*[k])` at the start of `p`: some character of class `k` is reached
      after a run of characters that are not line terminators. */
  predicate LookaheadFinds(p: string, k: CharClass) {
    p != [] && (InClass(k, p[0]) || (!IsLineTerminator(p[0]) && LookaheadFinds(p[1..], k)))
  }

  /** `.*$` from the start: no character of `p` is a line terminator. */
  predicate DotsToEnd(p: string) {
    p == [] || (!IsLineTerminator(p[0]) && DotsToEnd(p[1..]))
  }

  /** The whole pattern. */
  predicate PasswordAccepted(p: string) {
    && LookaheadFinds(p, LowerLetter)
    && LookaheadFinds(p, UpperLetter)
    && LookaheadFinds(p, Digit)
    && |p| >= 6 && DotsToEnd(p)
  }

  predicate Contains(p: string, k: CharClass) {
    exists i :: 0 <= i < |p| && InClass(k, p[i])
  }

  predicate OneLine(p: string) {
    forall i :: 0 <= i < |p| ==> !IsLineTerminator(p[i])
  }

  lemma {:induction false} LookaheadContains(p: string, k: CharClass)
    requires LookaheadFinds(p, k)
    ensures Contains(p, k)
  {
    if !InClass(k, p[0]) {
      LookaheadContains(p[1..], k);
      var i :| 0 <= i < |p[1..]| && InClass(k, p[1..][i]);
      assert InClass(k, p[i + 1]);
    }
  }

  lemma {:induction false} ContainsLookahead(p: string, k: CharClass)
    requires Contains(p, k) && OneLine(p)
    ensures LookaheadFinds(p, k)
  {
    if !InClass(k, p[0]) {
      var i :| 0 <= i < |p| && InClass(k, p[i]);
      assert i > 0 && InClass(k, p[1..][i - 1]);
      ContainsLookahead(p[1..], k);
    }
  }

  lemma {:induction false} DotsToEndIsOneLine(p: string)
    ensures DotsToEnd(p) <==> OneLine(p)
  {
    if p != [] {
      DotsToEndIsOneLine(p[1..]);
      assert forall i :: 1 <= i < |p| ==> p[i] == p[1..][i - 1];
    }
  }

  /** An accepted password is at least six characters long, on one line, and
      has a lower-case letter, an upper-case letter and a digit. */
  lemma AcceptedMeetsRules(p: string)
    requires PasswordAccepted(p)
    ensures |p| >= 6 && OneLine(p)
    ensures Contains(p, LowerLetter) && Contains(p, UpperLetter) && Contains(p, Digit)
  {
    DotsToEndIsOneLine(p);
    LookaheadContains(p, LowerLetter);
    LookaheadContains(p, UpperLetter);
    LookaheadContains(p, Digit);
  }

  /** Conversely, any one-line string of six or more characters with the three
      kinds of character is accepted, whatever its other characters are. */
  lemma RulesMeanAccepted(p: string)
    requires |p| >= 6 && OneLine(p)
    requires Contains(p, LowerLetter) && Contains(p, UpperLetter) && Contains(p, Digit)
    ensures PasswordAccepted(p)
  {
    DotsToEndIsOneLine(p);
    ContainsLookahead(p, LowerLetter);
    ContainsLookahead(p, UpperLetter);
    ContainsLookahead(p, Digit);
  }

  datatype RegisterStep = PasswordRejected(message: string) | CreateUser(email: string, password: string)

  /** The start of the registration handler: a password the rule refuses ends
      it with the error message, before the account is created. */
  function Register(email: string, password: string): (s: RegisterStep)
    ensures s.CreateUser? <==> PasswordAccepted(password)
    ensures s.CreateUser? ==> s.email == email && s.password == password
  {
    if !PasswordAccepted(password) then
      PasswordRejected("Password must include uppercase, lowercase, and a number (min 6 characters)")
    else CreateUser(email, password)
  }

  /** Six characters with all three kinds pass; five do not; a line break
      anywhere fails the rule. */
  lemma Examples()
    ensures PasswordAccepted("abcDE1")
    ensures !PasswordAccepted("abDE1")
    ensures !PasswordAccepted("abc\nDE1")
  {
    RulesMeanAccepted("abcDE1") by {
      assert InClass(LowerLetter, "abcDE1"[0]);
      assert InClass(UpperLetter, "abcDE1"[3]);
      assert InClass(Digit, "abcDE1"[5]);
    }
    assert !OneLine("abc\nDE1") by {
      assert IsLineTerminator("abc\nDE1"[3]);
    }
    DotsToEndIsOneLine("abc\nDE1");
  }
}
