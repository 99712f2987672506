/** The client-side policy that the new-password form applies before it asks the
    authentication client to set a new password.

    The form tests its value against the regular expression
      ^(?=.*[a-z])(?=.*[A-Z])(?=.*\d)(?=.*[@$!%*?&])[A-Za-z\d@$!%*?&]{8,}$
    (no flags). `RegexMatches` gives the meaning of that expression, lookaheads
    included; `MeetsCriteria` states the same policy in plain words (stricter than the
    form's hint, which neither names the allowed special characters nor forbids
    any others); `RegexMatchesIffCriteria` proves that the two agree on every string.
 */
module PasswordPolicy {

  /** The four character classes the expression requires one of each of. */
  datatype CharClass = Lower | Upper | Digit | Special

  predicate IsLower(c: char) { 'a' <= c <= 'z' }

  predicate IsUpper(c: char) { 'A' <= c <= 'Z' }

  /** `\d` without the `u` flag is exactly the ASCII digits. */
  predicate IsDigit(c: char) { '0' <= c <= '9' }

  /** The class `[@$!%*?&]`. */
  predicate IsSpecial(c: char) {
    c == '@' || c == '$' || c == '!' || c == '%' || c == '*' || c == '?' || c == '&'
  }

  predicate InClass(c: char, k: CharClass) {
    match k
    case Lower => IsLower(c)
    case Upper => IsUpper(c)
    case Digit => IsDigit(c)
    case Special => IsSpecial(c)
  }

  /** The class `[A-Za-z\d@$!%*?&]` that every character must be drawn from. */
  predicate IsPolicyChar(c: char) {
    IsLower(c) || IsUpper(c) || IsDigit(c) || IsSpecial(c)
  }

  /** The characters that `.` does not match (line terminators). */
  predicate IsLineTerminator(c: char) {
    c == '\n' || c == '\r' || c == '\U{2028}' || c == '\U{2029}'
  }

  predicate NoLineTerminator(s: string) {
    forall i :: 0 <= i < |s| ==> !IsLineTerminator(s[i])
  }

  /** `(?=.*[k])` tried at position 0: some character of class `k` is preceded
      only by characters that `.` matches. */
  predicate LookaheadFinds(s: string, k: CharClass) {
    exists j :: 0 <= j < |s| && InClass(s[j], k) && NoLineTerminator(s[..j])
  }

  /** `^[A-Za-z\d@$!%*?&]{8,}$`: the whole string, at least 8 characters, in the class. */
  predicate BodyMatches(s: string) {
    |s| >= 8 && forall i :: 0 <= i < |s| ==> IsPolicyChar(s[i])
  }

  /** The expression above, read as anchored at both ends. */
  predicate RegexMatches(s: string) {
    LookaheadFinds(s, Lower) && LookaheadFinds(s, Upper) && LookaheadFinds(s, Digit)
    && LookaheadFinds(s, Special) && BodyMatches(s)
  }

  predicate Contains(s: string, k: CharClass) {
    exists j :: 0 <= j < |s| && InClass(s[j], k)
  }

  /** The policy in plain words: at least 8 characters, all from the allowed set,
      at least one lowercase letter, one uppercase letter, one digit and one of
      `@$!%*?&`. */
  predicate MeetsCriteria(s: string) {
    |s| >= 8
    && (forall i :: 0 <= i < |s| ==> IsPolicyChar(s[i]))
    && Contains(s, Lower) && Contains(s, Upper) && Contains(s, Digit) && Contains(s, Special)
  }

  lemma PolicyCharsHaveNoLineTerminator(s: string)
    requires forall i :: 0 <= i < |s| ==> IsPolicyChar(s[i])
    ensures NoLineTerminator(s)
  {
  }

  /** In a string of policy characters, a lookahead finds class `k` exactly
      when the string contains class `k`. */
  lemma LookaheadFindsIffContains(s: string, k: CharClass)
    requires forall i :: 0 <= i < |s| ==> IsPolicyChar(s[i])
    ensures LookaheadFinds(s, k) <==> Contains(s, k)
  {
    if Contains(s, k) {
      var j :| 0 <= j < |s| && InClass(s[j], k);
      PolicyCharsHaveNoLineTerminator(s[..j]);
      assert InClass(s[j], k) && NoLineTerminator(s[..j]);
    }
  }

  /** The expression and the plain-words policy accept the same strings. */
  lemma RegexMatchesIffCriteria(s: string)
    ensures RegexMatches(s) <==> MeetsCriteria(s)
  {
    if forall i :: 0 <= i < |s| ==> IsPolicyChar(s[i]) {
      LookaheadFindsIffContains(s, Lower);
      LookaheadFindsIffContains(s, Upper);
      LookaheadFindsIffContains(s, Digit);
      LookaheadFindsIffContains(s, Special);
    }
  }

  /** The three outcomes of a new-password submission. */
  datatype Verdict = Mismatch | FailsCriteria | Accepted

  /** The decision the new-password form makes on its two fields: the two
      values are compared first, the expression is tried only on a match. */
  function CheckNewPassword(password: string, retyped: string): (v: Verdict)
    ensures v == Mismatch <==> password != retyped
    ensures v == FailsCriteria <==> password == retyped && !MeetsCriteria(password)
    ensures v == Accepted <==> password == retyped && MeetsCriteria(password)
  {
    RegexMatchesIffCriteria(password);
    if password != retyped then Mismatch
    else if !RegexMatches(password) then FailsCriteria
    else Accepted
  }

  /** A character outside `[A-Za-z0-9@$!%*?&]` anywhere rejects the password. */
  lemma ForeignCharRejects(s: string, i: nat)
    requires i < |s| && !IsPolicyChar(s[i])
    ensures !MeetsCriteria(s) && CheckNewPassword(s, s) == FailsCriteria
  {
  }

  lemma SpaceOrHashRejects(s: string, i: nat)
    requires i < |s| && (s[i] == ' ' || s[i] == '#')
    ensures CheckNewPassword(s, s) == FailsCriteria
  {
    ForeignCharRejects(s, i);
  }

  /** Strings shorter than 8 characters are rejected whatever they contain. */
  lemma ShortRejects(s: string)
    requires |s| < 8
    ensures CheckNewPassword(s, s) == FailsCriteria
  {
  }

  /** "Passw0rd!" is accepted. */
  lemma ExampleAccepted()
    ensures CheckNewPassword("Passw0rd!", "Passw0rd!") == Accepted
  {
    var s := "Passw0rd!";
    assert InClass(s[1], Lower) && InClass(s[0], Upper) && InClass(s[5], Digit) && InClass(s[8], Special);
  }

  /** "password1" has no uppercase letter, "PASSWORD1!" no lowercase letter,
      "Pass1!" is too short. */
  lemma ExamplesRejected()
    ensures CheckNewPassword("password1", "password1") == FailsCriteria
    ensures CheckNewPassword("PASSWORD1!", "PASSWORD1!") == FailsCriteria
    ensures CheckNewPassword("Pass1!", "Pass1!") == FailsCriteria
  {
    var a := "password1";
    assert !Contains(a, Upper) by {
      forall j | 0 <= j < |a| ensures !IsUpper(a[j]) { }
    }
    var b := "PASSWORD1!";
    assert !Contains(b, Lower) by {
      forall j | 0 <= j < |b| ensures !IsLower(b[j]) { }
    }
  }

  /** Two different values are a mismatch even when each would meet the policy. */
  lemma ExampleMismatch()
    ensures CheckNewPassword("Passw0rd!", "Passw0rd?") == Mismatch
  {
  }
}
