/** The credential rules that every account and fixed deposit applies, in
    both versions of the object model: the checks a constructor runs before
    it assigns a field, and the checks of the `name` and `passwd` setters. */
module Credentials {
  import opened Outcomes

  const MIN_PASSWD_LENGTH: nat := 8

  /** The two asserts of a constructor, in their order: the funds first. */
  function CreationCheck(passwd: string, balance: real): (o: Outcome)
    ensures o.Pass? <==> balance > 0.0 && |passwd| >= MIN_PASSWD_LENGTH
    ensures balance <= 0.0 ==> o == Fail(AssertionFailed(NonPositiveFunds))
    ensures balance > 0.0 && |passwd| < MIN_PASSWD_LENGTH ==> o == Fail(AssertionFailed(ShortPassword))
  {
    if balance <= 0.0 then Fail(AssertionFailed(NonPositiveFunds))
    else if |passwd| < MIN_PASSWD_LENGTH then Fail(AssertionFailed(ShortPassword))
    else Pass
  }

  /** The `name` setter's assert: a new name must differ from the current one. */
  function NameChange(current: string, newName: string): (o: Outcome)
    ensures o.Pass? <==> newName != current
    ensures o.Fail? ==> o.error == AssertionFailed(NameInUse)
  {
    if newName == current then Fail(AssertionFailed(NameInUse)) else Pass
  }

  /** The `passwd` setter's asserts, in their order: a password equal to the
      current one is refused before its length is looked at. */
  function PasswdChange(current: string, newPasswd: string): (o: Outcome)
    ensures o.Pass? <==> newPasswd != current && |newPasswd| >= MIN_PASSWD_LENGTH
    ensures newPasswd == current ==> o == Fail(AssertionFailed(PasswordInUse))
    ensures newPasswd != current && |newPasswd| < MIN_PASSWD_LENGTH ==> o == Fail(AssertionFailed(ShortPassword))
  {
    if newPasswd == current then Fail(AssertionFailed(PasswordInUse))
    else if |newPasswd| < MIN_PASSWD_LENGTH then Fail(AssertionFailed(ShortPassword))
    else Pass
  }

  /** Setting a name or a password to its own current value is always
      refused, so a value a setter just accepted is refused when set again. */
  lemma SetterRefusesRepeat(v: string)
    ensures NameChange(v, v) == Fail(AssertionFailed(NameInUse))
    ensures PasswdChange(v, v) == Fail(AssertionFailed(PasswordInUse))
  {
  }
}
