/**
 * The check both password forms run before calling the auth context
 * (src/pages/Profile.tsx, src/pages/Register.tsx): first that the two
 * entries agree, then that the password is long enough.
 */
module PasswordRules {

  const MinLength := 6

  datatype Verdict = Mismatch | TooShort | Acceptable

  /** The confirmation check comes first, the length check second. */
  function Check(password: string, confirmation: string): (v: Verdict)
    ensures v == Mismatch <==> password != confirmation
    ensures v == TooShort <==> password == confirmation && |password| < MinLength
    ensures v == Acceptable <==> password == confirmation && |password| >= MinLength
  {
    if password != confirmation then Mismatch
    else if |password| < MinLength then TooShort
    else Acceptable
  }
}
