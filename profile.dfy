/**
 * The profile page (src/pages/Profile.tsx): the profile fields are sent to
 * `updateProfile`, and the password form is checked before
 * `changePassword` is called, then cleared when the change succeeds.
 */
module Profile {
  import opened Wrappers
  import opened PasswordRules
  import Auth

  datatype ProfileFields = ProfileFields(firstName: string, lastName: string, email: string, phone: string)

  datatype PasswordForm = PasswordForm(current: string, next: string, confirmation: string)

  const EmptyPasswordForm := PasswordForm("", "", "")

  /** The profile fields the page starts from: the session user's, empty where absent. */
  function InitialFields(session: Option<Auth.User>): (f: ProfileFields)
    ensures session.None? ==> f == ProfileFields("", "", "", "")
    ensures session.Some? ==>
      && f.firstName == session.value.firstName && f.lastName == session.value.lastName
      && f.email == session.value.email
      && f.phone == (if session.value.phone.Some? then session.value.phone.value else "")
  {
    if session.None? then ProfileFields("", "", "", "")
    else
      var u := session.value;
      ProfileFields(u.firstName, u.lastName, u.email, if u.phone.Some? then u.phone.value else "")
  }

  /** `handleProfileSubmit` sends the four fields, and only those. */
  function FieldsPatch(f: ProfileFields): (p: Auth.Patch)
    ensures p == Auth.NoChange.(firstName := Some(f.firstName), lastName := Some(f.lastName),
                                email := Some(f.email), phone := Some(f.phone))
  {
    Auth.Patch(None, Some(f.email), None, None, Some(f.firstName), Some(f.lastName), Some(f.phone), None)
  }

  /** The messages shown when the form is refused before the call. */
  function RefusalMessage(v: Verdict): string {
    match v
    case Mismatch => "Les nouveaux mots de passe ne correspondent pas"
    case TooShort => "Le mot de passe doit contenir au moins 6 caractères"
    case Acceptable => ""
  }

  /**
   * A corollary of `PasswordRules.Check`: entries that differ and are too
   * short are refused as a mismatch, since that check comes first.
   */
  lemma MismatchReportedFirst(form: PasswordForm)
    requires form.next != form.confirmation && |form.next| < MinLength
    ensures Check(form.next, form.confirmation) == Mismatch
  {
  }

  /** The form after an answer: cleared on success, kept otherwise. */
  function FormAfter(form: PasswordForm, o: Auth.Outcome): (r: PasswordForm)
    ensures o.success ==> r == EmptyPasswordForm
    ensures !o.success ==> r == form
  {
    if o.success then EmptyPasswordForm else form
  }

  method SubmitProfile(auth: Auth.AuthStore, f: ProfileFields) returns (o: Auth.Outcome)
    modifies auth
    ensures auth.users == old(auth.users)
    ensures o == Auth.Answer(Auth.ProfileUpdate(old(auth.session), FieldsPatch(f)), Auth.ProfileUpdated)
  {
    o := auth.UpdateProfile(FieldsPatch(f));
  }

  /**
   * `handlePasswordSubmit`: a refused form reaches no auth call and keeps
   * its entries; an accepted one is sent to `changePassword`, and the
   * form is cleared exactly when that succeeds.
   */
  method SubmitPassword(auth: Auth.AuthStore, form: PasswordForm) returns (after: PasswordForm, shown: string, changed: bool)
    modifies auth
    ensures auth.users == old(auth.users)
    ensures Check(form.next, form.confirmation) != Acceptable ==>
      && auth.session == old(auth.session) && after == form && !changed
      && shown == RefusalMessage(Check(form.next, form.confirmation))
    ensures Check(form.next, form.confirmation) == Acceptable ==>
      var o := Auth.Answer(Auth.PasswordChange(old(auth.session), form.current, form.next), Auth.PasswordUpdated);
      && changed == o.success && shown == o.message && after == FormAfter(form, o)
      && auth.session == match Auth.PasswordChange(old(auth.session), form.current, form.next)
           case Ok(u) => Some(u)
           case Err(_) => old(auth.session)
  {
    var v := Check(form.next, form.confirmation);
    if v != Acceptable {
      after, shown, changed := form, RefusalMessage(v), false;
    } else {
      var o := auth.ChangePassword(form.current, form.next);
      after, shown, changed := FormAfter(form, o), o.message, o.success;
    }
  }
}
