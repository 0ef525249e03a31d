/**
 * The registration page (src/pages/Register.tsx): the password and its
 * confirmation are checked, and only a form that passes is sent to
 * `register`, without the confirmation.
 */
module SignUp {
  import opened Wrappers
  import opened Clock
  import opened PasswordRules
  import Auth

  datatype SignUpForm = SignUpForm(
    firstName: string,
    lastName: string,
    email: string,
    phone: string,
    password: string,
    confirmation: string,
    role: Auth.RegistrableRole)

  const EmptyForm := SignUpForm("", "", "", "", "", "", Auth.AsPatient)

  function RefusalMessage(v: Verdict): string {
    match v
    case Mismatch => "Les mots de passe ne correspondent pas"
    case TooShort => "Le mot de passe doit contenir au moins 6 caractères"
    case Acceptable => ""
  }

  /** The welcome shown after a successful registration depends on the role chosen. */
  function WelcomeMessage(role: Auth.RegistrableRole): string {
    if role == Auth.AsDoctor then "Votre compte sera activé après validation par l'administrateur"
    else "Bienvenue sur MediCare SIH"
  }

  /** The data handed to `register`: the form's fields unchanged, the confirmation dropped. */
  function RegistrationOf(f: SignUpForm): (d: Auth.Registration)
    ensures d.email == f.email && d.password == f.password
    ensures d.firstName == f.firstName && d.lastName == f.lastName
    ensures d.phone == Some(f.phone) && d.role == f.role
  {
    Auth.Registration(f.email, f.password, f.firstName, f.lastName, Some(f.phone), f.role)
  }

  /**
   * A corollary of `RegistrationOf`: forms that differ only in the
   * confirmation send the same data.
   */
  lemma ConfirmationNotSent(f: SignUpForm, c: string)
    ensures RegistrationOf(f.(confirmation := c)) == RegistrationOf(f)
  {
  }

  /**
   * `handleSubmit`: a refused form leaves the auth state alone; an
   * accepted one is registered, and `navigated` tells whether the page
   * moves on to the dashboard.
   */
  method Submit(auth: Auth.AuthStore, f: SignUpForm, clock: Instant) returns (navigated: bool, shown: string)
    modifies auth
    ensures Check(f.password, f.confirmation) != Acceptable ==>
      && auth.users == old(auth.users) && auth.session == old(auth.session)
      && !navigated && shown == RefusalMessage(Check(f.password, f.confirmation))
    ensures Check(f.password, f.confirmation) == Acceptable ==>
      && auth.users == Auth.Registered(old(auth.users), RegistrationOf(f), clock)
      && (navigated <==> !Auth.EmailTaken(old(auth.users), f.email))
      && (navigated ==> auth.session == Some(Auth.NewUser(RegistrationOf(f), clock)) && shown == WelcomeMessage(f.role))
      && (!navigated ==> auth.session == old(auth.session) && shown == Auth.ErrorMessage(Auth.EmailInUse))
  {
    var v := Check(f.password, f.confirmation);
    if v != Acceptable {
      navigated, shown := false, RefusalMessage(v);
    } else {
      var o := auth.Register(RegistrationOf(f), clock);
      navigated := o.success;
      shown := if o.success then WelcomeMessage(f.role) else o.message;
    }
  }
}
