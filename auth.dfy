/**
 * The mock authentication of the auth context (src/contexts/AuthContext.tsx):
 * a table of user accounts, which registration extends in place, and the
 * session user, which login, logout, profile updates and password changes
 * replace. Each operation answers with a success flag and a message.
 */
module Auth {
  import opened Wrappers
  import opened Clock

  datatype Role = Admin | DoctorRole | PatientRole | Receptionist

  datatype User = User(
    id: string,
    email: string,
    password: string,
    role: Role,
    firstName: string,
    lastName: string,
    phone: Option<string>,
    avatar: Option<string>)

  /** The roles a visitor can register with. */
  datatype RegistrableRole = AsPatient | AsDoctor

  function RoleOf(r: RegistrableRole): Role {
    match r
    case AsPatient => PatientRole
    case AsDoctor => DoctorRole
  }

  /** What `register` receives. */
  datatype Registration = Registration(
    email: string,
    password: string,
    firstName: string,
    lastName: string,
    phone: Option<string>,
    role: RegistrableRole)

  /** `Partial<User>`: the fields given replace the session user's. */
  datatype Patch = Patch(
    id: Option<string>,
    email: Option<string>,
    password: Option<string>,
    role: Option<Role>,
    firstName: Option<string>,
    lastName: Option<string>,
    phone: Option<string>,
    avatar: Option<string>)

  datatype AuthError = BadCredentials | EmailInUse | NotSignedIn | WrongPassword

  datatype Result<T> = Ok(value: T) | Err(error: AuthError)

  /** The `{ success, message }` answer of every operation. */
  datatype Outcome = Outcome(success: bool, message: string)

  function ErrorMessage(e: AuthError): string {
    match e
    case BadCredentials => "Email ou mot de passe incorrect"
    case EmailInUse => "Cet email est déjà utilisé"
    case NotSignedIn => "Non connecté"
    case WrongPassword => "Mot de passe actuel incorrect"
  }

  const LoginSucceeded := "Connexion réussie"
  const RegisterSucceeded := "Inscription réussie"
  const ProfileUpdated := "Profil mis à jour"
  const PasswordUpdated := "Mot de passe modifié"

  function Answer<T>(r: Result<T>, success: string): (o: Outcome)
    ensures o.success <==> r.Ok?
    ensures o.message == if r.Ok? then success else ErrorMessage(r.error)
  {
    if r.Ok? then Outcome(true, success) else Outcome(false, ErrorMessage(r.error))
  }

  // ---------------------------------------------------------------------
  // The table
  // ---------------------------------------------------------------------

  /** `k` is the first account with both that email and that password. */
  predicate FirstCredentialsAt(users: seq<User>, email: string, password: string, k: int) {
    0 <= k < |users| && users[k].email == email && users[k].password == password &&
    forall j :: 0 <= j < k ==> !(users[j].email == email && users[j].password == password)
  }

  /** The lookup of `login`: the first account whose email and password both match. */
  function FindAccount(users: seq<User>, email: string, password: string): (r: Option<User>)
    ensures r.None? <==> forall k :: 0 <= k < |users| ==> !(users[k].email == email && users[k].password == password)
    ensures forall k :: FirstCredentialsAt(users, email, password, k) ==> r == Some(users[k])
  {
    if users == [] then None
    else if users[0].email == email && users[0].password == password then
      assert FirstCredentialsAt(users, email, password, 0);
      Some(users[0])
    else
      var r := FindAccount(users[1..], email, password);
      assert forall k :: FirstCredentialsAt(users, email, password, k) ==> FirstCredentialsAt(users[1..], email, password, k - 1);
      r
  }

  /** The duplicate check of `register`. */
  function EmailTaken(users: seq<User>, email: string): (taken: bool)
    ensures taken <==> exists k :: 0 <= k < |users| && users[k].email == email
  {
    if users == [] then false
    else if users[0].email == email then true
    else
      assert forall k :: 1 <= k < |users| ==> users[k] == users[1..][k - 1];
      EmailTaken(users[1..], email)
  }

  predicate EmailsUnique(users: seq<User>) {
    forall i, j :: 0 <= i < j < |users| ==> users[i].email != users[j].email
  }

  /** The account `register` creates. */
  function NewUser(data: Registration, clock: Instant): (u: User)
    ensures u.id == Stamp("user-", clock) && u.email == data.email && u.password == data.password
    ensures u.role == RoleOf(data.role) && u.firstName == data.firstName && u.lastName == data.lastName
    ensures u.phone == data.phone && u.avatar == None
  {
    User(Stamp("user-", clock), data.email, data.password, RoleOf(data.role),
         data.firstName, data.lastName, data.phone, None)
  }

  /** The table `register` leaves behind: extended by the new account, or unchanged. */
  function Registered(users: seq<User>, data: Registration, clock: Instant): (r: seq<User>)
    ensures EmailTaken(users, data.email) ==> r == users
    ensures !EmailTaken(users, data.email) ==> r == users + [NewUser(data, clock)]
  {
    if EmailTaken(users, data.email) then users else users + [NewUser(data, clock)]
  }

  /** Registration keeps the emails of the table pairwise distinct. */
  lemma RegisterKeepsEmailsUnique(users: seq<User>, data: Registration, clock: Instant)
    requires EmailsUnique(users)
    ensures EmailsUnique(Registered(users, data, clock))
  {
    if !EmailTaken(users, data.email) {
      var r := users + [NewUser(data, clock)];
      forall i, j | 0 <= i < j < |r| ensures r[i].email != r[j].email {
        if j == |users| {
          assert r[i] == users[i];
        } else {
          assert r[i] == users[i] && r[j] == users[j];
        }
      }
    }
  }

  /** With distinct emails a login can match one account only: the one with that email. */
  lemma LoginFindsTheAccount(users: seq<User>, k: nat)
    requires EmailsUnique(users) && k < |users|
    ensures FindAccount(users, users[k].email, users[k].password) == Some(users[k])
  {
    assert FirstCredentialsAt(users, users[k].email, users[k].password, k);
  }

  // ---------------------------------------------------------------------
  // The session user
  // ---------------------------------------------------------------------

  function Patched(u: User, p: Patch): (r: User)
    ensures r.id == (if p.id.Some? then p.id.value else u.id)
    ensures r.email == (if p.email.Some? then p.email.value else u.email)
    ensures r.password == (if p.password.Some? then p.password.value else u.password)
    ensures r.role == (if p.role.Some? then p.role.value else u.role)
    ensures r.firstName == (if p.firstName.Some? then p.firstName.value else u.firstName)
    ensures r.lastName == (if p.lastName.Some? then p.lastName.value else u.lastName)
    ensures r.phone == (if p.phone.Some? then p.phone else u.phone)
    ensures r.avatar == (if p.avatar.Some? then p.avatar else u.avatar)
  {
    User(if p.id.Some? then p.id.value else u.id,
         if p.email.Some? then p.email.value else u.email,
         if p.password.Some? then p.password.value else u.password,
         if p.role.Some? then p.role.value else u.role,
         if p.firstName.Some? then p.firstName.value else u.firstName,
         if p.lastName.Some? then p.lastName.value else u.lastName,
         if p.phone.Some? then p.phone else u.phone,
         if p.avatar.Some? then p.avatar else u.avatar)
  }

  const NoChange := Patch(None, None, None, None, None, None, None, None)

  lemma EmptyPatchKeepsUser(u: User)
    ensures Patched(u, NoChange) == u
  {
  }

  /** `updateProfile`: the session user with the patch laid over it. */
  function ProfileUpdate(session: Option<User>, p: Patch): (r: Result<User>)
    ensures r.Err? <==> session.None?
    ensures r.Err? ==> r.error == NotSignedIn
    ensures r.Ok? ==> r.value == Patched(session.value, p)
  {
    if session.None? then Err(NotSignedIn) else Ok(Patched(session.value, p))
  }

  /** `changePassword`: the session user with the new password, when the current one matches. */
  function PasswordChange(session: Option<User>, current: string, next: string): (r: Result<User>)
    ensures r.Err? <==> session.None? || session.value.password != current
    ensures r == Err(NotSignedIn) <==> session.None?
    ensures r == Err(WrongPassword) <==> session.Some? && session.value.password != current
    ensures r.Ok? ==> r.value.password == next && r.value.(password := current) == session.value
  {
    if session.None? then Err(NotSignedIn)
    else if session.value.password != current then Err(WrongPassword)
    else Ok(session.value.(password := next))
  }

  /**
   * The table keeps the old password: after a change, the new password is
   * refused at login unless some account already had it, and the old one
   * is still accepted.
   */
  lemma ChangedPasswordStaysOutOfTable(users: seq<User>, session: Option<User>, current: string, next: string)
    requires PasswordChange(session, current, next).Ok?
    requires session.value in users
    requires forall k :: 0 <= k < |users| && users[k].email == session.value.email ==> users[k].password != next
    ensures FindAccount(users, session.value.email, next).None?
    ensures FindAccount(users, session.value.email, current).Some?
  {
  }

  // ---------------------------------------------------------------------
  // The provider's state
  // ---------------------------------------------------------------------

  class AuthStore {
    /** `mockUsers`, which `register` pushes onto. */
    var users: seq<User>
    /** The `user` state: the signed-in account, if any. */
    var session: Option<User>

    /** `saved` is the account restored from the browser's storage, if any. */
    constructor (table: seq<User>, saved: Option<User>)
      ensures users == table && session == saved
    {
      users := table;
      session := saved;
    }

    method Login(email: string, password: string) returns (o: Outcome)
      modifies this
      ensures users == old(users)
      ensures o.success <==> FindAccount(users, email, password).Some?
      ensures o.success ==> session == FindAccount(users, email, password) && o.message == LoginSucceeded
      ensures !o.success ==> session == old(session) && o.message == ErrorMessage(BadCredentials)
    {
      var found := FindAccount(users, email, password);
      if found.Some? {
        session := found;
        o := Outcome(true, LoginSucceeded);
      } else {
        o := Outcome(false, ErrorMessage(BadCredentials));
      }
    }

    method Logout()
      modifies this
      ensures users == old(users) && session == None
    {
      session := None;
    }

    method Register(data: Registration, clock: Instant) returns (o: Outcome)
      modifies this
      ensures users == Registered(old(users), data, clock)
      ensures o.success <==> !EmailTaken(old(users), data.email)
      ensures o.success ==> session == Some(NewUser(data, clock)) && o.message == RegisterSucceeded
      ensures !o.success ==> session == old(session) && o.message == ErrorMessage(EmailInUse)
    {
      if EmailTaken(users, data.email) {
        o := Outcome(false, ErrorMessage(EmailInUse));
      } else {
        var u := NewUser(data, clock);
        users := users + [u];
        session := Some(u);
        o := Outcome(true, RegisterSucceeded);
      }
    }

    method UpdateProfile(p: Patch) returns (o: Outcome)
      modifies this
      ensures users == old(users)
      ensures o == Answer(ProfileUpdate(old(session), p), ProfileUpdated)
      ensures session == match ProfileUpdate(old(session), p)
        case Ok(u) => Some(u)
        case Err(_) => old(session)
    {
      var r := ProfileUpdate(session, p);
      o := Answer(r, ProfileUpdated);
      if r.Ok? {
        session := Some(r.value);
      }
    }

    /** Only the session user changes; the table keeps the old password. */
    method ChangePassword(current: string, next: string) returns (o: Outcome)
      modifies this
      ensures users == old(users)
      ensures o == Answer(PasswordChange(old(session), current, next), PasswordUpdated)
      ensures session == match PasswordChange(old(session), current, next)
        case Ok(u) => Some(u)
        case Err(_) => old(session)
    {
      var r := PasswordChange(session, current, next);
      o := Answer(r, PasswordUpdated);
      if r.Ok? {
        session := Some(r.value);
      }
    }
  }
}
