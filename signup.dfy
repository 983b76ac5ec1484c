/** The signup endpoint (app/api/signup/page.tsx) over the stored users:
    refuses an email that is already registered, otherwise saves a new user
    whose password goes through the save hook's hashing, then answers with a
    token. Any exception ends in the generic 500 answer. */
module SignupRoute {
  import opened Common
  import opened UserModel
  import LoginRoute

  /** The parsed JSON body; any field may be absent. */
  datatype SignupBody = SignupBody(
    firstName: Option<string>,
    lastName: Option<string>,
    email: Option<string>,
    password: Option<string>)

  datatype Body = MessageBody(message: string) | TokenBody(token: string)

  datatype Response = Response(status: int, body: Body)

  const AlreadyRegistered := Response(400, MessageBody("Email already registered"))
  const SignupFailed := Response(500, MessageBody("Signup failed"))

  /** The document built from the body: the password is placed, as given, in
      the `passwordHash` path. */
  function NewUserFields(b: SignupBody): (f: UserFields)
    ensures f.passwordHash == b.password
    ensures f.firstName == b.firstName && f.lastName == b.lastName && f.email == b.email
  {
    UserFields(b.firstName, b.lastName, b.email, b.password)
  }

  /** The user that a successful save stores. */
  function Saved(id: string, b: SignupBody, hashed: string): User
    requires b.firstName.Some? && b.lastName.Some? && b.email.Some?
  {
    User(id, b.firstName.value, b.lastName.value, b.email.value, hashed)
  }

  /** What `save` of the body leads to: validation first, then the hook's
      salt and hash, then the insert; the stored hash when all succeed. */
  function SaveOutcome(b: SignupBody, salt: Step<string>, hash: (string, string) -> Step<string>,
                       insert: Step<()>): (r: Option<string>)
    ensures r.Some? ==>
      && MissingPaths(NewUserFields(b)) == [] && salt.Done?
      && hash(b.password.value, salt.value) == Done(r.value) && insert.Done?
    ensures
      (&& MissingPaths(NewUserFields(b)) == [] && salt.Done?
       && hash(b.password.value, salt.value).Done? && insert.Done?) ==>
      r == Some(hash(b.password.value, salt.value).value)
  {
    if MissingPaths(NewUserFields(b)) != [] || salt.Threw? then None
    else match hash(b.password.value, salt.value)
      case Threw(_) => None
      case Done(h) => if insert.Threw? then None else Some(h)
  }

  /** The `users` collection. */
  class UserCollection {
    var users: seq<User>

    constructor (initial: seq<User>)
      ensures users == initial
    {
      users := initial;
    }

    /** `POST /api/signup`. `query` is the outcome of the email lookup,
        `newId` the id the new document receives, `salt` and `hash` the
        hashing in the save hook, `insert` the outcome of the write (a
        duplicate key on the unique index among others), `env` the value of
        `JWT_SECRET` and `sign` the token signing. */
    method Signup(
      connect: Step<()>, body: Step<SignupBody>, query: Step<()>, newId: string,
      salt: Step<string>, hash: (string, string) -> Step<string>, insert: Step<()>,
      env: Option<string>, sign: Claims -> Step<string>) returns (r: Response)
      requires UniqueEmails(users)
      modifies this
      ensures UniqueEmails(users)
      // refusals that store nothing
      ensures connect.Threw? || body.Threw? ==> r == SignupFailed && users == old(users)
      ensures connect.Done? && body.Done? && query.Threw? ==> r == SignupFailed && users == old(users)
      ensures connect.Done? && body.Done? && query.Done? && FindByEmail(old(users), body.value.email).Some? ==>
        r == AlreadyRegistered && users == old(users)
      // a body that is new but cannot be saved stores nothing either
      ensures
        (&& connect.Done? && body.Done? && query.Done? && FindByEmail(old(users), body.value.email).None?
         && SaveOutcome(body.value, salt, hash, insert).None?) ==>
        r == SignupFailed && users == old(users)
      // a save appends exactly the new user with the hashed password; the
      // answer is the token, or 500 when signing throws, with the user kept
      ensures
        (&& connect.Done? && body.Done? && query.Done? && FindByEmail(old(users), body.value.email).None?
         && SaveOutcome(body.value, salt, hash, insert).Some?) ==>
        var u := Saved(newId, body.value, SaveOutcome(body.value, salt, hash, insert).value);
        && users == old(users) + [u]
        && match GenerateToken(u, env, sign)
           case Threw(_) => r == SignupFailed
           case Done(t) => r == Response(201, TokenBody(t))
    {
      if connect.Threw? || body.Threw? {
        return SignupFailed;
      }
      var b := body.value;
      if query.Threw? {
        return SignupFailed;
      }
      if FindByEmail(users, b.email).Some? {
        return AlreadyRegistered;
      }
      var doc := new UserDocument(NewUserFields(b));
      // `save`: validation, then the pre-save hook, then the insert
      if MissingPaths(doc.fields) != [] {
        return SignupFailed;
      }
      var err := doc.PreSave(salt, hash);
      if err.Some? || insert.Threw? {
        return SignupFailed;
      }
      var u := User(newId, doc.fields.firstName.value, doc.fields.lastName.value,
                    doc.fields.email.value, doc.fields.passwordHash.value);
      users := users + [u];
      match GenerateToken(u, env, sign) {
        case Threw(_) =>
          return SignupFailed;
        case Done(t) =>
          return Response(201, TokenBody(t));
      }
    }
  }

  /** A user who has signed up can log in with the same email and password,
      and is let in under the new id, provided the hashing scheme accepts a
      password against its own hash. Login refuses an empty email or password
      outright, so those are excluded here. */
  method SignupThenLogin(
    initial: seq<User>, b: SignupBody, newId: string,
    salt: Step<string>, hash: (string, string) -> Step<string>, insert: Step<()>,
    compare: (string, string) -> Step<bool>,
    env: Option<string>, sign: Claims -> Step<string>)
    returns (signup: Response, login: LoginRoute.Response)
    requires UniqueEmails(initial) && FindByEmail(initial, b.email).None?
    requires b.email != Some("") && b.password != Some("")
    requires SaveOutcome(b, salt, hash, insert).Some?
    requires compare(b.password.value, SaveOutcome(b, salt, hash, insert).value) == Done(true)
    requires sign(Claims(newId, LoginRoute.SigningSecret(env), OneDay)).Done?
    ensures login.status == 200 && login.body.Welcome?
    ensures login.body.userId == newId && Some(login.body.email) == b.email
  {
    var store := new UserCollection(initial);
    signup := store.Signup(Done(()), Done(b), Done(()), newId, salt, hash, insert, env, sign);
    var u := Saved(newId, b, SaveOutcome(b, salt, hash, insert).value);
    assert u in store.users;
    login := LoginRoute.Login(Done(()), Done(LoginRoute.LoginBody(b.email, b.password)),
                              store.users, Done(()), compare, env, sign);
    LoginRoute.RegisteredUserLogsIn(store.users, u, b.password.value, compare, env, sign);
  }
}
