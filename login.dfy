/** The login endpoint (app/api/login/route.tsx): checks an email and a
    password against the stored users and answers with a one-day token and
    the user's id and email. The connection, the body parse, the password
    comparison and the signing are oracles; any of them throwing ends in the
    generic 500 answer. */
module LoginRoute {
  import opened Common
  import opened UserModel

  /** The parsed JSON body; either field may be absent. */
  datatype LoginBody = LoginBody(email: Option<string>, password: Option<string>)

  datatype Body =
    | ErrorBody(error: string)
    | Welcome(token: string, userId: string, email: string)

  datatype Response = Response(status: int, body: Body)

  const MissingFields := Response(400, ErrorBody("Email and password are required"))
  const BadCredentials := Response(401, ErrorBody("Invalid credentials"))
  const ServerError := Response(500, ErrorBody("Internal server error"))
  const DefaultSecret := "your-default-secret"

  /** The secret the token is signed with: `JWT_SECRET`, or the fallback
      when it is unset or empty. */
  function SigningSecret(env: Option<string>): (s: string)
    ensures Falsy(env) ==> s == DefaultSecret
    ensures !Falsy(env) ==> s == env.value
  {
    if Falsy(env) then DefaultSecret else env.value
  }

  /** `POST /api/login`. */
  function Login(
    connect: Step<()>,
    body: Step<LoginBody>,
    users: seq<User>,
    query: Step<()>,
    compare: (string, string) -> Step<bool>,
    env: Option<string>,
    sign: Claims -> Step<string>): (r: Response)
    // the three answers other than success, and when each is given
    ensures r == MissingFields <==>
      connect.Done? && body.Done? && (Falsy(body.value.email) || Falsy(body.value.password))
    ensures r == BadCredentials <==>
      && connect.Done? && body.Done? && !Falsy(body.value.email) && !Falsy(body.value.password)
      && query.Done?
      && var u := FindByEmail(users, body.value.email);
         u.None? || ComparePassword(u.value, body.value.password.value, compare) == Done(false)
    // a success names a stored user whose password matched, and carries the
    // token signed over that user's id for one day
    ensures r.status == 200 ==>
      && connect.Done? && body.Done? && query.Done?
      && r.body.Welcome?
      && exists u :: u in users && Some(u.email) == body.value.email
           && r.body.userId == u.id && r.body.email == u.email
           && ComparePassword(u, body.value.password.value, compare) == Done(true)
           && sign(Claims(u.id, SigningSecret(env), OneDay)) == Done(r.body.token)
    // any step that throws ends in the generic answer: the connection or
    // the body parse, then the lookup, the comparison and the signing
    ensures connect.Threw? || body.Threw? ==> r == ServerError
    ensures
      (&& connect.Done? && body.Done? && !Falsy(body.value.email) && !Falsy(body.value.password)
       && query.Threw?) ==> r == ServerError
    ensures
      (&& connect.Done? && body.Done? && !Falsy(body.value.email) && !Falsy(body.value.password)
       && query.Done? && FindByEmail(users, body.value.email).Some?) ==>
      var u := FindByEmail(users, body.value.email).value;
      match ComparePassword(u, body.value.password.value, compare)
      case Threw(_) => r == ServerError
      case Done(false) => r == BadCredentials
      case Done(true) =>
        match sign(Claims(u.id, SigningSecret(env), OneDay))
        case Threw(_) => r == ServerError
        case Done(token) => r == Response(200, Welcome(token, u.id, u.email))
    ensures r.status == 500 <==> r == ServerError
    ensures r.status in {200, 400, 401, 500}
    ensures r.status != 200 ==> r.body.ErrorBody?
  {
    if connect.Threw? || body.Threw? then ServerError
    else if Falsy(body.value.email) || Falsy(body.value.password) then MissingFields
    else if query.Threw? then ServerError
    else
      var found := FindByEmail(users, body.value.email);
      if found.None? then BadCredentials
      else
        var u := found.value;
        match ComparePassword(u, body.value.password.value, compare)
        case Threw(_) => ServerError
        case Done(false) => BadCredentials
        case Done(true) =>
          match sign(Claims(u.id, SigningSecret(env), 86400))
          case Threw(_) => ServerError
          case Done(token) => Response(200, Welcome(token, u.id, u.email))
  }

  /** An unknown email and a wrong password for a known one get the same
      answer, so the response does not reveal which emails are registered. */
  lemma UnknownEmailLooksLikeWrongPassword(
    body: LoginBody, users: seq<User>, compare: (string, string) -> Step<bool>,
    others: seq<User>, env: Option<string>, sign: Claims -> Step<string>)
    requires !Falsy(body.email) && !Falsy(body.password)
    requires FindByEmail(users, body.email).None?
    requires var u := FindByEmail(others, body.email);
      u.Some? && compare(body.password.value, u.value.passwordHash) == Done(false)
    ensures Login(Done(()), Done(body), users, Done(()), compare, env, sign)
         == Login(Done(()), Done(body), others, Done(()), compare, env, sign)
         == BadCredentials
  {
  }

  /** A body missing either field is refused before the users are consulted:
      the answer does not depend on the store, the query, the comparison or
      the signing. */
  lemma MissingFieldsCheckedFirst(
    body: LoginBody,
    users1: seq<User>, query1: Step<()>, compare1: (string, string) -> Step<bool>, sign1: Claims -> Step<string>,
    users2: seq<User>, query2: Step<()>, compare2: (string, string) -> Step<bool>, sign2: Claims -> Step<string>,
    env: Option<string>)
    requires Falsy(body.email) || Falsy(body.password)
    ensures Login(Done(()), Done(body), users1, query1, compare1, env, sign1)
         == Login(Done(()), Done(body), users2, query2, compare2, env, sign2)
  {
  }

  /** The stored hash never reaches the answer: two stores that differ only
      in the matching user's hash, each accepting the password, answer alike. */
  lemma HashNotDisclosed(
    body: LoginBody, u: User, otherHash: string,
    compare: (string, string) -> Step<bool>, env: Option<string>, sign: Claims -> Step<string>)
    requires !Falsy(body.password) && body.email == Some(u.email)
    requires compare(body.password.value, u.passwordHash) == Done(true)
    requires compare(body.password.value, otherHash) == Done(true)
    ensures Login(Done(()), Done(body), [u], Done(()), compare, env, sign)
         == Login(Done(()), Done(body), [u.(passwordHash := otherHash)], Done(()), compare, env, sign)
  {
  }

  /** With unique emails, a registered user who gives the right password and
      whose token can be signed is let in as that user. */
  lemma {:induction false} RegisteredUserLogsIn(
    users: seq<User>, u: User, password: string,
    compare: (string, string) -> Step<bool>, env: Option<string>, sign: Claims -> Step<string>)
    requires UniqueEmails(users) && u in users && u.email != "" && password != ""
    requires compare(password, u.passwordHash) == Done(true)
    requires sign(Claims(u.id, SigningSecret(env), OneDay)).Done?
    ensures Login(Done(()), Done(LoginBody(Some(u.email), Some(password))), users, Done(()), compare, env, sign)
         == Response(200, Welcome(sign(Claims(u.id, SigningSecret(env), OneDay)).value, u.id, u.email))
  {
    FindUnique(users, u);
  }
}
