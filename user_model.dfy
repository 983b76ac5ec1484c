/** The user model (models/User.ts): the required fields, the unique email,
    the pre-save hook that replaces a modified password by its salted hash,
    password comparison and token generation. Hashing, comparison and signing
    are oracles passed in as functions. */
module UserModel {
  import opened Common

  /** A stored user. */
  datatype User = User(id: string, firstName: string, lastName: string, email: string, passwordHash: string)

  /** A user document before it is saved: any field may be missing. */
  datatype UserFields = UserFields(
    firstName: Option<string>,
    lastName: Option<string>,
    email: Option<string>,
    passwordHash: Option<string>)

  /** The schema's required paths, in schema order. */
  const RequiredPaths := ["firstName", "lastName", "email", "passwordHash"]

  /** The required paths a document lacks, in schema order. */
  function MissingPaths(f: UserFields): (r: seq<string>)
    ensures r == [] <==> f.firstName.Some? && f.lastName.Some? && f.email.Some? && f.passwordHash.Some?
    ensures forall p :: p in r ==> p in RequiredPaths
  {
    (if f.firstName.None? then ["firstName"] else [])
    + (if f.lastName.None? then ["lastName"] else [])
    + (if f.email.None? then ["email"] else [])
    + (if f.passwordHash.None? then ["passwordHash"] else [])
  }

  /** The unique index on `email`: no two users share one. */
  ghost predicate UniqueEmails(users: seq<User>)
  {
    forall i, j :: 0 <= i < j < |users| ==> users[i].email != users[j].email
  }

  /** The claims a session token is signed over. */
  datatype Claims = Claims(userId: string, secret: string, expiresInSeconds: nat)

  /** "24h" and "1d" both denote one day. */
  const OneDay: nat := 24 * 60 * 60

  /** `comparePassword`: the candidate, in plain text, checked by the hashing
      library against the stored hash and nothing else of the user. */
  function ComparePassword(u: User, candidate: string, compare: (string, string) -> Step<bool>): (r: Step<bool>)
    ensures r == compare(candidate, u.passwordHash)
  {
    compare(candidate, u.passwordHash)
  }

  /** The error `jsonwebtoken` raises when it is given no secret. */
  const NoSecretMessage := "secretOrPrivateKey must have a value"

  /** `generateToken`: a token over the user's id with a 24-hour expiry,
      signed with `JWT_SECRET`; signing without a secret throws. */
  function GenerateToken(u: User, secret: Option<string>, sign: Claims -> Step<string>): (r: Step<string>)
    ensures Falsy(secret) ==> r == Threw(NoSecretMessage)
    ensures !Falsy(secret) ==> r == sign(Claims(u.id, secret.value, OneDay))
  {
    if Falsy(secret) then Threw(NoSecretMessage)
    else sign(Claims(u.id, secret.value, 86400))
  }

  /** `User.findOne({ email })`: the first stored user with that email. A
      missing email matches nobody. */
  function FindByEmail(users: seq<User>, email: Option<string>): (r: Option<User>)
    ensures r.Some? ==> r.value in users && email == Some(r.value.email)
    ensures r.None? ==> forall u :: u in users ==> email != Some(u.email)
  {
    if |users| == 0 || email.None? then None
    else if users[0].email == email.value then Some(users[0])
    else FindByEmail(users[1..], email)
  }

  /** Under the unique index the match is the one user with that email. */
  lemma {:induction false} FindUnique(users: seq<User>, u: User)
    requires UniqueEmails(users) && u in users
    ensures FindByEmail(users, Some(u.email)) == Some(u)
  {
    if users[0] != u {
      assert users[0].email != u.email by {
        var k :| 0 <= k < |users| && users[k] == u;
        assert 0 < k;
      }
      assert UniqueEmails(users[1..]) by {
        forall i, j | 0 <= i < j < |users[1..]| ensures users[1..][i].email != users[1..][j].email {
          assert users[1..][i] == users[i + 1] && users[1..][j] == users[j + 1];
        }
      }
      assert u in users[1..];
      FindUnique(users[1..], u);
    }
  }

  /** A user document in memory, as the save hook sees it. */
  class UserDocument {
    var fields: UserFields
    /** The paths set since the document was loaded or created. */
    var modified: set<string>

    /** `new User({...})`: every provided path counts as modified. */
    constructor (f: UserFields)
      ensures fields == f
      ensures modified == (if f.firstName.Some? then {"firstName"} else {})
                        + (if f.lastName.Some? then {"lastName"} else {})
                        + (if f.email.Some? then {"email"} else {})
                        + (if f.passwordHash.Some? then {"passwordHash"} else {})
    {
      fields := f;
      modified := (if f.firstName.Some? then {"firstName"} else {})
                + (if f.lastName.Some? then {"lastName"} else {})
                + (if f.email.Some? then {"email"} else {})
                + (if f.passwordHash.Some? then {"passwordHash"} else {});
    }

    /** The `pre('save')` hook. An unmodified password is left alone; a
        modified one is replaced by its hash under a fresh salt; a failure to
        make the salt or the hash aborts the save with that error and leaves
        the document as it was. */
    method PreSave(salt: Step<string>, hash: (string, string) -> Step<string>) returns (err: Option<string>)
      requires "passwordHash" in modified ==> fields.passwordHash.Some?
      modifies this`fields
      ensures "passwordHash" !in modified ==> err.None? && fields == old(fields)
      ensures "passwordHash" in modified && salt.Threw? ==> err == Some(salt.message) && fields == old(fields)
      ensures "passwordHash" in modified && salt.Done? ==>
        var h := hash(old(fields).passwordHash.value, salt.value);
        && (h.Threw? ==> err == Some(h.message) && fields == old(fields))
        && (h.Done? ==> err.None? && fields == old(fields).(passwordHash := Some(h.value)))
    {
      if "passwordHash" !in modified {
        return None;
      }
      match salt {
        case Threw(m) =>
          return Some(m);
        case Done(s) =>
          var h := hash(fields.passwordHash.value, s);
          match h {
            case Threw(m) =>
              return Some(m);
            case Done(v) =>
              fields := fields.(passwordHash := Some(v));
              return None;
          }
      }
    }
  }
}
