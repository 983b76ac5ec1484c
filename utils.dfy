/** The helpers of lib/utils.ts: the `cn` class-name combiner and the route
    guard `middleware`, which decides between redirecting to the login page,
    passing the request through, and passing it on annotated with the user id
    from a verified session token. */
module Utils {
  import opened Common
  import opened Text

  /** An argument of `cn`: a string, a boolean, or `undefined`. */
  datatype ClassValue = Str(s: string) | Flag(b: bool) | Undefined

  /** `Boolean(v)`: the empty string, `false` and `undefined` are falsy. */
  predicate Truthy(v: ClassValue)
  {
    match v
    case Str(s) => s != ""
    case Flag(b) => b
    case Undefined => false
  }

  /** How `join` writes a kept value: a string as itself, `true` as "true". */
  function Render(v: ClassValue): (r: string)
    requires Truthy(v)
    ensures r != ""
    ensures v.Str? ==> r == v.s
  {
    match v
    case Str(s) => s
    case Flag(_) => "true"
  }

  /** `classes.filter(Boolean)`, each kept value as `join` writes it. */
  function Kept(classes: seq<ClassValue>): (r: seq<string>)
    ensures |r| <= |classes|
  {
    if |classes| == 0 then []
    else if Truthy(classes[0]) then [Render(classes[0])] + Kept(classes[1..])
    else Kept(classes[1..])
  }

  /** Every kept value is written as a non-empty string. */
  lemma {:induction false} KeptNonEmpty(classes: seq<ClassValue>)
    ensures forall i :: 0 <= i < |Kept(classes)| ==> Kept(classes)[i] != ""
  {
    if |classes| > 0 {
      KeptNonEmpty(classes[1..]);
    }
  }

  /** `cn(...classes)`: the kept values joined with single spaces. */
  function Cn(classes: seq<ClassValue>): (r: string)
    ensures Kept(classes) == [] <==> r == ""
  {
    KeptNonEmpty(classes);
    KeptJoinEmpty(Kept(classes));
    Join(Kept(classes), ' ')
  }

  lemma {:induction false} KeptJoinEmpty(parts: seq<string>)
    requires forall i :: 0 <= i < |parts| ==> parts[i] != ""
    ensures parts == [] <==> Join(parts, ' ') == ""
  {
    if |parts| >= 2 {
      assert |Join(parts, ' ')| >= |parts[0] + [' ']|;
    }
  }

  /** Filtering keeps the order: the kept values of two argument lists laid
      end to end are the kept values of each, in turn. */
  lemma {:induction false} KeptConcat(a: seq<ClassValue>, b: seq<ClassValue>)
    ensures Kept(a + b) == Kept(a) + Kept(b)
  {
    if |a| == 0 {
      assert a + b == b;
    } else {
      assert (a + b)[0] == a[0];
      assert (a + b)[1..] == a[1..] + b;
      var head := if Truthy(a[0]) then [Render(a[0])] else [];
      calc {
        Kept(a + b);
        head + Kept(a[1..] + b);
        { KeptConcat(a[1..], b); }
        head + (Kept(a[1..]) + Kept(b));
        (head + Kept(a[1..])) + Kept(b);
        Kept(a) + Kept(b);
      }
    }
  }

  /** Falsy arguments make no difference wherever they stand. */
  lemma {:induction false} FalsyIgnored(a: seq<ClassValue>, v: ClassValue, b: seq<ClassValue>)
    requires !Truthy(v)
    ensures Cn(a + [v] + b) == Cn(a + b)
  {
    KeptConcat(a + [v], b);
    KeptConcat(a, [v]);
    KeptConcat(a, b);
    assert Kept([v]) == [];
    assert Kept(a + [v] + b) == Kept(a + b);
  }

  /** When no kept class name contains a space, splitting the result on single
      spaces gives back exactly the kept names, in argument order. */
  lemma CnSplitsBack(classes: seq<ClassValue>)
    requires Kept(classes) != []
    requires forall i :: 0 <= i < |Kept(classes)| ==> ' ' !in Kept(classes)[i]
    ensures Split(Cn(classes), ' ') == Kept(classes)
  {
    SplitJoin(Kept(classes), ' ');
  }

  /** The session payload as the guard reads it; `userId` may be missing. */
  datatype Payload = Payload(userId: Option<string>)

  /** The guard's decision: redirect to a path, or let the request proceed,
      either unchanged (None) or with the given request headers. */
  datatype Decision = Redirect(location: string) | Proceed(headers: Option<map<string, string>>)

  const LoginPath := "/login"
  const ProtectedRoutes := ["/dashboard", "/case/new"]
  const UserIdHeader := "x-user-id"

  /** `protectedRoutes.some(route => pathname.startsWith(route))`: a plain
      prefix test, so "/dashboardx" counts as protected too. */
  predicate IsProtected(path: string)
  {
    exists i :: 0 <= i < |ProtectedRoutes| && StartsWith(path, ProtectedRoutes[i])
  }

  /** `headers.set('x-user-id', payload.userId as string)`: a missing id is
      written as the string "undefined". */
  function UserIdValue(p: Payload): string
  {
    if p.userId.Some? then p.userId.value else "undefined"
  }

  /** `headers.set(name, value)` on a Fetch `Headers` object, whose names are
      case-insensitive: every header whose name differs from `name` only in
      case is replaced by the one new entry. */
  function SetHeader(headers: map<string, string>, name: string, value: string): (h: map<string, string>)
    requires Lower(name) == name
    ensures h.Keys == (set k | k in headers && Lower(k) != name) + {name}
    ensures h[name] == value
    ensures forall k :: k in headers && Lower(k) != name ==> h[k] == headers[k]
  {
    (map k | k in headers && Lower(k) != name :: headers[k])[name := value]
  }

  /** The route guard. `token` is the `token` cookie; `verify` the signature
      and expiry check of the session token, treated as an oracle. */
  function Middleware(token: Option<string>, path: string, headers: map<string, string>,
                      verify: string -> Step<Payload>): (d: Decision)
    ensures Falsy(token) && IsProtected(path) ==> d == Redirect(LoginPath)
    ensures Falsy(token) && !IsProtected(path) ==> d == Proceed(None)
    ensures !Falsy(token) && verify(token.value).Threw? ==> d == Redirect(LoginPath)
    ensures !Falsy(token) && verify(token.value).Done? ==>
      && d.Proceed? && d.headers.Some?
      && d.headers.value.Keys == (set k | k in headers && Lower(k) != UserIdHeader) + {UserIdHeader}
      && d.headers.value[UserIdHeader] == UserIdValue(verify(token.value).value)
      && (forall k :: k in headers && Lower(k) != UserIdHeader ==> d.headers.value[k] == headers[k])
  {
    if Falsy(token) && IsProtected(path) then Redirect(LoginPath)
    else if !Falsy(token) then
      match verify(token.value)
      case Threw(_) => Redirect(LoginPath)
      case Done(payload) => Proceed(Some(SetHeader(headers, UserIdHeader, UserIdValue(payload))))
    else Proceed(None)
  }

  /** An incoming header spelled "X-User-Id" cannot survive beside the one
      the guard sets: `set` replaces it, whatever its case. */
  lemma ForgedIdReplaced(headers: map<string, string>, value: string)
    requires "X-User-Id" in headers
    ensures "X-User-Id" !in SetHeader(headers, UserIdHeader, value)
    ensures SetHeader(headers, UserIdHeader, value)[UserIdHeader] == value
  {
    var l := Lower("X-User-Id");
    assert l[0] == 'x';
    assert l[2] == 'u';
    assert l[7] == 'i';
    assert l == UserIdHeader;
  }

  /** A request is let through with an identity only when the verifier
      accepted its token; a redirect always goes to the login page. */
  lemma IdentityOnlyFromVerifiedToken(token: Option<string>, path: string, headers: map<string, string>,
                                      verify: string -> Step<Payload>)
    ensures var d := Middleware(token, path, headers, verify);
      && (d.Redirect? ==> d.location == LoginPath)
      && (d.Proceed? && d.headers.Some? ==> !Falsy(token) && verify(token.value).Done?)
  {
  }

  /** Both protected prefixes and their sub-paths are guarded; the landing
      page is not. */
  lemma ProtectedExamples()
    ensures IsProtected("/dashboard") && IsProtected("/dashboard/settings")
    ensures IsProtected("/case/new")
    ensures !IsProtected("/")
  {
    assert StartsWith("/dashboard", ProtectedRoutes[0]);
    assert StartsWith("/dashboard/settings", ProtectedRoutes[0]);
    assert StartsWith("/case/new", ProtectedRoutes[1]);
  }
}
