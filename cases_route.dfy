/** The case route handlers (app/api/cases/route.ts): both check the bearer
    header and verify the token with the identity provider before touching the
    `cases` collection; POST stores a case owned by the verified user, GET
    lists the caller's own cases. */
module CasesRoute {
  import opened Common
  import opened Text
  import opened FormData

  const BearerPrefix := "Bearer "

  /** A timestamp field: the server-timestamp sentinel the handler writes, or
      the time the store resolved it to. */
  datatype TimeValue = ServerTimestamp | At(millis: int)

  /** The record the POST handler writes. Text fields read from the form are
      null (None) when the form lacks them. */
  datatype CaseData = CaseData(
    userId: string,
    issueDescription: Option<string>,
    partiesInvolved: Option<string>,
    incidentDate: Option<string>,
    zipCode: Option<string>,
    desiredResolution: Option<string>,
    issueImpact: seq<string>,
    otherImpact: Option<string>,
    createdAt: TimeValue,
    updatedAt: TimeValue)

  /** A stored document: the id the store assigned and its data. */
  datatype Doc = Doc(id: string, data: CaseData)

  datatype Body =
    | Message(message: string)
    | MessageWithError(message: string, error: string)
    | Created(message: string, id: string, created: CaseData)
    | CaseList(cases: seq<Doc>)

  datatype Response = Response(status: int, body: Body)

  const Unauthorized := Response(401, Message("Unauthorized"))

  /** The token of an `authorization` header: absent when the header is
      missing or does not start with "Bearer " (case-sensitive); otherwise
      element [1] of the header split on single spaces, which is the text after
      the prefix up to the next space. */
  function ExtractToken(header: Option<string>): (token: Option<string>)
    ensures token.None? <==> header.None? || !StartsWith(header.value, BearerPrefix)
    ensures token.Some? ==> token.value == TakeUntil(header.value[|BearerPrefix|..], ' ')
  {
    if Falsy(header) || !StartsWith(header.value, BearerPrefix) then None
    else
      var h := header.value;
      var rest := h[|BearerPrefix|..];
      assert h == "Bearer" + [' '] + rest;
      SplitAfterPiece("Bearer", rest, ' ');
      SplitHead(rest, ' ');
      Some(Split(h, ' ')[1])
  }

  /** A doubled space after the prefix yields the empty token. */
  lemma DoubleSpaceGivesEmptyToken()
    ensures ExtractToken(Some("Bearer  x")) == Some("")
  {
    var rest := "Bearer  x"[|BearerPrefix|..];
    assert rest == " x";
    assert TakeUntil(rest, ' ') == "";
  }

  datatype AuthOutcome = Authorized(uid: string) | Denied(response: Response)

  /** Whether a header carries the case-sensitive bearer prefix. */
  predicate HasBearer(header: Option<string>)
  {
    header.Some? && StartsWith(header.value, BearerPrefix)
  }

  /** The shared front of both handlers: header check, then token
      verification by the identity provider, treated as an oracle. Every
      refusal is a 401; a header without the prefix is refused with the plain
      message; the caller is admitted exactly when the verifier accepts the
      token that follows the prefix, and then as the uid it returns. */
  function Authenticate(header: Option<string>, verify: string -> Step<string>): (r: AuthOutcome)
    ensures r.Denied? ==> r.response.status == 401
    ensures !HasBearer(header) ==> r == Denied(Unauthorized)
    ensures r.Authorized? <==>
      HasBearer(header) && verify(TakeUntil(header.value[|BearerPrefix|..], ' ')).Done?
    ensures r.Authorized? ==> r.uid == verify(TakeUntil(header.value[|BearerPrefix|..], ' ')).value
  {
    match ExtractToken(header)
    case None => Denied(Unauthorized)
    case Some(token) =>
      match verify(token)
      case Threw(m) => Denied(Response(401, MessageWithError("Unauthorized", m)))
      case Done(uid) => Authorized(uid)
  }

  /** A bad header is refused before the verifier is consulted: the outcome
      is the same whatever the verifier would say. */
  lemma BadHeaderIgnoresVerifier(header: Option<string>, v1: string -> Step<string>, v2: string -> Step<string>)
    requires !HasBearer(header)
    ensures Authenticate(header, v1) == Authenticate(header, v2) == Denied(Unauthorized)
  {
  }

  /** The record built from the verified uid and the form: the owner is the
      uid and never a form field, every `issueImpact` value is kept in order,
      and both timestamps are the server-timestamp sentinel. */
  function BuildCaseData(uid: string, fd: Form): (d: CaseData)
    ensures d.userId == uid
    ensures d.issueImpact == GetAll(fd, "issueImpact")
    ensures d.zipCode == Get(fd, "zipCode") && d.otherImpact == Get(fd, "otherImpact")
    ensures d.issueDescription == Get(fd, "issueDescription")
    ensures d.partiesInvolved == Get(fd, "partiesInvolved")
    ensures d.incidentDate == Get(fd, "incidentDate")
    ensures d.desiredResolution == Get(fd, "desiredResolution")
    ensures d.createdAt == d.updatedAt == ServerTimestamp
  {
    CaseData(
      uid,
      Get(fd, "issueDescription"),
      Get(fd, "partiesInvolved"),
      Get(fd, "incidentDate"),
      Get(fd, "zipCode"),
      Get(fd, "desiredResolution"),
      GetAll(fd, "issueImpact"),
      Get(fd, "otherImpact"),
      ServerTimestamp,
      ServerTimestamp)
  }

  /** The owner of a built record does not depend on the form at all. */
  lemma OwnerComesFromToken(uid: string, fd1: Form, fd2: Form)
    ensures BuildCaseData(uid, fd1).userId == BuildCaseData(uid, fd2).userId == uid
  {
  }

  /** The store resolves the server-timestamp sentinels to its commit time. */
  function ResolveTimestamps(d: CaseData, commitTime: int): (r: CaseData)
    ensures r.createdAt == if d.createdAt.ServerTimestamp? then At(commitTime) else d.createdAt
    ensures r.updatedAt == if d.updatedAt.ServerTimestamp? then At(commitTime) else d.updatedAt
    ensures r.(createdAt := d.createdAt, updatedAt := d.updatedAt) == d
  {
    d.(createdAt := if d.createdAt.ServerTimestamp? then At(commitTime) else d.createdAt,
       updatedAt := if d.updatedAt.ServerTimestamp? then At(commitTime) else d.updatedAt)
  }

  /** The cases owned by `uid`, each with its id, in store order. */
  function OwnedBy(docs: seq<Doc>, uid: string): (r: seq<Doc>)
    ensures |r| <= |docs|
  {
    if |docs| == 0 then []
    else if docs[0].data.userId == uid then [docs[0]] + OwnedBy(docs[1..], uid)
    else OwnedBy(docs[1..], uid)
  }

  /** A document is listed exactly when it is stored and owned by `uid`. */
  lemma {:induction false} OwnedByMembers(docs: seq<Doc>, uid: string)
    ensures forall d :: d in OwnedBy(docs, uid) <==> d in docs && d.data.userId == uid
  {
    if |docs| > 0 {
      OwnedByMembers(docs[1..], uid);
      assert docs == [docs[0]] + docs[1..];
    }
  }

  lemma {:induction false} OwnedByConcat(a: seq<Doc>, b: seq<Doc>, uid: string)
    ensures OwnedBy(a + b, uid) == OwnedBy(a, uid) + OwnedBy(b, uid)
  {
    if |a| == 0 {
      assert a + b == b;
    } else {
      OwnedByConcat(a[1..], b, uid);
      var ab := a + b;
      assert ab[0] == a[0] && ab[1..] == a[1..] + b;
      if a[0].data.userId == uid {
        calc {
          OwnedBy(ab, uid);
          [a[0]] + OwnedBy(a[1..] + b, uid);
          [a[0]] + (OwnedBy(a[1..], uid) + OwnedBy(b, uid));
          ([a[0]] + OwnedBy(a[1..], uid)) + OwnedBy(b, uid);
        }
      }
    }
  }

  /** A case stored for one user never shows up in another user's list, and
      does show up, last, in its owner's. */
  lemma {:induction false} Isolation(docs: seq<Doc>, doc: Doc, other: string)
    ensures other != doc.data.userId ==> OwnedBy(docs + [doc], other) == OwnedBy(docs, other)
    ensures OwnedBy(docs + [doc], doc.data.userId) == OwnedBy(docs, doc.data.userId) + [doc]
  {
    OwnedByConcat(docs, [doc], other);
    OwnedByConcat(docs, [doc], doc.data.userId);
  }

  /** The `cases` collection of the document store. */
  class CaseCollection {
    var docs: seq<Doc>

    constructor (initial: seq<Doc>)
      ensures docs == initial
    {
      docs := initial;
    }

    /** `addDoc`: the write either fails, leaving the collection as it was,
        or stores the record (timestamps resolved) under a fresh id. */
    method AddDoc(data: CaseData, write: Step<(string, int)>) returns (r: Step<string>)
      modifies this
      ensures write.Threw? ==> r == Threw(write.message) && docs == old(docs)
      ensures write.Done? ==>
        && r == Done(write.value.0)
        && docs == old(docs) + [Doc(write.value.0, ResolveTimestamps(data, write.value.1))]
    {
      match write
      case Threw(m) =>
        r := Threw(m);
      case Done(w) =>
        docs := docs + [Doc(w.0, ResolveTimestamps(data, w.1))];
        r := Done(w.0);
    }
  }

  /** POST /api/cases. `form` is the parsed multipart body (it throws when the
      body is not a form), `write` the store's answer to the write: the new
      id and commit time, or an error. */
  method HandlePost(store: CaseCollection, header: Option<string>, verify: string -> Step<string>,
                    form: Step<Form>, write: Step<(string, int)>) returns (resp: Response)
    modifies store
    ensures Authenticate(header, verify).Denied? ==>
      resp == Authenticate(header, verify).response && store.docs == old(store.docs)
    ensures Authenticate(header, verify).Authorized? && form.Threw? ==>
      resp == Response(500, Message(form.message)) && store.docs == old(store.docs)
    ensures Authenticate(header, verify).Authorized? && form.Done? && write.Threw? ==>
      resp == Response(500, MessageWithError("Database error", write.message)) && store.docs == old(store.docs)
    ensures Authenticate(header, verify).Authorized? && form.Done? && write.Done? ==>
      var data := BuildCaseData(Authenticate(header, verify).uid, form.value);
      && resp == Response(201, Created("Case created successfully", write.value.0, data))
      && store.docs == old(store.docs) + [Doc(write.value.0, ResolveTimestamps(data, write.value.1))]
  {
    var auth := Authenticate(header, verify);
    if auth.Denied? {
      return auth.response;
    }
    if form.Threw? {
      return Response(500, Message(form.message));
    }
    var data := BuildCaseData(auth.uid, form.value);
    var added := store.AddDoc(data, write);
    match added
    case Threw(m) =>
      resp := Response(500, MessageWithError("Database error", m));
    case Done(id) =>
      resp := Response(201, Created("Case created successfully", id, data));
  }

  /** GET /api/cases. `query` is the store's answer to the owner query:
      `Threw` when it fails. */
  method HandleGet(store: CaseCollection, header: Option<string>, verify: string -> Step<string>,
                   query: Step<()>) returns (resp: Response)
    ensures Authenticate(header, verify).Denied? ==> resp == Authenticate(header, verify).response
    ensures Authenticate(header, verify).Authorized? && query.Threw? ==>
      resp == Response(500, Message(query.message))
    ensures Authenticate(header, verify).Authorized? && query.Done? ==>
      && resp.status == 200 && resp.body.CaseList?
      && (forall d :: d in resp.body.cases <==> d in store.docs && d.data.userId == Authenticate(header, verify).uid)
  {
    var auth := Authenticate(header, verify);
    if auth.Denied? {
      return auth.response;
    }
    if query.Threw? {
      return Response(500, Message(query.message));
    }
    OwnedByMembers(store.docs, auth.uid);
    resp := Response(200, CaseList(OwnedBy(store.docs, auth.uid)));
  }
}
