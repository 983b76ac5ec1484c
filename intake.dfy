/** The new-case intake page (app/case/new/page.tsx): the field rules of its
    form schema, the impact-tag toggle, and the submit handler that checks the
    session token, packs the fields into a multipart form and posts it. */
module Intake {
  import opened Common
  import opened FormData

  /** The values the form hands to the submit handler. `issueImpact` and
      `otherImpact` are optional in the schema. */
  datatype CaseForm = CaseForm(
    issueDescription: string,
    partiesInvolved: string,
    incidentDate: string,
    zipCode: string,
    issueImpact: Option<seq<string>>,
    otherImpact: Option<string>,
    desiredResolution: string)

  datatype Field = IssueDescription | PartiesInvolved | IncidentDate | ZipCode | DesiredResolution

  datatype FieldError = FieldError(field: Field, message: string)

  const MinIssueDescription: nat := 10
  const MinPartiesInvolved: nat := 5
  const MinDesiredResolution: nat := 10
  const ZipCodeLength: nat := 5

  predicate IsDigit(ch: char)
  {
    '0' <= ch <= '9'
  }

  /** The zip-code pattern `^\d{5}$`: exactly five ASCII digits and nothing else. */
  predicate ZipCodeMatches(z: string)
  {
    |z| == ZipCodeLength && forall i :: 0 <= i < |z| ==> IsDigit(z[i])
  }

  /** The incident-date refinement: constructing a `Date` from a string never
      throws (an unparseable string gives an invalid date, not an exception),
      so the refinement accepts every string. */
  function IncidentDateAccepted(val: string): (ok: bool)
    ensures ok
  {
    true
  }

  /** Whether the schema rejects the value of one field. */
  predicate Rejects(f: CaseForm, fld: Field)
  {
    match fld
    case IssueDescription => |f.issueDescription| < MinIssueDescription
    case PartiesInvolved => |f.partiesInvolved| < MinPartiesInvolved
    case IncidentDate => !IncidentDateAccepted(f.incidentDate)
    case ZipCode => !ZipCodeMatches(f.zipCode)
    case DesiredResolution => |f.desiredResolution| < MinDesiredResolution
  }

  /** The field-scoped message of each rule. */
  function Message(fld: Field): string
  {
    match fld
    case IssueDescription => "Issue description must be at least 10 characters"
    case PartiesInvolved => "Parties involved must be at least 5 characters"
    case IncidentDate => "Invalid date"
    case ZipCode => "Invalid zip code"
    case DesiredResolution => "Desired resolution must be at least 10 characters"
  }

  function Check(f: CaseForm, fld: Field): seq<FieldError>
  {
    if Rejects(f, fld) then [FieldError(fld, Message(fld))] else []
  }

  /** The schema's verdict: one error per rejected field, with that field's
      message, in the schema's field order. */
  function Validate(f: CaseForm): (errs: seq<FieldError>)
    ensures forall fld :: FieldError(fld, Message(fld)) in errs <==> Rejects(f, fld)
    ensures forall e :: e in errs ==> e.message == Message(e.field)
  {
    Check(f, IssueDescription) + Check(f, PartiesInvolved) + Check(f, IncidentDate)
    + Check(f, ZipCode) + Check(f, DesiredResolution)
  }

  /** The form is accepted exactly when every field rule holds; the incident
      date plays no part. */
  lemma AcceptedIff(f: CaseForm)
    ensures Validate(f) == [] <==>
      && |f.issueDescription| >= MinIssueDescription
      && |f.partiesInvolved| >= MinPartiesInvolved
      && ZipCodeMatches(f.zipCode)
      && |f.desiredResolution| >= MinDesiredResolution
  {
    if Validate(f) != [] {
      var e := Validate(f)[0];
      assert FieldError(e.field, Message(e.field)) in Validate(f);
    }
  }

  /** `list.filter(item => item !== x)`. */
  function RemoveAll(s: seq<string>, x: string): (r: seq<string>)
    ensures |r| <= |s|
  {
    if |s| == 0 then []
    else if s[0] == x then RemoveAll(s[1..], x)
    else [s[0]] + RemoveAll(s[1..], x)
  }

  /** Filtering removes every occurrence of `x` and keeps every other value. */
  lemma {:induction false} RemoveAllMembers(s: seq<string>, x: string)
    ensures x !in RemoveAll(s, x)
    ensures forall y :: y != x ==> (y in RemoveAll(s, x) <==> y in s)
  {
    if |s| > 0 {
      RemoveAllMembers(s[1..], x);
      assert s == [s[0]] + s[1..];
    }
  }

  /** The impact toggle: a present tag is removed everywhere it occurs, an
      absent one is appended at the end; the tag's presence flips and every
      other tag keeps its presence. */
  function ToggleImpact(current: seq<string>, impact: string): (r: seq<string>)
    ensures impact in r <==> impact !in current
    ensures forall y :: y != impact ==> (y in r <==> y in current)
    ensures impact !in current ==> r == current + [impact]
  {
    RemoveAllMembers(current, impact);
    if impact in current then RemoveAll(current, impact) else current + [impact]
  }

  lemma {:induction false} RemoveAllAbsent(s: seq<string>, x: string)
    requires x !in s
    ensures RemoveAll(s, x) == s
  {
    if |s| > 0 {
      RemoveAllAbsent(s[1..], x);
      assert [s[0]] + s[1..] == s;
    }
  }

  lemma {:induction false} RemoveAllConcat(a: seq<string>, b: seq<string>, x: string)
    ensures RemoveAll(a + b, x) == RemoveAll(a, x) + RemoveAll(b, x)
  {
    if |a| == 0 {
      assert a + b == b;
    } else {
      RemoveAllConcat(a[1..], b, x);
      var ab := a + b;
      assert ab[0] == a[0] && ab[1..] == a[1..] + b;
      if a[0] != x {
        calc {
          RemoveAll(ab, x);
          [a[0]] + RemoveAll(a[1..] + b, x);
          [a[0]] + (RemoveAll(a[1..], x) + RemoveAll(b, x));
          ([a[0]] + RemoveAll(a[1..], x)) + RemoveAll(b, x);
        }
      }
    }
  }

  /** Toggling a tag twice on a list that lacks it restores the list. */
  lemma {:induction false} ToggleTwiceRestores(current: seq<string>, impact: string)
    requires impact !in current
    ensures ToggleImpact(ToggleImpact(current, impact), impact) == current
  {
    var once := current + [impact];
    assert impact in once;
    RemoveAllConcat(current, [impact], impact);
    RemoveAllAbsent(current, impact);
    assert RemoveAll([impact], impact) == [];
  }

  /** One `issueImpact` entry per tag, in list order. */
  function ImpactEntries(tags: seq<string>): (r: Form)
    ensures |r| == |tags|
  {
    seq(|tags|, i requires 0 <= i < |tags| => Entry("issueImpact", tags[i]))
  }

  /** The multipart body the submit handler builds: the five text fields in a
      fixed order, then `otherImpact` when it is non-empty, then the tags. */
  function PackForm(data: CaseForm): (fd: Form)
  {
    [ Entry("issueDescription", data.issueDescription),
      Entry("partiesInvolved", data.partiesInvolved),
      Entry("incidentDate", data.incidentDate),
      Entry("zipCode", data.zipCode),
      Entry("desiredResolution", data.desiredResolution) ]
    + (if !Falsy(data.otherImpact) then [Entry("otherImpact", data.otherImpact.value)] else [])
    + ImpactEntries(data.issueImpact.GetOr([]))
  }

  lemma {:induction false} GetAllImpactEntries(tags: seq<string>, name: string)
    ensures GetAll(ImpactEntries(tags), name) == if name == "issueImpact" then tags else []
  {
    if |tags| > 0 {
      GetAllImpactEntries(tags[1..], name);
      assert ImpactEntries(tags)[1..] == ImpactEntries(tags[1..]);
    }
  }

  lemma {:induction false} GetImpactEntriesOther(tags: seq<string>, name: string)
    requires name != "issueImpact"
    ensures Get(ImpactEntries(tags), name) == None
  {
    if |tags| > 0 {
      GetImpactEntriesOther(tags[1..], name);
      assert ImpactEntries(tags)[1..] == ImpactEntries(tags[1..]);
    }
  }

  /** Reading the packed body back by name gives every submitted field: the
      five text fields, `otherImpact` only when it was non-empty, and all the
      tags in list order. */
  lemma PackFormReadBack(data: CaseForm)
    ensures Get(PackForm(data), "issueDescription") == Some(data.issueDescription)
    ensures Get(PackForm(data), "partiesInvolved") == Some(data.partiesInvolved)
    ensures Get(PackForm(data), "incidentDate") == Some(data.incidentDate)
    ensures Get(PackForm(data), "zipCode") == Some(data.zipCode)
    ensures Get(PackForm(data), "desiredResolution") == Some(data.desiredResolution)
    ensures Get(PackForm(data), "otherImpact") == (if Falsy(data.otherImpact) then None else data.otherImpact)
    ensures GetAll(PackForm(data), "issueImpact") == data.issueImpact.GetOr([])
  {
    var head := [ Entry("issueDescription", data.issueDescription),
                  Entry("partiesInvolved", data.partiesInvolved),
                  Entry("incidentDate", data.incidentDate),
                  Entry("zipCode", data.zipCode),
                  Entry("desiredResolution", data.desiredResolution) ];
    var other: Form := if !Falsy(data.otherImpact) then [Entry("otherImpact", data.otherImpact.value)] else [];
    var tags := data.issueImpact.GetOr([]);
    var fd := PackForm(data);
    assert fd == head + other + ImpactEntries(tags);
    GetAt(fd, "issueDescription", 0);
    GetAt(fd, "partiesInvolved", 1);
    GetAt(fd, "incidentDate", 2);
    GetAt(fd, "zipCode", 3);
    GetAt(fd, "desiredResolution", 4);
    if Falsy(data.otherImpact) {
      assert forall j :: 0 <= j < |fd| ==> fd[j].name != "otherImpact";
      GetAbsent(fd, "otherImpact");
    } else {
      GetAt(fd, "otherImpact", 5);
    }
    GetAllConcat(head + other, ImpactEntries(tags), "issueImpact");
    GetAllAbsent(head + other, "issueImpact");
    GetAllImpactEntries(tags, "issueImpact");
  }

  /** Builds the body by successive appends, the tags by a loop over the list. */
  method BuildFormData(data: CaseForm) returns (fd: Form)
    ensures fd == PackForm(data)
  {
    fd := [];
    fd := Append(fd, "issueDescription", data.issueDescription);
    fd := Append(fd, "partiesInvolved", data.partiesInvolved);
    fd := Append(fd, "incidentDate", data.incidentDate);
    fd := Append(fd, "zipCode", data.zipCode);
    fd := Append(fd, "desiredResolution", data.desiredResolution);
    if !Falsy(data.otherImpact) {
      fd := Append(fd, "otherImpact", data.otherImpact.value);
    }
    ghost var front := fd;
    var tags := data.issueImpact.GetOr([]);
    for i := 0 to |tags|
      invariant fd == front + ImpactEntries(tags[..i])
    {
      assert ImpactEntries(tags[..i + 1]) == ImpactEntries(tags[..i]) + [Entry("issueImpact", tags[i])];
      fd := Append(fd, "issueImpact", tags[i]);
    }
    assert tags[..|tags|] == tags;
  }

  datatype Request = Request(verb: string, url: string, authorization: string, body: Form)

  /** What the server's answer to the post turned into, as seen by the page. */
  datatype FetchResult =
    | NetworkDown
    | Responded(ok: bool, body: Step<ResponseJson>)

  /** The fields of the JSON answer that the page reads: the string fields of
      its `case` object, and its `message`. */
  datatype ResponseJson = ResponseJson(caseObject: map<string, string>, message: Option<string>)

  /** The visible effect of one submit: the toasts shown, in order, and the
      page to navigate to. */
  datatype SubmitEffect =
    | Rejected(errors: seq<FieldError>)
    | Submission(request: Option<Request>, toasts: seq<string>, navigateTo: Option<string>)

  const MissingTokenMessage := "Authentication token not found. Please log in again."
  const CreatedMessage := "Your case has been submitted successfully."
  const DefaultErrorMessage := "An error occurred while submitting the case."
  const NetworkErrorMessage := "Network error or server is down."

  /** A template-literal path: a missing field is written as "undefined". */
  function CasePath(j: ResponseJson, key: string): (path: string)
    ensures key in j.caseObject ==> path == "/case/" + j.caseObject[key]
    ensures key !in j.caseObject ==> path == "/case/undefined"
  {
    "/case/" + (if key in j.caseObject then j.caseObject[key] else "undefined")
  }

  /** The case page as the code names it: `case._id`. */
  function CaseLinkAsWritten(j: ResponseJson): (path: string)
    ensures "_id" !in j.caseObject ==> path == "/case/undefined"
  {
    CasePath(j, "_id")
  }

  /** The case page as evidently meant: the `id` the case route returns. */
  function CaseLink(j: ResponseJson): (path: string)
    ensures "id" in j.caseObject ==> path == "/case/" + j.caseObject["id"]
  {
    CasePath(j, "id")
  }

  /** What one run of `onSubmit` shows and sends: without a token cookie
      nothing is sent; otherwise the packed body is posted with a bearer
      header and the answer decides the toasts and the navigation. The
      success toast is shown before the answer's body is read, so a body
      that cannot be read adds the network-error toast after it. */
  function SubmitOutcome(data: CaseForm, token: Option<string>, answer: FetchResult): (effect: SubmitEffect)
    ensures effect.Submission?
    ensures Falsy(token) ==> effect == Submission(None, [MissingTokenMessage], None)
    ensures !Falsy(token) ==>
      && effect.request == Some(Request("POST", "/api/cases", "Bearer " + token.value, PackForm(data)))
      && (answer.Responded? && answer.ok && answer.body.Threw? ==>
            effect.toasts == [CreatedMessage, NetworkErrorMessage])
      && (answer.Responded? && !answer.ok && answer.body.Threw? ==> effect.toasts == [NetworkErrorMessage])
      && (effect.navigateTo.Some? <==> answer.Responded? && answer.ok && answer.body.Done?)
      && (effect.navigateTo.Some? ==> effect.navigateTo.value == CaseLink(answer.body.value)
                                      && effect.toasts == [CreatedMessage])
      && (answer.NetworkDown? ==> effect.toasts == [NetworkErrorMessage])
      && (answer.Responded? && !answer.ok && answer.body.Done? ==>
            effect.toasts == [if Falsy(answer.body.value.message) then DefaultErrorMessage
                              else answer.body.value.message.value])
  {
    if Falsy(token) then Submission(None, [MissingTokenMessage], None)
    else
      var request := Some(Request("POST", "/api/cases", "Bearer " + token.value, PackForm(data)));
      match answer
      case NetworkDown => Submission(request, [NetworkErrorMessage], None)
      case Responded(ok, body) =>
        if ok then
          if body.Threw? then Submission(request, [CreatedMessage, NetworkErrorMessage], None)
          else Submission(request, [CreatedMessage], Some(CaseLink(body.value)))
        else if body.Threw? then Submission(request, [NetworkErrorMessage], None)
        else
          var msg := if Falsy(body.value.message) then DefaultErrorMessage else body.value.message.value;
          Submission(request, [msg], None)
  }

  /** The page's state: the form's impact values and the loading flag. */
  class NewCasePage {
    var issueImpact: Option<seq<string>>
    var loading: bool

    constructor ()
      ensures issueImpact == None && !loading
    {
      issueImpact := None;
      loading := false;
    }

    /** `handleImpactChange`: replaces the form's tag list by its toggle. */
    method HandleImpactChange(impact: string)
      modifies this`issueImpact
      ensures issueImpact == Some(ToggleImpact(old(issueImpact).GetOr([]), impact))
    {
      var current := issueImpact.GetOr([]);
      if impact in current {
        issueImpact := Some(RemoveAll(current, impact));
      } else {
        issueImpact := Some(current + [impact]);
      }
    }

    /** `onSubmit`: sets loading, builds the form body with the append loop,
        and ends with the effect `SubmitOutcome` describes, loading false. */
    method OnSubmit(data: CaseForm, token: Option<string>, answer: FetchResult) returns (effect: SubmitEffect)
      modifies this`loading
      ensures !loading
      ensures effect == SubmitOutcome(data, token, answer)
    {
      loading := true;
      if Falsy(token) {
        loading := false;
        return Submission(None, [MissingTokenMessage], None);
      }
      var fd := BuildFormData(data);
      var request := Request("POST", "/api/cases", "Bearer " + token.value, fd);
      match answer {
        case NetworkDown =>
          effect := Submission(Some(request), [NetworkErrorMessage], None);
        case Responded(ok, body) =>
          if ok {
            if body.Threw? {
              effect := Submission(Some(request), [CreatedMessage, NetworkErrorMessage], None);
            } else {
              effect := Submission(Some(request), [CreatedMessage], Some(CaseLink(body.value)));
            }
          } else if body.Threw? {
            effect := Submission(Some(request), [NetworkErrorMessage], None);
          } else {
            var msg := if Falsy(body.value.message) then DefaultErrorMessage else body.value.message.value;
            effect := Submission(Some(request), [msg], None);
          }
      }
      loading := false;
    }

    /** `handleSubmit(onSubmit)`: the schema runs first, and the submit
        handler (with its request) runs only when no field is rejected. */
    method HandleSubmit(data: CaseForm, token: Option<string>, answer: FetchResult) returns (effect: SubmitEffect)
      modifies this`loading
      ensures Validate(data) != [] ==> effect == Rejected(Validate(data)) && loading == old(loading)
      ensures Validate(data) == [] ==> effect == SubmitOutcome(data, token, answer) && !loading
    {
      var errs := Validate(data);
      if errs != [] {
        return Rejected(errs);
      }
      effect := OnSubmit(data, token, answer);
    }
  }
}
