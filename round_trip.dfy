/** The intake page and the case route together: what the page packs into
    the form is what the route reads back into the stored case. */
module IntakeRoundTrip {
  import opened Common
  import opened FormData
  import Intake
  import CasesRoute

  /** The stored case data for a submitted form: every field as entered,
      all impact tags in the order they were chosen, the other-impact text
      only when it is not empty, the owner from the token and both
      timestamps from the server. */
  lemma SubmittedCaseRoundTrip(data: Intake.CaseForm, uid: string)
    ensures CasesRoute.BuildCaseData(uid, Intake.PackForm(data))
         == CasesRoute.CaseData(
              uid,
              Some(data.issueDescription),
              Some(data.partiesInvolved),
              Some(data.incidentDate),
              Some(data.zipCode),
              Some(data.desiredResolution),
              data.issueImpact.GetOr([]),
              if Falsy(data.otherImpact) then None else data.otherImpact,
              CasesRoute.ServerTimestamp,
              CasesRoute.ServerTimestamp)
  {
    Intake.PackFormReadBack(data);
  }

  /** A form the page accepts reaches the store with a five-digit zip code. */
  lemma AcceptedZipIsStored(data: Intake.CaseForm, uid: string)
    requires Intake.Validate(data) == []
    ensures var z := CasesRoute.BuildCaseData(uid, Intake.PackForm(data)).zipCode;
      z.Some? && |z.value| == 5 && forall i :: 0 <= i < 5 ==> '0' <= z.value[i] <= '9'
  {
    SubmittedCaseRoundTrip(data, uid);
    Intake.AcceptedIff(data);
  }

  /** A string field of a JSON object, left out when it is undefined. */
  function Field(key: string, value: Option<string>): map<string, string>
  {
    if value.Some? then map[key := value.value] else map[]
  }

  /** The string fields of the `case` object in the route's 201 answer:
      `{ id, ...caseData }`. */
  function CaseObject(id: string, d: CasesRoute.CaseData): (m: map<string, string>)
    ensures "id" in m && m["id"] == id
    ensures "_id" !in m
  {
    (map["userId" := d.userId]
     + Field("issueDescription", d.issueDescription)
     + Field("partiesInvolved", d.partiesInvolved)
     + Field("incidentDate", d.incidentDate)
     + Field("zipCode", d.zipCode)
     + Field("desiredResolution", d.desiredResolution)
     + Field("otherImpact", d.otherImpact))[
      "id" := id]
  }

  /** The JSON the page reads from a 201 answer of the case route. */
  function CreatedJson(resp: CasesRoute.Response): Intake.ResponseJson
    requires resp.body.Created?
  {
    Intake.ResponseJson(CaseObject(resp.body.id, resp.body.created), Some(resp.body.message))
  }

  /** The page as written looks for `case._id`, which the route never sends,
      so every created case sends the user to "/case/undefined"; reading
      `case.id` leads to the new case. */
  lemma CreatedCaseLink(resp: CasesRoute.Response)
    requires resp.body.Created?
    ensures Intake.CaseLinkAsWritten(CreatedJson(resp)) == "/case/undefined"
    ensures Intake.CaseLink(CreatedJson(resp)) == "/case/" + resp.body.id
  {
    var j := CreatedJson(resp);
    assert "_id" !in j.caseObject && "id" in j.caseObject;
  }
}
