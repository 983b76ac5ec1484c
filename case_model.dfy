/** The stored case record (models/Case.ts) as a record constructor: the
    required paths must be given, the array paths default to the empty list,
    the optional paths stay absent, and both timestamps default to the time
    of construction. */
module CaseModel {
  import opened Common

  /** The values a new case document is built from; any may be absent. */
  datatype CaseInput = CaseInput(
    userId: Option<string>,
    issueDescription: Option<string>,
    partiesInvolved: Option<string>,
    incidentDate: Option<string>,
    zipCode: Option<string>,
    issueImpact: Option<seq<string>>,
    otherImpact: Option<string>,
    desiredResolution: Option<string>,
    documents: Option<seq<string>>,
    caseClassification: Option<string>,
    relevantLaws: Option<seq<string>>,
    jurisdiction: Option<string>,
    recommendations: Option<seq<string>>,
    deadlines: Option<seq<string>>,
    strengthIndicators: Option<string>,
    supportingDocumentation: Option<seq<string>>,
    draftedCommunication: Option<string>,
    createdAt: Option<int>,
    updatedAt: Option<int>)

  /** A stored case: every required path and every array path has a value. */
  datatype CaseRecord = CaseRecord(
    userId: string,
    issueDescription: string,
    partiesInvolved: string,
    incidentDate: string,
    zipCode: string,
    issueImpact: seq<string>,
    otherImpact: Option<string>,
    desiredResolution: string,
    documents: seq<string>,
    caseClassification: Option<string>,
    relevantLaws: seq<string>,
    jurisdiction: Option<string>,
    recommendations: seq<string>,
    deadlines: seq<string>,
    strengthIndicators: Option<string>,
    supportingDocumentation: seq<string>,
    draftedCommunication: Option<string>,
    createdAt: int,
    updatedAt: int)

  datatype Built = Stored(record: CaseRecord) | ValidationError(missing: seq<string>)

  /** The required paths, in schema order. */
  const RequiredPaths := ["userId", "issueDescription", "partiesInvolved", "incidentDate", "zipCode", "desiredResolution"]

  /** Whether the input gives a value for the required path `p`. */
  predicate Gives(c: CaseInput, p: string)
  {
    match p
    case "userId" => c.userId.Some?
    case "issueDescription" => c.issueDescription.Some?
    case "partiesInvolved" => c.partiesInvolved.Some?
    case "incidentDate" => c.incidentDate.Some?
    case "zipCode" => c.zipCode.Some?
    case "desiredResolution" => c.desiredResolution.Some?
    case _ => true
  }

  /** The required paths the input lacks, in schema order. */
  function MissingPaths(c: CaseInput): (r: seq<string>)
    ensures forall p :: p in r <==> p in RequiredPaths && !Gives(c, p)
  {
    (if c.userId.None? then ["userId"] else [])
    + (if c.issueDescription.None? then ["issueDescription"] else [])
    + (if c.partiesInvolved.None? then ["partiesInvolved"] else [])
    + (if c.incidentDate.None? then ["incidentDate"] else [])
    + (if c.zipCode.None? then ["zipCode"] else [])
    + (if c.desiredResolution.None? then ["desiredResolution"] else [])
  }

  /** `new Case({...})` followed by validation, at time `now`. */
  function NewCase(c: CaseInput, now: int): (r: Built)
    // refused exactly when a required path is missing, naming every one
    ensures r.ValidationError? <==> exists p :: p in RequiredPaths && !Gives(c, p)
    ensures r.ValidationError? ==> forall p :: p in r.missing <==> p in RequiredPaths && !Gives(c, p)
    // the given values are kept, the array paths default to [], the optional
    // paths are not filled in, and the timestamps default to now
    ensures r.Stored? ==>
      && Some(r.record.userId) == c.userId
      && Some(r.record.issueDescription) == c.issueDescription
      && Some(r.record.partiesInvolved) == c.partiesInvolved
      && Some(r.record.incidentDate) == c.incidentDate
      && Some(r.record.zipCode) == c.zipCode
      && Some(r.record.desiredResolution) == c.desiredResolution
      && r.record.issueImpact == c.issueImpact.GetOr([])
      && r.record.documents == c.documents.GetOr([])
      && r.record.relevantLaws == c.relevantLaws.GetOr([])
      && r.record.recommendations == c.recommendations.GetOr([])
      && r.record.deadlines == c.deadlines.GetOr([])
      && r.record.supportingDocumentation == c.supportingDocumentation.GetOr([])
      && r.record.otherImpact == c.otherImpact
      && r.record.caseClassification == c.caseClassification
      && r.record.jurisdiction == c.jurisdiction
      && r.record.strengthIndicators == c.strengthIndicators
      && r.record.draftedCommunication == c.draftedCommunication
      && r.record.createdAt == c.createdAt.GetOr(now)
      && r.record.updatedAt == c.updatedAt.GetOr(now)
  {
    var missing := MissingPaths(c);
    if missing != [] then
      assert missing[0] in missing;
      ValidationError(missing)
    else
      Stored(CaseRecord(
        c.userId.value, c.issueDescription.value, c.partiesInvolved.value,
        c.incidentDate.value, c.zipCode.value, c.issueImpact.GetOr([]),
        c.otherImpact, c.desiredResolution.value, c.documents.GetOr([]),
        c.caseClassification, c.relevantLaws.GetOr([]), c.jurisdiction,
        c.recommendations.GetOr([]), c.deadlines.GetOr([]), c.strengthIndicators,
        c.supportingDocumentation.GetOr([]), c.draftedCommunication,
        c.createdAt.GetOr(now), c.updatedAt.GetOr(now)))
  }

  /** The input that spells out every value of a stored record. */
  function AsInput(rec: CaseRecord): CaseInput
  {
    CaseInput(
      Some(rec.userId), Some(rec.issueDescription), Some(rec.partiesInvolved),
      Some(rec.incidentDate), Some(rec.zipCode), Some(rec.issueImpact),
      rec.otherImpact, Some(rec.desiredResolution), Some(rec.documents),
      rec.caseClassification, Some(rec.relevantLaws), rec.jurisdiction,
      Some(rec.recommendations), Some(rec.deadlines), rec.strengthIndicators,
      Some(rec.supportingDocumentation), rec.draftedCommunication,
      Some(rec.createdAt), Some(rec.updatedAt))
  }

  /** Defaults only fill gaps: rebuilding a stored record from its own values
      gives it back, at any time. */
  lemma RebuildIsIdentity(rec: CaseRecord, now: int)
    ensures NewCase(AsInput(rec), now) == Stored(rec)
  {
    assert MissingPaths(AsInput(rec)) == [];
  }

  /** Building twice from one input at the same time agrees, and the time
      matters only when a timestamp was not given. */
  lemma TimeOnlyFillsTimestamps(c: CaseInput, now1: int, now2: int)
    requires c.createdAt.Some? && c.updatedAt.Some?
    ensures NewCase(c, now1) == NewCase(c, now2)
  {
  }
}
