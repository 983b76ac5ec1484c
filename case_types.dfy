/** The `Case` record as the dashboard components receive it (types/case.ts).
    Dates and the due date are represented by their millisecond timestamps,
    and `priority` by an integer. */
module CaseTypes {
  import opened Common

  datatype Case = Case(
    dueDate: int,
    priority: int,
    status: string,
    id: string,
    userId: string,
    issueDescription: string,
    partiesInvolved: string,
    incidentDate: string,
    zipCode: string,
    issueImpact: seq<string>,
    otherImpact: string,
    desiredResolution: string,
    documents: seq<string>,
    caseClassification: Option<string>,
    relevantLaws: Option<seq<string>>,
    jurisdiction: Option<string>,
    recommendations: Option<seq<string>>,
    deadlines: Option<seq<string>>,
    strengthIndicators: Option<string>,
    supportingDocumentation: Option<seq<string>>,
    draftedCommunication: Option<string>,
    createdAt: int,
    updatedAt: int)
}
