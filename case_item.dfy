/** One case on the dashboard (components/dashboard/CaseItem.tsx): the
    document count and list, the name shown for each document, the next
    deadline, and the expanded/collapsed state. */
module CaseItem {
  import opened Common
  import opened Text
  import opened CaseTypes

  /** The documents listed: the case's own, then the supporting ones if any. */
  function AllDocuments(c: Case): (r: seq<string>)
    ensures |r| >= |c.documents| && r[..|c.documents|] == c.documents
    ensures c.supportingDocumentation.None? ==> r == c.documents
    ensures c.supportingDocumentation.Some? ==> r[|c.documents|..] == c.supportingDocumentation.value
  {
    c.documents + c.supportingDocumentation.GetOr([])
  }

  /** The number shown next to "Documents:"; it agrees with the list shown. */
  function DocumentCount(c: Case): (n: nat)
    ensures n == |AllDocuments(c)|
    ensures c.supportingDocumentation.None? ==> n == |c.documents|
  {
    |c.documents| + (if c.supportingDocumentation.Some? then |c.supportingDocumentation.value| else 0)
  }

  /** The name shown for a stored path: what follows its last '/'. */
  function DisplayName(doc: string): (r: string)
    ensures '/' !in r
    ensures |r| <= |doc| && r == doc[|doc| - |r|..]
    ensures '/' !in doc ==> r == doc
    ensures |r| < |doc| ==> doc[|doc| - |r| - 1] == '/'
  {
    doc[LastIndexOf(doc, '/') + 1..]
  }

  /** The names shown in the documents section, one per listed document. */
  function DisplayedNames(c: Case): (r: seq<string>)
    ensures |r| == DocumentCount(c)
    ensures forall i :: 0 <= i < |r| ==> r[i] == DisplayName(AllDocuments(c)[i]) && '/' !in r[i]
  {
    var docs := AllDocuments(c);
    seq(|docs|, i requires 0 <= i < |docs| => DisplayName(docs[i]))
  }

  /** The "Next Deadline" fact: shown only for a present, non-empty list,
      and then its first entry. */
  function NextDeadline(c: Case): (r: Option<string>)
    ensures r.Some? <==> c.deadlines.Some? && |c.deadlines.value| > 0
    ensures r.Some? ==> r.value == c.deadlines.value[0]
  {
    if c.deadlines.Some? && |c.deadlines.value| > 0 then Some(c.deadlines.value[0]) else None
  }

  /** The item's one piece of state. */
  class CaseItemView {
    var isExpanded: bool

    constructor ()
      ensures !isExpanded
    {
      isExpanded := false;
    }

    /** The chevron button. */
    method ToggleExpanded()
      modifies this
      ensures isExpanded == !old(isExpanded)
    {
      isExpanded := !isExpanded;
    }
  }

  /** Two presses of the button bring a new item back to collapsed, and one
      leaves it expanded. */
  method PressTwice() returns (afterOne: bool, afterTwo: bool)
    ensures afterOne && !afterTwo
  {
    var view := new CaseItemView();
    view.ToggleExpanded();
    afterOne := view.isExpanded;
    view.ToggleExpanded();
    afterTwo := view.isExpanded;
  }
}
