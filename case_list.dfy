/** The dashboard case list (components/dashboard/CaseList.tsx): the fetched
    cases and loading flag as component state, and the derived list that keeps
    the cases of the chosen status and sorts that fresh copy by the chosen key. */
module CaseList {
  import opened Common
  import opened CaseTypes

  const AllStatuses := "all"

  /** The status filter: "all" keeps every case, any other value keeps exactly
      the cases whose status equals it, in their original order. */
  function FilterByStatus(cases: seq<Case>, filterStatus: string): (r: seq<Case>)
    ensures filterStatus == AllStatuses ==> r == cases
    ensures filterStatus != AllStatuses ==> forall c :: c in r <==> c in cases && c.status == filterStatus
    ensures |r| <= |cases|
  {
    if |cases| == 0 then []
    else if filterStatus == AllStatuses || cases[0].status == filterStatus
    then [cases[0]] + FilterByStatus(cases[1..], filterStatus)
    else FilterByStatus(cases[1..], filterStatus)
  }

  /** The three orders the sort selector offers; any other value of `sortBy`
      falls through to the due-date order. */
  datatype SortOrder = NewestFirst | HighestPriorityFirst | EarliestDueFirst

  function OrderOf(sortBy: string): SortOrder
  {
    if sortBy == "createdAt" then NewestFirst
    else if sortBy == "priority" then HighestPriorityFirst
    else EarliestDueFirst
  }

  /** The comparator handed to `sort`: negative when `a` belongs before `b`. */
  function Compare(order: SortOrder, a: Case, b: Case): int
  {
    match order
    case NewestFirst => b.createdAt - a.createdAt
    case HighestPriorityFirst => b.priority - a.priority
    case EarliestDueFirst => a.dueDate - b.dueDate
  }

  /** The comparator is the difference of one integer key, so the order it
      induces is a total preorder. */
  function Key(order: SortOrder, c: Case): int
  {
    match order
    case NewestFirst => -c.createdAt
    case HighestPriorityFirst => -c.priority
    case EarliestDueFirst => c.dueDate
  }

  lemma CompareIsKeyDifference(order: SortOrder, a: Case, b: Case)
    ensures Compare(order, a, b) == Key(order, a) - Key(order, b)
  {
  }

  /** No adjacent or distant pair is out of order for the comparator. */
  ghost predicate SortedBy(s: seq<Case>, order: SortOrder)
  {
    forall p, q :: 0 <= p < q < |s| ==> Compare(order, s[p], s[q]) <= 0
  }

  /** What each order means for a sorted list. */
  lemma SortedMeaning(s: seq<Case>, sortBy: string, p: nat, q: nat)
    requires SortedBy(s, OrderOf(sortBy)) && p < q < |s|
    ensures sortBy == "createdAt" ==> s[p].createdAt >= s[q].createdAt
    ensures sortBy == "priority" ==> s[p].priority >= s[q].priority
    ensures sortBy != "createdAt" && sortBy != "priority" ==> s[p].dueDate <= s[q].dueDate
  {
  }

  ghost predicate SortedBetween(s: seq<Case>, order: SortOrder, lo: int, hi: int)
    requires 0 <= lo <= hi <= |s|
  {
    forall p, q :: lo <= p < q < hi ==> Key(order, s[p]) <= Key(order, s[q])
  }

  /** The state of one insertion pass: element `j` is travelling left; the
      parts before and from it are each sorted, and nothing before it is
      larger than anything after it up to `i`. */
  ghost predicate Inserting(s: seq<Case>, order: SortOrder, j: int, i: int)
    requires 0 <= j <= i < |s|
  {
    && SortedBetween(s, order, 0, j)
    && SortedBetween(s, order, j, i + 1)
    && (forall p, q :: 0 <= p < j < q <= i ==> Key(order, s[p]) <= Key(order, s[q]))
  }

  /** Swapping the travelling element with a strictly larger left neighbour
      keeps the pass's invariant, one position further left. */
  lemma SwapStep(s: seq<Case>, order: SortOrder, j: int, i: int)
    requires 0 < j <= i < |s| && Inserting(s, order, j, i)
    requires Key(order, s[j - 1]) > Key(order, s[j])
    ensures Inserting(s[j - 1 := s[j]][j := s[j - 1]], order, j - 1, i)
  {
    var t := s[j - 1 := s[j]][j := s[j - 1]];
    assert SortedBetween(t, order, 0, j - 1) by {
      forall p, q | 0 <= p < q < j - 1 ensures Key(order, t[p]) <= Key(order, t[q]) {
        assert t[p] == s[p] && t[q] == s[q];
      }
    }
    assert SortedBetween(t, order, j - 1, i + 1) by {
      forall p, q | j - 1 <= p < q <= i ensures Key(order, t[p]) <= Key(order, t[q]) {
        if p == j - 1 && q > j {
          assert t[p] == s[j] && t[q] == s[q];
        } else if p == j - 1 {
          assert t[p] == s[j] && t[q] == s[j - 1];
        } else if p == j {
          assert t[p] == s[j - 1] && t[q] == s[q];
        } else {
          assert t[p] == s[p] && t[q] == s[q];
        }
      }
    }
    forall p, q | 0 <= p < j - 1 < q <= i ensures Key(order, t[p]) <= Key(order, t[q]) {
      if q == j {
        assert t[p] == s[p] && t[q] == s[j - 1];
      } else {
        assert t[p] == s[p] && t[q] == s[q];
      }
    }
  }

  /** Swapping two neighbours rearranges the sequence. */
  lemma SwapPermutes(s: seq<Case>, j: int)
    requires 0 < j < |s|
    ensures multiset(s[j - 1 := s[j]][j := s[j - 1]]) == multiset(s)
  {
    var t := s[j - 1 := s[j]][j := s[j - 1]];
    assert t == s[..j - 1] + [s[j], s[j - 1]] + s[j + 1..];
    assert s == s[..j - 1] + [s[j - 1], s[j]] + s[j + 1..];
  }

  /** A pass ends sorted up to `i` once the travelling element has reached the
      front or a neighbour that is not larger. */
  lemma InsertDone(s: seq<Case>, order: SortOrder, j: int, i: int)
    requires 0 <= j <= i < |s| && Inserting(s, order, j, i)
    requires j == 0 || Key(order, s[j - 1]) <= Key(order, s[j])
    ensures SortedBetween(s, order, 0, i + 1)
  {
    forall p, q | 0 <= p < q <= i ensures Key(order, s[p]) <= Key(order, s[q]) {
      if p < j && q == j {
        assert Key(order, s[p]) <= Key(order, s[j - 1]);
      }
    }
  }

  /** Sorts the array in place by insertion, swapping neighbours only when
      they are strictly out of order. */
  method InsertionSort(a: array<Case>, order: SortOrder)
    modifies a
    ensures SortedBetween(a[..], order, 0, a.Length)
    ensures multiset(a[..]) == old(multiset(a[..]))
  {
    if a.Length == 0 {
      return;
    }
    var i := 1;
    while i < a.Length
      invariant 1 <= i <= a.Length
      invariant SortedBetween(a[..], order, 0, i)
      invariant multiset(a[..]) == old(multiset(a[..]))
    {
      var j := i;
      while j > 0 && Key(order, a[j - 1]) > Key(order, a[j])
        invariant 0 <= j <= i
        invariant Inserting(a[..], order, j, i)
        invariant multiset(a[..]) == old(multiset(a[..]))
      {
        ghost var s := a[..];
        a[j - 1], a[j] := a[j], a[j - 1];
        assert a[..] == s[j - 1 := s[j]][j := s[j - 1]];
        SwapStep(s, order, j, i);
        SwapPermutes(s, j);
        j := j - 1;
      }
      InsertDone(a[..], order, j, i);
      i := i + 1;
    }
  }

  /** `filteredCases`: the filter's fresh copy, sorted in place. The result is
      ordered by the chosen key and is a rearrangement of exactly the cases the
      filter keeps; `cases` itself is a value and is not touched. */
  method FilteredCases(cases: seq<Case>, filterStatus: string, sortBy: string) returns (r: seq<Case>)
    ensures SortedBy(r, OrderOf(sortBy))
    ensures multiset(r) == multiset(FilterByStatus(cases, filterStatus))
  {
    var kept := FilterByStatus(cases, filterStatus);
    var a := new Case[|kept|](i requires 0 <= i < |kept| => kept[i]);
    assert a[..] == kept;
    var order := OrderOf(sortBy);
    InsertionSort(a, order);
    r := a[..];
    forall p, q | 0 <= p < q < |r| ensures Compare(order, r[p], r[q]) <= 0 {
      CompareIsKeyDifference(order, r[p], r[q]);
    }
  }

  /** What a finished fetch brought. */
  datatype FetchResult = Fetched(data: seq<Case>) | NotOk(status: int) | Failed(message: string)

  /** The component's state. */
  class CaseListState {
    var cases: seq<Case>
    var filterStatus: string
    var sortBy: string
    var loading: bool

    constructor ()
      ensures cases == [] && filterStatus == AllStatuses && sortBy == "createdAt" && loading
    {
      cases := [];
      filterStatus := AllStatuses;
      sortBy := "createdAt";
      loading := true;
    }

    /** The end of the fetch effect: a successful answer replaces the cases,
        a failed one leaves them as they were; loading stops either way. */
    method FetchCompleted(result: FetchResult)
      modifies this`cases, this`loading
      ensures result.Fetched? ==> cases == result.data
      ensures !result.Fetched? ==> cases == old(cases)
      ensures !loading
    {
      if result.Fetched? {
        cases := result.data;
      }
      loading := false;
    }

    method SetFilterStatus(value: string)
      modifies this`filterStatus
      ensures filterStatus == value
    {
      filterStatus := value;
    }

    method SetSortBy(value: string)
      modifies this`sortBy
      ensures sortBy == value
    {
      sortBy := value;
    }

    /** The rendered list, derived from the state without changing it. */
    method Visible() returns (r: seq<Case>)
      ensures SortedBy(r, OrderOf(sortBy))
      ensures multiset(r) == multiset(FilterByStatus(cases, filterStatus))
    {
      r := FilteredCases(cases, filterStatus, sortBy);
    }
  }

  /** A failed first fetch leaves the list empty and stops loading. */
  method FailedFirstFetch(message: string) returns (state: CaseListState)
    ensures state.cases == [] && !state.loading
  {
    state := new CaseListState();
    state.FetchCompleted(Failed(message));
  }
}
