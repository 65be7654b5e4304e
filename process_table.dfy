// The process list (src/components/Processos/ProcessTable.tsx): the rows it
// shows are the processes that pass the search/status/type filter, sorted by
// the selected column and direction; clicking a column header updates the
// sort state.
//
// `toLowerCase` and `includes` are the ASCII versions from module Text, and
// `localeCompare` is stood in for by the code-point order of `LexCompare`.

module ProcessTable {
  import opened Types
  import opened Text

  datatype SortField = IdField | TitleField | StatusField | PriorityField | CreatedAtField

  datatype Direction = Asc | Desc

  datatype SortState = SortState(field: SortField, direction: Direction)

  /** The sort state the table starts with. */
  const InitialSort := SortState(CreatedAtField, Desc)

  // Filtering.

  /** The filter predicate; an empty filter value lets everything through. */
  predicate Matches(p: Process, searchTerm: string, statusFilter: string, typeFilter: string)
  {
    && (searchTerm == ""
        || Includes(Lower(p.title), Lower(searchTerm))
        || Includes(Lower(p.id), Lower(searchTerm)))
    && (statusFilter == "" || ProcessStatusName(p.status) == statusFilter)
    && (typeFilter == "" || ProcessTypeName(p.kind) == typeFilter)
  }

  /**
   * A non-empty status or type filter lets through only the processes whose
   * status or type is the one the selected literal names; empty filters let
   * everything through.
   */
  lemma MatchesSelectValues(p: Process, searchTerm: string, statusFilter: string, typeFilter: string)
    ensures Matches(p, searchTerm, statusFilter, typeFilter) && statusFilter != "" ==>
      ParseProcessStatus(statusFilter) == Some(p.status)
    ensures Matches(p, searchTerm, statusFilter, typeFilter) && typeFilter != "" ==>
      ParseProcessType(typeFilter) == Some(p.kind)
    ensures searchTerm == "" && statusFilter == "" && typeFilter == "" ==> Matches(p, searchTerm, statusFilter, typeFilter)
  {
    ProcessStatusRoundTrip(p.status);
    ProcessTypeRoundTrip(p.kind);
  }

  /** The search ignores the letter case of the term. */
  lemma MatchesIgnoresTermCase(p: Process, searchTerm: string, statusFilter: string, typeFilter: string)
    ensures Matches(p, Lower(searchTerm), statusFilter, typeFilter) == Matches(p, searchTerm, statusFilter, typeFilter)
  {
    LowerIdempotent(searchTerm);
  }

  /** `Array.prototype.filter`: the elements `keep` accepts, each as often as it occurs. */
  function KeepIf<T(!new)>(s: seq<T>, keep: T -> bool): (r: seq<T>)
    ensures |r| <= |s|
    ensures forall x :: multiset(r)[x] == if keep(x) then multiset(s)[x] else 0
    decreases |s|
  {
    if s == [] then []
    else
      var rest := KeepIf(s[1..], keep);
      assert s == [s[0]] + s[1..];
      assert multiset(s) == multiset{s[0]} + multiset(s[1..]);
      if keep(s[0]) then [s[0]] + rest else rest
  }

  /** `processes.filter(...)`: the matching processes, each as often as in the input. */
  function Filter(ps: seq<Process>, searchTerm: string, statusFilter: string, typeFilter: string): (r: seq<Process>)
    ensures |r| <= |ps|
    ensures multiset(r) <= multiset(ps)
    ensures forall x :: x in r ==> x in ps && Matches(x, searchTerm, statusFilter, typeFilter)
    ensures forall i :: 0 <= i < |ps| && Matches(ps[i], searchTerm, statusFilter, typeFilter) ==> ps[i] in r
    ensures forall x :: multiset(r)[x] == if Matches(x, searchTerm, statusFilter, typeFilter) then multiset(ps)[x] else 0
  {
    var keep := p => Matches(p, searchTerm, statusFilter, typeFilter);
    var r := KeepIf(ps, keep);
    assert forall x :: keep(x) == Matches(x, searchTerm, statusFilter, typeFilter);
    assert forall x :: x in r <==> x in multiset(r);
    assert forall x :: x in ps <==> x in multiset(ps);
    r
  }

  /** With every filter empty, nothing is dropped. */
  lemma {:induction false} EmptyFiltersKeepAll(ps: seq<Process>)
    ensures Filter(ps, "", "", "") == ps
    decreases |ps|
  {
    if ps != [] {
      EmptyFiltersKeepAll(ps[1..]);
      assert Matches(ps[0], "", "", "");
      assert ps == [ps[0]] + ps[1..];
    }
  }

  // Ordering.

  function PriorityRank(p: Priority): int
  {
    match p
    case Low => 0
    case Medium => 1
    case High => 2
  }

  /** The string a text column sorts on. */
  function FieldText(p: Process, field: SortField): string
  {
    match field
    case IdField => p.id
    case TitleField => p.title
    case StatusField => ProcessStatusName(p.status)
    case _ => ""
  }

  /** Three-way comparison of strings by code point: negative, zero or positive. */
  function LexCompare(a: string, b: string): (r: int)
    ensures -1 <= r <= 1
    ensures r == 0 <==> a == b
    decreases |a|
  {
    if a == [] && b == [] then 0
    else if a == [] then -1
    else if b == [] then 1
    else if a[0] < b[0] then -1
    else if a[0] > b[0] then 1
    else
      var r := LexCompare(a[1..], b[1..]);
      assert a == [a[0]] + a[1..] && b == [b[0]] + b[1..];
      r
  }

  lemma {:induction false} LexCompareAntisymmetric(a: string, b: string)
    ensures LexCompare(a, b) == -LexCompare(b, a)
    decreases |a|
  {
    if a != [] && b != [] && a[0] == b[0] {
      LexCompareAntisymmetric(a[1..], b[1..]);
    }
  }

  lemma {:induction false} LexCompareTransitive(a: string, b: string, c: string)
    requires LexCompare(a, b) <= 0 && LexCompare(b, c) <= 0
    ensures LexCompare(a, c) <= 0
    decreases |a|
  {
    if a != [] && b != [] && c != [] && a[0] == b[0] && b[0] == c[0] {
      LexCompareTransitive(a[1..], b[1..], c[1..]);
    }
  }

  /** The comparator passed to `sort`: negative means `a` goes first. */
  function Compare(field: SortField, direction: Direction, a: Process, b: Process): int
  {
    match field
    case CreatedAtField =>
      if direction == Asc then a.createdAt - b.createdAt else b.createdAt - a.createdAt
    case PriorityField =>
      var rankA := PriorityRank(a.priority);
      var rankB := PriorityRank(b.priority);
      if direction == Asc then rankA - rankB else rankB - rankA
    case _ =>
      var valueA := Lower(FieldText(a, field));
      var valueB := Lower(FieldText(b, field));
      if direction == Asc then LexCompare(valueA, valueB) else LexCompare(valueB, valueA)
  }

  /**
   * By date or priority, `a` may go first exactly when its timestamp or rank
   * is not greater (ascending) or not smaller (descending); on a text column
   * two processes tie exactly when their lower-cased texts are equal.
   */
  lemma CompareMeaning(field: SortField, direction: Direction, a: Process, b: Process)
    ensures field == CreatedAtField ==>
      (Compare(field, direction, a, b) <= 0 <==>
        if direction == Asc then a.createdAt <= b.createdAt else a.createdAt >= b.createdAt)
    ensures field == PriorityField ==>
      (Compare(field, direction, a, b) <= 0 <==>
        if direction == Asc then PriorityRank(a.priority) <= PriorityRank(b.priority)
        else PriorityRank(a.priority) >= PriorityRank(b.priority))
    ensures field in {IdField, TitleField, StatusField} ==>
      (Compare(field, direction, a, b) == 0 <==> Lower(FieldText(a, field)) == Lower(FieldText(b, field)))
  {
  }

  /** `a` may come before `b`. */
  predicate Precedes(field: SortField, direction: Direction, a: Process, b: Process)
  {
    Compare(field, direction, a, b) <= 0
  }

  lemma PrecedesTotal(field: SortField, direction: Direction, a: Process, b: Process)
    ensures Precedes(field, direction, a, b) || Precedes(field, direction, b, a)
  {
    var valueA := Lower(FieldText(a, field));
    var valueB := Lower(FieldText(b, field));
    LexCompareAntisymmetric(valueA, valueB);
  }

  lemma PrecedesTransitive(field: SortField, direction: Direction, a: Process, b: Process, c: Process)
    requires Precedes(field, direction, a, b) && Precedes(field, direction, b, c)
    ensures Precedes(field, direction, a, c)
  {
    var valueA := Lower(FieldText(a, field));
    var valueB := Lower(FieldText(b, field));
    var valueC := Lower(FieldText(c, field));
    match field
    case CreatedAtField =>
    case PriorityField =>
    case _ =>
      if direction == Asc {
        LexCompareTransitive(valueA, valueB, valueC);
      } else {
        LexCompareTransitive(valueC, valueB, valueA);
      }
  }

  /** Neighbours are in comparator order. */
  predicate Sorted(field: SortField, direction: Direction, s: seq<Process>)
  {
    forall i :: 0 < i < |s| ==> Precedes(field, direction, s[i - 1], s[i])
  }

  /** Every earlier element may precede every later one. */
  ghost predicate SortedPairwise(field: SortField, direction: Direction, s: seq<Process>)
  {
    forall i, j :: 0 <= i < j < |s| ==> Precedes(field, direction, s[i], s[j])
  }

  lemma {:induction false} SortedIsPairwise(field: SortField, direction: Direction, s: seq<Process>)
    requires Sorted(field, direction, s)
    ensures SortedPairwise(field, direction, s)
    decreases |s|
  {
    if |s| > 1 {
      SortedIsPairwise(field, direction, s[1..]);
      forall i, j | 0 <= i < j < |s| ensures Precedes(field, direction, s[i], s[j]) {
        if i == 0 {
          if j > 1 {
            assert Precedes(field, direction, s[1..][0], s[1..][j - 1]);
            PrecedesTransitive(field, direction, s[0], s[1], s[j]);
          }
        } else {
          assert Precedes(field, direction, s[1..][i - 1], s[1..][j - 1]);
        }
      }
    }
  }

  /** Places `x` before the first element it may precede. */
  function Insert(field: SortField, direction: Direction, x: Process, s: seq<Process>): (r: seq<Process>)
    requires Sorted(field, direction, s)
    ensures |r| == |s| + 1
    ensures multiset(r) == multiset(s) + multiset{x}
    ensures r[0] == x || (s != [] && r[0] == s[0])
    ensures Sorted(field, direction, r)
    decreases |s|
  {
    if s == [] || Precedes(field, direction, x, s[0]) then
      [x] + s
    else
      PrecedesTotal(field, direction, x, s[0]);
      var rest := Insert(field, direction, x, s[1..]);
      assert s == [s[0]] + s[1..];
      [s[0]] + rest
  }

  /** `sort` with the comparator: an ordered rearrangement of `s`. */
  function SortBy(field: SortField, direction: Direction, s: seq<Process>): (r: seq<Process>)
    ensures |r| == |s|
    ensures multiset(r) == multiset(s)
    ensures Sorted(field, direction, r)
    decreases |s|
  {
    if s == [] then []
    else
      assert s == [s[0]] + s[1..];
      Insert(field, direction, s[0], SortBy(field, direction, s[1..]))
  }

  /** The rows the table shows. */
  function FilteredProcesses(ps: seq<Process>, searchTerm: string, statusFilter: string, typeFilter: string, sort: SortState): (r: seq<Process>)
    ensures forall x :: multiset(r)[x] == if Matches(x, searchTerm, statusFilter, typeFilter) then multiset(ps)[x] else 0
    ensures Sorted(sort.field, sort.direction, r)
  {
    SortBy(sort.field, sort.direction, Filter(ps, searchTerm, statusFilter, typeFilter))
  }

  /**
   * The rows are exactly the matching processes (each as often as in the
   * input), in comparator order; with no filter they are a permutation of
   * the input.
   */
  lemma FilteredProcessesSpec(ps: seq<Process>, searchTerm: string, statusFilter: string, typeFilter: string, sort: SortState)
    ensures var r := FilteredProcesses(ps, searchTerm, statusFilter, typeFilter, sort);
      && |r| <= |ps|
      && multiset(r) <= multiset(ps)
      && (forall x :: x in r ==> x in ps && Matches(x, searchTerm, statusFilter, typeFilter))
      && (forall i :: 0 <= i < |ps| && Matches(ps[i], searchTerm, statusFilter, typeFilter) ==> ps[i] in r)
      && (forall x :: multiset(r)[x] == if Matches(x, searchTerm, statusFilter, typeFilter) then multiset(ps)[x] else 0)
      && SortedPairwise(sort.field, sort.direction, r)
      && (searchTerm == "" && statusFilter == "" && typeFilter == "" ==> multiset(r) == multiset(ps))
  {
    var f := Filter(ps, searchTerm, statusFilter, typeFilter);
    var r := SortBy(sort.field, sort.direction, f);
    SortedIsPairwise(sort.field, sort.direction, r);
    forall x | x in r ensures x in f {
      assert x in multiset(r);
    }
    forall i | 0 <= i < |ps| && Matches(ps[i], searchTerm, statusFilter, typeFilter) ensures ps[i] in r {
      assert ps[i] in multiset(f);
    }
    if searchTerm == "" && statusFilter == "" && typeFilter == "" {
      EmptyFiltersKeepAll(ps);
    }
  }

  /**
   * Rows sorted by priority (as `SortBy` leaves them) go by rank
   * low < medium < high, either way round.
   */
  lemma PrioritySortOrder(r: seq<Process>, direction: Direction, i: int, j: int)
    requires Sorted(PriorityField, direction, r)
    requires 0 <= i < j < |r|
    ensures if direction == Asc then PriorityRank(r[i].priority) <= PriorityRank(r[j].priority)
            else PriorityRank(r[i].priority) >= PriorityRank(r[j].priority)
  {
    SortedIsPairwise(PriorityField, direction, r);
    assert Precedes(PriorityField, direction, r[i], r[j]);
  }

  /** Rows sorted by creation date go by timestamp, either way round. */
  lemma CreatedAtSortOrder(r: seq<Process>, direction: Direction, i: int, j: int)
    requires Sorted(CreatedAtField, direction, r)
    requires 0 <= i < j < |r|
    ensures if direction == Asc then r[i].createdAt <= r[j].createdAt else r[i].createdAt >= r[j].createdAt
  {
    SortedIsPairwise(CreatedAtField, direction, r);
    assert Precedes(CreatedAtField, direction, r[i], r[j]);
  }

  // The sort state.

  function Flip(d: Direction): Direction
  {
    if d == Asc then Desc else Asc
  }

  /** `handleSort`: the same column flips the direction, another column starts ascending. */
  function NextSort(s: SortState, field: SortField): (r: SortState)
    ensures r.field == field
    ensures s.field == field ==> r.direction != s.direction
    ensures s.field != field ==> r.direction == Asc
  {
    if s.field == field then s.(direction := Flip(s.direction)) else SortState(field, Asc)
  }

  /** Clicking the sorted column twice restores the original direction. */
  lemma ToggleTwiceRestores(s: SortState)
    ensures NextSort(NextSort(s, s.field), s.field) == s
  {
  }

  /** The table's filter and sort state. */
  class TableState {
    var searchTerm: string
    var statusFilter: string
    var typeFilter: string
    var sortField: SortField
    var sortDirection: Direction

    constructor ()
      ensures searchTerm == "" && statusFilter == "" && typeFilter == ""
      ensures SortState(sortField, sortDirection) == InitialSort
    {
      searchTerm, statusFilter, typeFilter := "", "", "";
      sortField, sortDirection := CreatedAtField, Desc;
    }

    method HandleSort(field: SortField)
      modifies this
      ensures SortState(sortField, sortDirection) == NextSort(old(SortState(sortField, sortDirection)), field)
      ensures searchTerm == old(searchTerm) && statusFilter == old(statusFilter) && typeFilter == old(typeFilter)
    {
      if sortField == field {
        sortDirection := if sortDirection == Asc then Desc else Asc;
      } else {
        sortField := field;
        sortDirection := Asc;
      }
    }

    method SetFilters(term: string, status: string, kind: string)
      modifies this
      ensures searchTerm == term && statusFilter == status && typeFilter == kind
      ensures sortField == old(sortField) && sortDirection == old(sortDirection)
    {
      searchTerm, statusFilter, typeFilter := term, status, kind;
    }

    /** The rows shown for `processes` under the current state. */
    function Rows(processes: seq<Process>): (r: seq<Process>)
      reads this
      ensures multiset(r) <= multiset(processes)
      ensures forall x :: multiset(r)[x] == if Matches(x, searchTerm, statusFilter, typeFilter) then multiset(processes)[x] else 0
      ensures Sorted(sortField, sortDirection, r)
    {
      FilteredProcesses(processes, searchTerm, statusFilter, typeFilter, SortState(sortField, sortDirection))
    }
  }
}
