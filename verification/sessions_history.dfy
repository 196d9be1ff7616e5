/**
 * The sessions-history page: search and filter the sessions, sort what is
 * left, count sessions per status, and expand at most one row.
 */
module SessionsHistory {
  import opened Options
  import opened Text
  import opened Seqs
  import opened Therapy
  import opened Filters
  import opened Sessions
  import opened SessionsSort

  // -------------------------------------------------------------- filter

  /** The search box looks at the child's name and the session id. */
  predicate SearchMatches(term: string, s: Session) {
    TermMatches(term, s.childName) || TermMatches(term, s.id)
  }

  /** The filter callback: search AND status AND therapy type. */
  predicate Keep(c: Criteria<SessionStatus>, s: Session) {
    && SearchMatches(c.term, s)
    && Admits(c.status, s.status)
    && Admits(c.therapy, s.therapyType)
  }

  /** `sessions.filter(...)`: the kept sessions, in their original order. */
  function FilterSessions(sessions: seq<Session>, c: Criteria<SessionStatus>): (r: seq<Session>)
    ensures forall x :: x in r <==> x in sessions && Keep(c, x)
    ensures forall x {:trigger multiset(r)[x]} :: multiset(r)[x] == if Keep(c, x) then multiset(sessions)[x] else 0
    ensures IsSubseq(r, sessions)
  {
    FilterIsSubseq(sessions, x => Keep(c, x));
    FilterMultiset(sessions, x => Keep(c, x));
    Filter(sessions, x => Keep(c, x))
  }

  /** The rows on screen: the filtered sessions, then sorted. */
  function Shown(sessions: seq<Session>, c: Criteria<SessionStatus>, st: SortState): (r: seq<Session>)
    ensures multiset(r) == multiset(FilterSessions(sessions, c))
    ensures forall x :: x in r <==> x in sessions && Keep(c, x)
    ensures Sorted(st, r)
  {
    var r := Sort(st, FilterSessions(sessions, c));
    assert forall x :: x in r <==> x in multiset(r);
    r
  }

  /** With the criteria cleared, every session is kept, in order, whatever the list. */
  lemma ClearedKeepsAll(sessions: seq<Session>)
    ensures FilterSessions(sessions, Cleared()) == sessions
    ensures |Shown(sessions, Cleared(), InitialSort)| == |sessions|
  {
    forall x | x in sessions
      ensures Keep(Cleared(), x)
    {
      EmptyTermMatches(x.childName);
    }
    FilterKeepsAll(sessions, x => Keep(Cleared(), x));
  }

  // -------------------------------------------------------------- counts

  datatype StatusCounts = StatusCounts(all: nat, completed: nat, pendingReview: nat, cancelled: nat)

  /** The numbers on the status buttons, counted over the whole list. */
  function CountStatuses(sessions: seq<Session>): (r: StatusCounts)
    ensures r.all == |sessions|
    ensures r.completed + r.pendingReview + r.cancelled == r.all
  {
    FilterPartition3(sessions, (x: Session) => x.status == Completed, (x: Session) => x.status == PendingReview,
                     (x: Session) => x.status == Cancelled);
    StatusCounts(
      |sessions|,
      |Filter(sessions, (x: Session) => x.status == Completed)|,
      |Filter(sessions, (x: Session) => x.status == PendingReview)|,
      |Filter(sessions, (x: Session) => x.status == Cancelled)|)
  }

  /** The number on a status button is how many rows show once that status alone is selected. */
  lemma CountMatchesShownRows(sessions: seq<Session>, st: SortState)
    ensures CountStatuses(sessions).completed == |Shown(sessions, Criteria("", Only(Completed), All), st)|
    ensures CountStatuses(sessions).pendingReview == |Shown(sessions, Criteria("", Only(PendingReview), All), st)|
    ensures CountStatuses(sessions).cancelled == |Shown(sessions, Criteria("", Only(Cancelled), All), st)|
  {
    forall x | x in sessions
      ensures SearchMatches("", x)
    {
      EmptyTermMatches(x.childName);
    }
    FilterCongruent(sessions, (x: Session) => x.status == Completed, x => Keep(Criteria("", Only(Completed), All), x));
    FilterCongruent(sessions, (x: Session) => x.status == PendingReview, x => Keep(Criteria("", Only(PendingReview), All), x));
    FilterCongruent(sessions, (x: Session) => x.status == Cancelled, x => Keep(Criteria("", Only(Cancelled), All), x));
  }

  // ------------------------------------------------------ sort and expand

  /** A header click: flip the direction on the active key, else switch key and sort descending. */
  function ToggleSort(st: SortState, f: SortField): (r: SortState)
    ensures r.field == f
    ensures st.field == f ==> r.direction != st.direction
    ensures st.field != f ==> r.direction == Desc
  {
    if st.field == f then SortState(f, if st.direction == Asc then Desc else Asc)
    else SortState(f, Desc)
  }

  /** Two clicks on the active key restore the state; on another key they leave it ascending. */
  lemma ToggleSortTwice(st: SortState, f: SortField)
    ensures ToggleSort(ToggleSort(st, f), f) == (if st.field == f then st else SortState(f, Asc))
  {
  }

  /** The row toggle: collapse the open row, or open this one (closing any other). */
  function ToggleExpand(expanded: Option<string>, id: string): (r: Option<string>)
    ensures r.Some? ==> r.value == id
    ensures r.None? <==> expanded == Some(id)
  {
    if expanded == Some(id) then None else Some(id)
  }

  /** A row shows its details when its id is the expanded one. */
  predicate IsExpanded(expanded: Option<string>, id: string) {
    expanded == Some(id)
  }

  /** A second click restores the previous state exactly when nothing else was open. */
  lemma ToggleExpandTwice(expanded: Option<string>, id: string)
    ensures ToggleExpand(ToggleExpand(expanded, id), id) == expanded <==> expanded.None? || expanded == Some(id)
  {
  }

  /** Among sessions with distinct ids, at most one row is expanded. */
  lemma AtMostOneExpanded(rows: seq<Session>, expanded: Option<string>)
    requires forall k, l :: 0 <= k < l < |rows| ==> rows[k].id != rows[l].id
    ensures forall i, j ::
              (0 <= i < |rows| && 0 <= j < |rows| && IsExpanded(expanded, rows[i].id) && IsExpanded(expanded, rows[j].id))
              ==> i == j
  {
  }

  // ---------------------------------------------------------------- page

  /** The page's state. */
  datatype Page = Page(
    criteria: Criteria<SessionStatus>,
    sort: SortState,
    filterOpen: bool,
    expanded: Option<string>)

  const InitialPage := Page(Cleared(), InitialSort, false, None)

  datatype Event =
    | Search(term: string)
    | PickStatus(status: Choice<SessionStatus>)
    | PickTherapy(therapy: Choice<TherapyType>)
    | ToggleFilterPanel
    | ApplyFilters
    | ClearFiltersClicked
    | ClearAllClicked
    | SortBy(field: SortField)
    | ExpandRow(id: string)

  /**
   * What is on screen: the status and therapy choices, "Clear filters" and
   * "Apply filters" live inside the filter panel; "Clear all filters" only
   * shows while some criterion is set.
   */
  predicate Enabled(p: Page, e: Event) {
    match e
    case PickStatus(_) | PickTherapy(_) | ApplyFilters | ClearFiltersClicked => p.filterOpen
    case ClearAllClicked => ShowClearAll(p.criteria)
    case Search(_) | ToggleFilterPanel | SortBy(_) | ExpandRow(_) => true
  }

  function Step(p: Page, e: Event): Page
    requires Enabled(p, e)
  {
    match e
    case Search(t) => p.(criteria := p.criteria.(term := t))
    case PickStatus(s) => p.(criteria := p.criteria.(status := s))
    case PickTherapy(t) => p.(criteria := p.criteria.(therapy := t))
    case ToggleFilterPanel => p.(filterOpen := !p.filterOpen)
    case ApplyFilters => p.(filterOpen := false)
    case ClearFiltersClicked => p.(criteria := ClearFilters(p.criteria))
    case ClearAllClicked => p.(criteria := ClearFilters(p.criteria))
    case SortBy(f) => p.(sort := ToggleSort(p.sort, f))
    case ExpandRow(id) => p.(expanded := ToggleExpand(p.expanded, id))
  }

  /** Each control changes only its own part of the state. */
  lemma StepFrames(p: Page, e: Event)
    requires Enabled(p, e)
    ensures e.ClearFiltersClicked? || e.ClearAllClicked? ==> Step(p, e).criteria == Cleared()
    ensures !e.SortBy? ==> Step(p, e).sort == p.sort
    ensures !e.ExpandRow? ==> Step(p, e).expanded == p.expanded
    ensures e.SortBy? || e.ExpandRow? || e.ToggleFilterPanel? || e.ApplyFilters? ==> Step(p, e).criteria == p.criteria
  {
  }

  /** "Showing N of M": never more rows than sessions, and all of them on a fresh page. */
  lemma ShownCountBounds(p: Page)
    ensures |Shown(AllSessions, p.criteria, p.sort)| <= |AllSessions|
    ensures |Shown(AllSessions, InitialPage.criteria, InitialPage.sort)| == |AllSessions| == 10
  {
    ClearedKeepsAll(AllSessions);
  }
}
