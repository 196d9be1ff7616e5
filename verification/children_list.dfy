/**
 * The "My Children" page: search by name, filter by status and by one
 * therapy type the child receives, count children per status.
 */
module ChildrenList {
  import opened Seqs
  import opened Therapy
  import opened Filters

  /** The eight children listed on the page. */
  const AllChildren: seq<ChildProfile> := [
    ChildProfile("1", "Alex Johnson", 6, [Speech, Behavior], Good, "Today", 75),
    ChildProfile("2", "Mia Rodriguez", 4, [Occupational, Sensory], NeedsAttention, "Yesterday", 45),
    ChildProfile("3", "Noah Williams", 7, [Speech, Special], Stagnation, "3 days ago", 30),
    ChildProfile("4", "Emily Chen", 5, [Behavior, Adl], Good, "2 days ago", 80),
    ChildProfile("5", "Liam Wilson", 8, [Special, Speech], Good, "1 week ago", 65),
    ChildProfile("6", "Sophia Martinez", 4, [Occupational, Sensory, Adl], NeedsAttention, "4 days ago", 40),
    ChildProfile("7", "Jackson Brown", 6, [Behavior, Special], Good, "3 days ago", 70),
    ChildProfile("8", "Olivia Lee", 5, [Speech, Sensory], Stagnation, "2 weeks ago", 25)
  ]

  /** A child receives a therapy choice when it is "all" or among the child's types. */
  predicate ReceivesTherapy(c: Choice<TherapyType>, child: ChildProfile) {
    c.All? || c.value in child.therapyTypes
  }

  /** The filter callback: name search AND status AND therapy membership. */
  predicate Keep(c: Criteria<ChildStatus>, child: ChildProfile) {
    && TermMatches(c.term, child.name)
    && Admits(c.status, child.status)
    && ReceivesTherapy(c.therapy, child)
  }

  /** `allChildren.filter(...)`: the kept children, in their original order. */
  function FilterChildren(children: seq<ChildProfile>, c: Criteria<ChildStatus>): (r: seq<ChildProfile>)
    ensures forall x :: x in r <==> x in children && Keep(c, x)
    ensures forall x {:trigger multiset(r)[x]} :: multiset(r)[x] == if Keep(c, x) then multiset(children)[x] else 0
    ensures IsSubseq(r, children)
  {
    FilterIsSubseq(children, x => Keep(c, x));
    FilterMultiset(children, x => Keep(c, x));
    Filter(children, x => Keep(c, x))
  }

  /** With the criteria cleared, every child is kept, in order. */
  lemma ClearedKeepsAll(children: seq<ChildProfile>)
    ensures FilterChildren(children, Cleared()) == children
  {
    forall x | x in children
      ensures Keep(Cleared(), x)
    {
      EmptyTermMatches(x.name);
    }
    FilterKeepsAll(children, x => Keep(Cleared(), x));
  }

  /** The clear buttons make the filter the identity, and the page then shows all eight children. */
  lemma ClearShowsEveryone(c: Criteria<ChildStatus>)
    ensures FilterChildren(AllChildren, ClearFilters(c)) == AllChildren
    ensures |AllChildren| == 8
  {
    ClearedKeepsAll(AllChildren);
  }

  /** Picking a therapy narrows the list to the children who receive it, keeping their order. */
  lemma TherapyNarrows(children: seq<ChildProfile>, c: Criteria<ChildStatus>, t: TherapyType)
    ensures forall x :: x in FilterChildren(children, c.(therapy := Only(t)))
                    <==> x in FilterChildren(children, c.(therapy := All)) && t in x.therapyTypes
  {
  }

  // -------------------------------------------------------------- counts

  datatype StatusCounts = StatusCounts(all: nat, good: nat, needsAttention: nat, stagnation: nat)

  /** The numbers on the status buttons, counted over the whole list. */
  function CountStatuses(children: seq<ChildProfile>): (r: StatusCounts)
    ensures r.all == |children|
    ensures r.good + r.needsAttention + r.stagnation == r.all
  {
    FilterPartition3(children, (x: ChildProfile) => x.status == Good,
                     (x: ChildProfile) => x.status == NeedsAttention, (x: ChildProfile) => x.status == Stagnation);
    StatusCounts(
      |children|,
      |Filter(children, (x: ChildProfile) => x.status == Good)|,
      |Filter(children, (x: ChildProfile) => x.status == NeedsAttention)|,
      |Filter(children, (x: ChildProfile) => x.status == Stagnation)|)
  }

  /** The number on a status button is how many children show once that status alone is selected. */
  lemma CountMatchesShownChildren(children: seq<ChildProfile>)
    ensures CountStatuses(children).good == |FilterChildren(children, Criteria("", Only(Good), All))|
    ensures CountStatuses(children).needsAttention
         == |FilterChildren(children, Criteria("", Only(NeedsAttention), All))|
    ensures CountStatuses(children).stagnation == |FilterChildren(children, Criteria("", Only(Stagnation), All))|
  {
    forall x | x in children
      ensures TermMatches("", x.name)
    {
      EmptyTermMatches(x.name);
    }
    FilterCongruent(children, (x: ChildProfile) => x.status == Good,
                    x => Keep(Criteria("", Only(Good), All), x));
    FilterCongruent(children, (x: ChildProfile) => x.status == NeedsAttention,
                    x => Keep(Criteria("", Only(NeedsAttention), All), x));
    FilterCongruent(children, (x: ChildProfile) => x.status == Stagnation,
                    x => Keep(Criteria("", Only(Stagnation), All), x));
  }

  // ---------------------------------------------------------------- page

  /** The page's state: the criteria and whether the filter panel is open. */
  datatype Page = Page(criteria: Criteria<ChildStatus>, filterOpen: bool)

  const InitialPage := Page(Cleared(), false)

  datatype Event =
    | Search(term: string)
    | PickStatus(status: Choice<ChildStatus>)
    | PickTherapy(therapy: Choice<TherapyType>)
    | ToggleFilterPanel
    | ApplyFilters
    | ClearFiltersClicked
    | ClearAllClicked

  /**
   * What is on screen: the status and therapy choices, "Clear filters" and
   * "Apply filters" live inside the filter panel; "Clear all filters" only
   * shows while some criterion is set.
   */
  predicate Enabled(p: Page, e: Event) {
    match e
    case PickStatus(_) | PickTherapy(_) | ApplyFilters | ClearFiltersClicked => p.filterOpen
    case ClearAllClicked => ShowClearAll(p.criteria)
    case Search(_) | ToggleFilterPanel => true
  }

  function Step(p: Page, e: Event): (r: Page)
    requires Enabled(p, e)
    ensures e.ClearFiltersClicked? || e.ClearAllClicked? ==> r.criteria == Cleared() && !ShowClearAll(r.criteria)
    ensures e.ToggleFilterPanel? ==> r.filterOpen != p.filterOpen && r.criteria == p.criteria
    ensures e.ApplyFilters? ==> !r.filterOpen && r.criteria == p.criteria
    ensures e.Search? ==> r.criteria == p.criteria.(term := e.term) && r.filterOpen == p.filterOpen
    ensures e.PickStatus? ==> r.criteria == p.criteria.(status := e.status) && r.filterOpen == p.filterOpen
    ensures e.PickTherapy? ==> r.criteria == p.criteria.(therapy := e.therapy) && r.filterOpen == p.filterOpen
  {
    match e
    case Search(t) => p.(criteria := p.criteria.(term := t))
    case PickStatus(s) => p.(criteria := p.criteria.(status := s))
    case PickTherapy(t) => p.(criteria := p.criteria.(therapy := t))
    case ToggleFilterPanel => p.(filterOpen := !p.filterOpen)
    case ApplyFilters => p.(filterOpen := false)
    case ClearFiltersClicked => p.(criteria := ClearFilters(p.criteria))
    case ClearAllClicked => p.(criteria := ClearFilters(p.criteria))
  }

  /** "Showing N of 8": never more than the whole list. */
  lemma ShownCountBounds(p: Page)
    ensures |FilterChildren(AllChildren, p.criteria)| <= |AllChildren|
    ensures |FilterChildren(AllChildren, InitialPage.criteria)| == |AllChildren|
  {
    ClearedKeepsAll(AllChildren);
  }
}
