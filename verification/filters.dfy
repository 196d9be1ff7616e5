/**
 * The filter criteria shared by the children list and the sessions history:
 * a search term, a status choice and a therapy choice, where the choice
 * "all" admits everything.
 */
module Filters {
  import opened Text
  import opened Therapy

  /** A filter selection: the wildcard "all", or one value. */
  datatype Choice<T> = All | Only(value: T)

  /** `filter === "all" || x === filter`. */
  predicate Admits<T(==)>(c: Choice<T>, x: T) {
    c.All? || c.value == x
  }

  /** Case-insensitive substring search: `text.toLowerCase().includes(term.toLowerCase())`. */
  predicate TermMatches(term: string, text: string) {
    Contains(Lower(text), Lower(term))
  }

  /** The three filter inputs of a list view; `S` is the view's status type. */
  datatype Criteria<S> = Criteria(term: string, status: Choice<S>, therapy: Choice<TherapyType>)

  /** The initial criteria, and what "Clear filters" restores. */
  function Cleared<S>(): Criteria<S> {
    Criteria("", All, All)
  }

  /** "Clear filters" / "Clear all filters": status and therapy to "all", term to "". */
  function ClearFilters<S>(c: Criteria<S>): (r: Criteria<S>)
    ensures r.term == "" && r.status.All? && r.therapy.All?
  {
    Cleared()
  }

  /** The guard on "Clear all filters": a status or therapy choice, or a non-empty term. */
  predicate ShowClearAll<S>(c: Criteria<S>) {
    !c.status.All? || !c.therapy.All? || c.term != ""
  }

  /** The button shows exactly when some input differs from its cleared value, and clearing hides it. */
  lemma ShowClearAllIffNotCleared<S>(c: Criteria<S>)
    ensures ShowClearAll(c) <==> c != Cleared<S>()
    ensures !ShowClearAll(ClearFilters(c))
  {
  }

  /** The wildcard admits every value; a single value admits only itself. */
  lemma AdmitsIff<T>(c: Choice<T>, x: T)
    ensures Admits(All, x)
    ensures Admits(Only(x), x)
    ensures forall y :: y != x ==> !Admits(Only(y), x)
  {
  }

  /** The empty term matches every text. */
  lemma EmptyTermMatches(text: string)
    ensures TermMatches("", text)
  {
    ContainsEmpty(Lower(text));
  }

  /** Matching ignores ASCII case on both sides. */
  lemma TermMatchesIgnoresCase(term: string, text: string)
    ensures TermMatches(term, text) == TermMatches(Lower(term), Lower(text))
  {
    LowerIdempotent(term);
    LowerIdempotent(text);
  }
}
