/**
 * The dashboard: the "needs attention" alert list and the session-logger
 * modal it opens for a child.
 */
module Dashboard {
  import opened Options
  import opened Seqs
  import opened Therapy
  import SessionLogger

  /** The four children on the dashboard. */
  const Children: seq<ChildProfile> := [
    ChildProfile("1", "Alex Johnson", 6, [Speech, Behavior], Good, "Today", 75),
    ChildProfile("2", "Mia Rodriguez", 4, [Occupational, Sensory], NeedsAttention, "Yesterday", 45),
    ChildProfile("3", "Noah Williams", 7, [Speech, Special], Stagnation, "3 days ago", 30),
    ChildProfile("4", "Emily Chen", 5, [Behavior, Adl], Good, "2 days ago", 80)
  ]

  // -------------------------------------------------------------- alerts

  /** The filter callback: status "needs-attention" or "stagnation". */
  predicate RaisesAlert(child: ChildProfile) {
    child.status == NeedsAttention || child.status == Stagnation
  }

  /** `needsAttentionChildren`: the alerting children, in list order. */
  function NeedsAttentionChildren(children: seq<ChildProfile>): (r: seq<ChildProfile>)
    ensures forall x :: x in r <==> x in children && x.status != Good
    ensures forall x {:trigger multiset(r)[x]} :: multiset(r)[x] == if x.status != Good then multiset(children)[x] else 0
    ensures IsSubseq(r, children)
  {
    FilterIsSubseq(children, RaisesAlert);
    FilterMultiset(children, RaisesAlert);
    Filter(children, RaisesAlert)
  }

  /** The alerts panel renders only with something to show. */
  predicate AlertPanelShown(children: seq<ChildProfile>) {
    |NeedsAttentionChildren(children)| > 0
  }

  lemma AlertPanelShownIff(children: seq<ChildProfile>)
    ensures AlertPanelShown(children) <==> exists x :: x in children && x.status != Good
  {
    var r := NeedsAttentionChildren(children);
    if exists x :: x in children && x.status != Good {
      var x :| x in children && x.status != Good;
      assert x in r;
    }
    if |r| > 0 {
      assert r[0] in r;
    }
  }

  /** Which of four children raise an alert, spelled out per child. */
  lemma NeedsAttentionOfFour(a: ChildProfile, b: ChildProfile, c: ChildProfile, d: ChildProfile)
    ensures NeedsAttentionChildren([a, b, c, d])
         == (if RaisesAlert(a) then [a] else []) + ((if RaisesAlert(b) then [b] else [])
          + ((if RaisesAlert(c) then [c] else []) + (if RaisesAlert(d) then [d] else [])))
  {
    FilterOfFour(a, b, c, d, RaisesAlert);
  }

  /** On the dashboard's own list the alerts are Mia (needs attention) and Noah (stagnation), in that order. */
  lemma DashboardAlerts()
    ensures NeedsAttentionChildren(Children) == [Children[1], Children[2]]
    ensures AlertPanelShown(Children)
  {
    var a, b, c, d := Children[0], Children[1], Children[2], Children[3];
    assert !RaisesAlert(a) && RaisesAlert(b) && RaisesAlert(c) && !RaisesAlert(d);
    assert Children == [a, b, c, d];
    NeedsAttentionOfFour(a, b, c, d);
  }

  /** The caption under an alert. */
  function AlertMessage(status: ChildStatus): (r: string)
    requires status != Good
    ensures r == "Needs additional focus" <==> status == NeedsAttention
  {
    if status == NeedsAttention then "Needs additional focus" else "Showing signs of stagnation"
  }

  // --------------------------------------------------------------- modal

  /**
   * The page state. `logger` is the wizard's state while it is mounted and
   * the initial one otherwise; `closeTimers` counts the two-second close
   * timers started by submissions that have not fired yet.
   */
  datatype Screen = Screen(
    loggerOpen: bool,
    selected: Option<ChildProfile>,
    logger: SessionLogger.Logger,
    closeTimers: nat)

  const InitialScreen := Screen(false, None, SessionLogger.Initial, 0)

  /** `sessionLoggerOpen && selectedChild`. */
  predicate LoggerShown(s: Screen) {
    s.loggerOpen && s.selected.Some?
  }

  /** `openSessionLogger`: a mounted wizard keeps its state, a new one starts fresh. */
  function Open(s: Screen, child: ChildProfile): (r: Screen)
    ensures LoggerShown(r) && r.selected == Some(child)
    ensures LoggerShown(s) ==> r.logger == s.logger
    ensures !LoggerShown(s) ==> r.logger == SessionLogger.Initial
    ensures r.closeTimers == s.closeTimers
  {
    Screen(true, Some(child), if LoggerShown(s) then s.logger else SessionLogger.Initial, s.closeTimers)
  }

  /** `closeSessionLogger`: the wizard unmounts and its state is gone. */
  function Close(s: Screen): (r: Screen)
    ensures !LoggerShown(r) && !r.loggerOpen && r.selected.None?
    ensures r.logger == SessionLogger.Initial && r.closeTimers == s.closeTimers
  {
    Screen(false, None, SessionLogger.Initial, s.closeTimers)
  }

  /** Opening and then closing leaves what closing alone leaves. */
  lemma CloseUndoesOpen(s: Screen, child: ChildProfile)
    ensures Close(Open(s, child)) == Close(s)
  {
  }

  datatype Event =
    | OpenFor(child: ChildProfile)
    | LoggerInput(e: SessionLogger.Event)
    | CloseClicked
    | CloseTimerFired

  predicate Enabled(s: Screen, e: Event) {
    match e
    case OpenFor(_) => true
    case LoggerInput(le) => LoggerShown(s) && SessionLogger.Offered(s.logger, le)
    case CloseClicked => LoggerShown(s)
    case CloseTimerFired => s.closeTimers > 0
  }

  /** One input; submitting starts a close timer, which is never cancelled. */
  function Step(s: Screen, e: Event): (r: Screen)
    requires Enabled(s, e)
    ensures e.LoggerInput? ==> r.closeTimers == s.closeTimers + (if e.e.Submit? then 1 else 0)
    ensures e.CloseTimerFired? ==> r.closeTimers == s.closeTimers - 1 && !LoggerShown(r)
  {
    match e
    case OpenFor(child) => Open(s, child)
    case LoggerInput(le) =>
      s.(logger := SessionLogger.Apply(s.logger, le),
         closeTimers := s.closeTimers + if le.Submit? then 1 else 0)
    case CloseClicked => Close(s)
    case CloseTimerFired => Close(s).(closeTimers := s.closeTimers - 1)
  }

  /** The wizard's invariant holds throughout, and a hidden wizard is in its initial state. */
  predicate Inv(s: Screen) {
    && SessionLogger.Inv(s.logger)
    && (!LoggerShown(s) ==> s.logger == SessionLogger.Initial)
  }

  lemma StepKeepsInv(s: Screen, e: Event)
    requires Inv(s) && Enabled(s, e)
    ensures Inv(Step(s, e))
  {
    SessionLogger.InitialInv();
    if e.LoggerInput? {
      SessionLogger.ApplyKeepsInv(s.logger, e.e);
    }
  }

  /**
   * A close timer outlives the wizard that started it: closed by hand and
   * reopened for another child, the new wizard is closed when the old
   * timer fires.
   */
  lemma StaleTimerClosesReopenedLogger(s: Screen, child: ChildProfile)
    requires Inv(s) && LoggerShown(s) && s.logger.step == 3
    ensures var submitted := Step(s, LoggerInput(SessionLogger.Submit));
            var reopened := Step(Step(submitted, CloseClicked), OpenFor(child));
            LoggerShown(reopened) && reopened.logger == SessionLogger.Initial
            && !LoggerShown(Step(reopened, CloseTimerFired))
  {
  }
}
