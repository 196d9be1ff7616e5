/**
 * The session-logging wizard: pick a therapy type, fill in the session
 * form (checked by the browser's `required` validation), add notes, submit.
 *
 * Steps: 1 type picker, 2 session form, 3 notes and summary, 4 confirmation.
 */
module SessionLogger {
  import opened Options
  import opened Therapy

  // ------------------------------------------------------------- the draft

  /** The form fields edited through `handleChange`. */
  datatype Field = AgeGroup | Target | SubTarget | Activity | Engagement | Challenges | Notes

  /** `formData`; the therapy type is `""` (here `None`) until one is picked. */
  datatype Draft = Draft(
    therapyType: Option<TherapyType>,
    ageGroup: string,
    target: string,
    subTarget: string,
    activity: string,
    performance: int,
    engagement: string,
    challenges: string,
    notes: string)

  const EmptyDraft := Draft(None, "", "", "", "", 0, "", "", "")

  function Get(d: Draft, f: Field): string {
    match f
    case AgeGroup => d.ageGroup
    case Target => d.target
    case SubTarget => d.subTarget
    case Activity => d.activity
    case Engagement => d.engagement
    case Challenges => d.challenges
    case Notes => d.notes
  }

  /** `setFormData(prev => ({ ...prev, [name]: value }))`: one field replaced, the rest kept. */
  function Set(d: Draft, f: Field, value: string): (r: Draft)
    ensures Get(r, f) == value
    ensures forall g :: g != f ==> Get(r, g) == Get(d, g)
    ensures r.therapyType == d.therapyType && r.performance == d.performance
  {
    match f
    case AgeGroup => d.(ageGroup := value)
    case Target => d.(target := value)
    case SubTarget => d.(subTarget := value)
    case Activity => d.(activity := value)
    case Engagement => d.(engagement := value)
    case Challenges => d.(challenges := value)
    case Notes => d.(notes := value)
  }

  // ---------------------------------------------------------- the selects

  const AgeGroups: seq<string> := ["3-5", "5-7", "7+"]
  const EngagementLevels: seq<string> := ["low", "moderate", "high"]

  /** The target options rendered for the picked type; none before a type is picked. */
  function TargetOptions(t: Option<TherapyType>): seq<string> {
    match t
    case None => []
    case Some(Speech) => ["articulation", "vocabulary", "comprehension"]
    case Some(Behavior) => ["attention", "communication", "impulse"]
    case Some(Occupational) => ["fine-motor", "gross-motor", "coordination"]
    case Some(Adl) => ["feeding", "dressing", "hygiene"]
    case Some(Sensory) => ["tactile", "auditory", "visual"]
    case Some(Special) => ["reading", "math", "writing"]
  }

  /** Reference table: the therapy type a target value belongs to. */
  function TargetOwner(v: string): Option<TherapyType> {
    if v == "articulation" || v == "vocabulary" || v == "comprehension" then Some(Speech)
    else if v == "attention" || v == "communication" || v == "impulse" then Some(Behavior)
    else if v == "fine-motor" || v == "gross-motor" || v == "coordination" then Some(Occupational)
    else if v == "feeding" || v == "dressing" || v == "hygiene" then Some(Adl)
    else if v == "tactile" || v == "auditory" || v == "visual" then Some(Sensory)
    else if v == "reading" || v == "math" || v == "writing" then Some(Special)
    else None
  }

  /** Each target value is offered for exactly one therapy type. */
  lemma TargetOptionsOwned(t: TherapyType, v: string)
    ensures v in TargetOptions(Some(t)) <==> TargetOwner(v) == Some(t)
  {
  }

  /** Every type offers three distinct targets. */
  lemma TargetOptionsThreeEach(t: TherapyType)
    ensures |TargetOptions(Some(t))| == 3
    ensures forall i, j :: 0 <= i < j < 3 ==> TargetOptions(Some(t))[i] != TargetOptions(Some(t))[j]
  {
  }

  predicate IsSelect(f: Field) {
    f.AgeGroup? || f.Target? || f.Engagement?
  }

  /** The non-placeholder options of a select field. */
  function Choices(f: Field, selected: Option<TherapyType>): seq<string>
    requires IsSelect(f)
  {
    match f
    case AgeGroup => AgeGroups
    case Target => TargetOptions(selected)
    case Engagement => EngagementLevels
  }

  /**
   * What a controlled `<select>` shows: its value when that is one of its
   * options, otherwise the first option, which is the `""` placeholder.
   */
  function Displayed(value: string, options: seq<string>): (r: string)
    ensures r in options || r == ""
    ensures value in options ==> r == value
  {
    if value in options then value else ""
  }

  /** What the browser's `required` check sees for a field. */
  function Visible(d: Draft, selected: Option<TherapyType>, f: Field): string {
    if IsSelect(f) then Displayed(Get(d, f), Choices(f, selected)) else Get(d, f)
  }

  /** The step-2 fields carrying `required`; performance and challenges do not. */
  predicate IsRequired(f: Field) {
    IsSelect(f) || f.SubTarget? || f.Activity?
  }

  /** The step-2 form passes validation: every required field shows a non-empty value. */
  predicate Step2Valid(d: Draft, selected: Option<TherapyType>) {
    && Visible(d, selected, AgeGroup) != ""
    && Visible(d, selected, Target) != ""
    && Visible(d, selected, SubTarget) != ""
    && Visible(d, selected, Activity) != ""
    && Visible(d, selected, Engagement) != ""
  }

  /** Validation, read as "no required field is blank", and as conditions on the stored values. */
  lemma Step2ValidIff(d: Draft, selected: Option<TherapyType>)
    ensures Step2Valid(d, selected) <==> forall f :: IsRequired(f) ==> Visible(d, selected, f) != ""
    ensures Step2Valid(d, selected)
        <==> d.ageGroup in AgeGroups && d.target in TargetOptions(selected) && d.engagement in EngagementLevels
             && d.subTarget != "" && d.activity != ""
  {
    if Step2Valid(d, selected) {
      forall f | IsRequired(f)
        ensures Visible(d, selected, f) != ""
      {
      }
    }
  }

  /** Performance and challenges are not validated: any values pass. */
  lemma UngatedFields(d: Draft, selected: Option<TherapyType>, n: int, challenges: string)
    ensures Step2Valid(d.(performance := n, challenges := challenges), selected) == Step2Valid(d, selected)
  {
  }

  // ------------------------------------------------------------ the wizard

  /** The wizard's state: `step`, `selectedType`, `formData`. */
  datatype Logger = Logger(step: int, selected: Option<TherapyType>, draft: Draft)

  const Initial := Logger(1, None, EmptyDraft)

  datatype Event =
    | PickType(t: TherapyType)
    | Edit(field: Field, value: string)
    | Rate(rating: int)
    | Back
    | Continue
    | Submit

  /** The fields each step renders. */
  predicate OnStep(step: int, f: Field) {
    if step == 2 then !f.Notes? else step == 3 && f.Notes?
  }

  /**
   * The inputs each step offers. A select can only report one of its own
   * options or the placeholder; a text field reports anything.
   */
  predicate Offered(l: Logger, e: Event) {
    match e
    case PickType(_) => l.step == 1
    case Edit(f, v) => OnStep(l.step, f) && (IsSelect(f) ==> v == "" || v in Choices(f, l.selected))
    case Rate(n) => l.step == 2 && 1 <= n <= 5
    case Back => l.step == 2 || l.step == 3
    case Continue => l.step == 2
    case Submit => l.step == 3
  }

  /** One input. `Continue` submits the step-2 form, which the browser blocks unless it validates. */
  function Apply(l: Logger, e: Event): (r: Logger)
    requires Offered(l, e)
    ensures e.Back? ==> r.step == l.step - 1 && r.draft == l.draft && r.selected == l.selected
    ensures e.Continue? ==> (r.step == 3 <==> Step2Valid(l.draft, l.selected)) && r.draft == l.draft
    ensures e.Edit? || e.Rate? ==> r.step == l.step && r.selected == l.selected
    ensures e.Edit? ==> Get(r.draft, e.field) == e.value && r.draft.performance == l.draft.performance
    ensures e.Edit? ==> forall g :: g != e.field ==> Get(r.draft, g) == Get(l.draft, g)
    ensures e.Rate? ==> r.draft.performance == e.rating && forall g :: Get(r.draft, g) == Get(l.draft, g)
    ensures e.PickType? ==> r.step == 2 && r.selected == Some(e.t) && r.draft.therapyType == Some(e.t)
    ensures e.PickType? ==> r.draft.performance == l.draft.performance && forall g :: Get(r.draft, g) == Get(l.draft, g)
    ensures e.Submit? ==> r.step == 4 && r.draft == l.draft
  {
    match e
    case PickType(t) => Logger(2, Some(t), l.draft.(therapyType := Some(t)))
    case Edit(f, v) => l.(draft := Set(l.draft, f, v))
    case Rate(n) => l.(draft := l.draft.(performance := n))
    case Back => l.(step := l.step - 1)
    case Continue => if Step2Valid(l.draft, l.selected) then l.(step := l.step + 1) else l
    case Submit => l.(step := 4)
  }

  /** A stored select value is the placeholder or one of the values that select ever offers. */
  predicate SelectValuesKnown(d: Draft) {
    && (d.ageGroup == "" || d.ageGroup in AgeGroups)
    && (d.engagement == "" || d.engagement in EngagementLevels)
    && (d.target == "" || TargetOwner(d.target).Some?)
  }

  /** What holds in every reachable state. */
  predicate Inv(l: Logger) {
    && 1 <= l.step <= 4
    && 0 <= l.draft.performance <= 5
    && l.selected == l.draft.therapyType
    && (l.step >= 2 ==> l.selected.Some?)
    && (l.step >= 3 ==> Step2Valid(l.draft, l.selected))
    && SelectValuesKnown(l.draft)
  }

  lemma InitialInv()
    ensures Inv(Initial)
  {
  }

  /** The confirmation step offers no input: the wizard ends there. */
  lemma ConfirmationIsFinal(l: Logger, e: Event)
    requires l.step == 4
    ensures !Offered(l, e)
  {
  }

  lemma ApplyKeepsInv(l: Logger, e: Event)
    requires Inv(l) && Offered(l, e)
    ensures Inv(Apply(l, e))
  {
    if e.Edit? && e.field.Target? && e.value != "" {
      TargetOptionsOwned(l.selected.value, e.value);
    }
  }

  /** Replays a sequence of inputs; `None` when some input is not on screen at that point. */
  function Run(l: Logger, es: seq<Event>): Option<Logger>
    decreases |es|
  {
    if |es| == 0 then Some(l)
    else if Offered(l, es[0]) then Run(Apply(l, es[0]), es[1..])
    else None
  }

  /** Every state reached from the initial one satisfies the invariant. */
  lemma {:induction false} RunKeepsInv(l: Logger, es: seq<Event>)
    requires Inv(l)
    ensures Run(l, es).Some? ==> Inv(Run(l, es).value)
    decreases |es|
  {
    if |es| > 0 && Offered(l, es[0]) {
      ApplyKeepsInv(l, es[0]);
      RunKeepsInv(Apply(l, es[0]), es[1..]);
    }
  }

  /** The confirmation is only reached through a form that validated, with a rating in 0..5. */
  lemma ConfirmedOnlyAfterValidForm(es: seq<Event>)
    requires Run(Initial, es).Some? && Run(Initial, es).value.step == 4
    ensures var m := Run(Initial, es).value;
            m.selected.Some? && Step2Valid(m.draft, m.selected) && 0 <= m.draft.performance <= 5
  {
    InitialInv();
    RunKeepsInv(Initial, es);
  }

  /**
   * A target picked for one type no longer validates after going back and
   * picking another: the select shows the placeholder while the draft keeps
   * the stale value, and Continue stays on step 2.
   */
  lemma StaleTargetBlocksContinue(l: Logger, t: TherapyType, u: TherapyType)
    requires Inv(l) && l.step == 2 && l.selected == Some(t) && t != u
    requires l.draft.target in TargetOptions(Some(t))
    ensures var m := Apply(Apply(Apply(l, Back), PickType(u)), Continue);
            m.step == 2 && m.draft.target == l.draft.target
            && Visible(m.draft, m.selected, Target) == ""
  {
    TargetOptionsOwned(t, l.draft.target);
    TargetOptionsOwned(u, l.draft.target);
  }

  /** Going back and forth keeps everything typed so far. */
  lemma BackKeepsDraft(l: Logger)
    requires Inv(l) && l.step == 3
    ensures var m := Apply(Apply(l, Back), Continue);
            m == l
  {
  }
}
