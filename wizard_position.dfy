/** The wizard as a step sees it through `useWizard`: a position in a list of
    steps, and the callbacks a click handler may invoke. The wizard library
    itself is not part of this model; `nextStep` and `previousStep` are given
    the preconditions the handlers' guards are meant to establish. */
module WizardPosition {

  /** The active step `index` in a wizard of `count` steps. */
  datatype Position = Position(index: nat, count: nat) {
    predicate Valid() { index < count }
    predicate IsFirstStep() { index == 0 }
    predicate IsLastStep() { index + 1 == count }
  }

  /** Which call-to-action button an `onClick` override belongs to. */
  datatype Slot = PrimarySlot | SecondarySlot

  /** One callback invoked by a click or input handler. */
  datatype Effect =
    | Advance                                       // nextStep()
    | Retreat                                       // previousStep()
    | InvokeOnClick(slot: Slot)                     // primaryCTA.onClick() or secondaryCTA.onClick()
    | InputChanged(name: string, value: string)     // onInputChange(name, value)
    | PlanSelected(planId: string)                  // onSelectPlan(planId)
    | OpenChanged(open: bool)                       // onOpenChange(open)
  {
    predicate Navigates() { Advance? || Retreat? }
  }

  /** The precondition the model gives to each wizard call at `pos`. */
  predicate Enabled(pos: Position, e: Effect) {
    match e
    case Advance => !pos.IsLastStep()
    case Retreat => !pos.IsFirstStep()
    case _ => true
  }

  /** The wizard's position after the callback `e`. */
  function Apply(pos: Position, e: Effect): (r: Position)
    requires pos.Valid() && Enabled(pos, e)
    ensures r.Valid() && r.count == pos.count
    ensures e.Advance? ==> r.index == pos.index + 1
    ensures e.Retreat? ==> r.index + 1 == pos.index
    ensures !e.Navigates() ==> r == pos
  {
    match e
    case Advance => pos.(index := pos.index + 1)
    case Retreat => pos.(index := pos.index - 1)
    case _ => pos
  }

  /** Every callback in `es`, applied in order from `pos`, meets its precondition. */
  predicate RunEnabled(pos: Position, es: seq<Effect>)
    requires pos.Valid()
    decreases |es|
  {
    |es| == 0 || (Enabled(pos, es[0]) && RunEnabled(Apply(pos, es[0]), es[1..]))
  }

  /** The wizard's position after the callbacks `es`, in order. */
  function Run(pos: Position, es: seq<Effect>): (r: Position)
    requires pos.Valid() && RunEnabled(pos, es)
    ensures r.Valid() && r.count == pos.count
    decreases |es|
  {
    if |es| == 0 then pos else Run(Apply(pos, es[0]), es[1..])
  }

  /** Callbacks that do not navigate leave the wizard where it is. */
  lemma {:induction false} RunWithoutNavigation(pos: Position, es: seq<Effect>)
    requires pos.Valid()
    requires forall k :: 0 <= k < |es| ==> !es[k].Navigates()
    ensures RunEnabled(pos, es) && Run(pos, es) == pos
    decreases |es|
  {
    if |es| > 0 {
      assert !es[0].Navigates();
      RunWithoutNavigation(pos, es[1..]);
    }
  }
}
