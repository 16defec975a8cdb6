/** The pricing step of the onboarding wizard: a card per plan whose button
    reports the plan's id to the host, and a Back button. It has no state. */
module PricingStep {
  import opened JsValues
  import opened WizardPosition
  import opened Plans

  /** The props of the pricing step; the callback `onSelectPlan` is required. */
  datatype PricingProps = PricingProps(
    title: Option<string>,
    description: Option<string>,
    plans: seq<Plan>)

  const DefaultTitle := "Choose Your Plan"
  const DefaultDescription := "Select the plan that works best for you"

  /** The heading: `title`, or the default when the prop is absent. */
  function Title(props: PricingProps): (t: string)
    ensures props.title.None? ==> t == DefaultTitle
    ensures props.title.Some? ==> t == props.title.value
  {
    if props.title.Some? then props.title.value else DefaultTitle
  }

  /** The description paragraph, if any: the default when the prop is
      absent, nothing when it is the empty string. */
  function Description(props: PricingProps): (d: Option<string>)
    ensures props.description.None? ==> d == Some(DefaultDescription)
    ensures props.description == Some("") ==> d.None?
    ensures Truthy(props.description) ==> d == props.description
  {
    var shown := if props.description.Some? then props.description.value else DefaultDescription;
    if shown != "" then Some(shown) else None
  }

  /** A click on a plan's button: `onSelectPlan(plan.id)`, once, and no navigation. */
  function SelectPlanEffects(plan: Plan): (es: seq<Effect>)
    ensures |es| == 1 && es[0] == PlanSelected(plan.id)
    ensures forall e :: e in es ==> !e.Navigates()
  {
    [PlanSelected(plan.id)]
  }

  /** The Back button is rendered only off the first step. */
  predicate BackShown(pos: Position)
    ensures BackShown(pos) <==> pos.index != 0
    ensures BackShown(pos) && pos.Valid() ==> Enabled(pos, Retreat)
  {
    !pos.IsFirstStep()
  }

  /** A click on Back: `previousStep`, which takes the wizard one step back. */
  function BackEffects(pos: Position): (es: seq<Effect>)
    requires pos.Valid() && BackShown(pos)
    ensures es == [Retreat]
    ensures RunEnabled(pos, es) && Run(pos, es).index + 1 == pos.index
  {
    [Retreat]
  }

  /** What the pricing step shows. */
  datatype PricingView = PricingView(
    title: string,
    description: Option<string>,
    cards: seq<PlanCard>,
    back: bool)

  function Render(props: PricingProps, pos: Position): (v: PricingView)
    ensures v.title == Title(props) && v.description == Description(props)
    ensures v.back <==> !pos.IsFirstStep()
    ensures |v.cards| == |props.plans|
    ensures forall k :: 0 <= k < |props.plans| ==> v.cards[k] == Card(props.plans[k])
  {
    PricingView(Title(props), Description(props), Cards(props.plans), BackShown(pos))
  }

  /** The button of the k-th card selects the k-th plan, and nothing else
      happens; Back is shown exactly off the first step. */
  lemma CardButtonsSelectTheirPlan(props: PricingProps, pos: Position, k: nat)
    requires k < |props.plans|
    ensures var v := Render(props, pos);
      && |v.cards| == |props.plans|
      && SelectPlanEffects(props.plans[k]) == [PlanSelected(v.cards[k].id)]
      && (v.back <==> pos.index != 0)
  {
  }
}
