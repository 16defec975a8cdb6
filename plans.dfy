/** The plan record shared by the pricing step and the paywall, and the
    per-plan rules of the card each of them renders. */
module Plans {
  import opened JsValues

  /** A plan. An absent `highlighted` is `false`. */
  datatype Plan = Plan(
    id: string,
    name: string,
    price: string,
    description: string,
    features: seq<string>,
    highlighted: bool,
    buttonText: Option<string>)

  datatype ButtonVariant = DefaultVariant | OutlineVariant

  /** What one plan card shows: `perMonth` is the "/month" suffix and
      `badge` the "Most Popular" badge; `id` is what its button selects. */
  datatype PlanCard = PlanCard(
    id: string,
    name: string,
    description: string,
    price: string,
    perMonth: bool,
    badge: bool,
    features: seq<string>,
    variant: ButtonVariant,
    buttonText: string)

  /** The card of one plan. */
  function Card(plan: Plan): (c: PlanCard)
    ensures c.id == plan.id && c.price == plan.price && c.features == plan.features
    ensures c.name == plan.name && c.description == plan.description
    ensures c.perMonth <==> plan.price != "Custom"
    ensures c.badge <==> plan.highlighted
    ensures c.variant == DefaultVariant <==> plan.highlighted
    ensures Truthy(plan.buttonText) ==> c.buttonText == plan.buttonText.value
    ensures !Truthy(plan.buttonText) ==> c.buttonText == "Select Plan"
  {
    PlanCard(
      plan.id, plan.name, plan.description, plan.price,
      plan.price != "Custom",
      plan.highlighted,
      plan.features,
      if plan.highlighted then DefaultVariant else OutlineVariant,
      OrElse(plan.buttonText, "Select Plan"))
  }

  /** The cards of all plans, one per plan, in order. */
  function Cards(plans: seq<Plan>): (cs: seq<PlanCard>)
    ensures |cs| == |plans|
    ensures forall k :: 0 <= k < |plans| ==> cs[k] == Card(plans[k])
  {
    if |plans| == 0 then [] else [Card(plans[0])] + Cards(plans[1..])
  }

  /** No two plans share an id. */
  predicate DistinctIds(plans: seq<Plan>) {
    forall i, j :: 0 <= i < j < |plans| ==> plans[i].id != plans[j].id
  }

  /** How many plans are highlighted. */
  function HighlightedCount(plans: seq<Plan>): nat {
    if |plans| == 0 then 0
    else (if plans[0].highlighted then 1 else 0) + HighlightedCount(plans[1..])
  }
}
