/** The fake paywall: a dialog of plan cards. Choosing a plan reports its id
    to the host when the host listens for it, and otherwise closes the
    dialog. It has no state of its own; `open` belongs to the host. */
module Paywall {
  import opened JsValues
  import opened WizardPosition
  import opened Plans

  /** The plans shown when the host gives none. */
  const DefaultPlans: seq<Plan> := [
    Plan("starter", "Starter", "$29", "Perfect for small teams",
         ["Up to 1,000 customers", "Basic churn analytics", "Email support", "1 team member"],
         false, Some("Start Free Trial")),
    Plan("professional", "Professional", "$99", "For growing businesses",
         ["Up to 10,000 customers", "Advanced analytics & insights", "Priority support",
          "5 team members", "Custom integrations", "API access"],
         true, Some("Start Free Trial")),
    Plan("enterprise", "Enterprise", "Custom", "Advanced features & support",
         ["Unlimited customers", "AI-powered predictions", "24/7 dedicated support",
          "Unlimited team members", "White-label options", "Custom SLA"],
         false, Some("Contact Sales"))
  ]

  const DefaultTitle := "Unlock Full Access"
  const DefaultDescription := "Choose the plan that works best for you"

  /** The props of the paywall; `onOpenChange` is required, `onSelectPlan`
      is optional and represented by its presence. */
  datatype PaywallProps = PaywallProps(
    open: bool,
    title: Option<string>,
    description: Option<string>,
    plans: Option<seq<Plan>>,
    hasOnSelectPlan: bool)

  /** The plans shown: the host's, or the default ones when it gives none. */
  function ShownPlans(props: PaywallProps): (ps: seq<Plan>)
    ensures props.plans.None? ==> ps == DefaultPlans
    ensures props.plans.Some? ==> ps == props.plans.value
  {
    if props.plans.Some? then props.plans.value else DefaultPlans
  }

  /** A click on a plan's button: `onSelectPlan(planId)` when the host gave
      one, otherwise `onOpenChange(false)`; exactly one of the two, once. */
  function SelectPlanEffects(hasOnSelectPlan: bool, planId: string): (es: seq<Effect>)
    ensures |es| == 1
    ensures PlanSelected(planId) in es <==> hasOnSelectPlan
    ensures OpenChanged(false) in es <==> !hasOnSelectPlan
    ensures forall e :: e in es ==> !e.Navigates()
  {
    if hasOnSelectPlan then [PlanSelected(planId)] else [OpenChanged(false)]
  }

  /** What the dialog shows while open. Title and description always
      appear, with their defaults when the props are absent. */
  datatype PaywallView = PaywallView(
    open: bool,
    title: string,
    description: string,
    cards: seq<PlanCard>)

  function Render(props: PaywallProps): (v: PaywallView)
    ensures v.open == props.open
    ensures props.title.None? ==> v.title == DefaultTitle
    ensures props.title.Some? ==> v.title == props.title.value
    ensures props.description.None? ==> v.description == DefaultDescription
    ensures props.description.Some? ==> v.description == props.description.value
    ensures |v.cards| == |ShownPlans(props)|
    ensures forall k :: 0 <= k < |v.cards| ==> v.cards[k] == Card(ShownPlans(props)[k])
  {
    PaywallView(
      props.open,
      if props.title.Some? then props.title.value else DefaultTitle,
      if props.description.Some? then props.description.value else DefaultDescription,
      Cards(ShownPlans(props)))
  }

  /** The default plans are starter, professional and enterprise, with
      distinct ids; exactly one is highlighted, the professional plan. */
  lemma DefaultPlansFacts()
    ensures |DefaultPlans| == 3
    ensures DefaultPlans[0].id == "starter" && DefaultPlans[1].id == "professional" && DefaultPlans[2].id == "enterprise"
    ensures DistinctIds(DefaultPlans)
    ensures HighlightedCount(DefaultPlans) == 1
    ensures forall k :: 0 <= k < |DefaultPlans| ==> (DefaultPlans[k].highlighted <==> DefaultPlans[k].id == "professional")
  {
    assert HighlightedCount(DefaultPlans[2..]) == 0;
  }

  /** The default cards: "/month" on the two priced plans only, the badge
      and the filled button on the professional plan only. */
  lemma DefaultCards()
    ensures var cs := Cards(DefaultPlans);
      && |cs| == 3
      && cs[0].perMonth && cs[1].perMonth && !cs[2].perMonth
      && !cs[0].badge && cs[1].badge && !cs[2].badge
      && cs[0].variant == OutlineVariant && cs[1].variant == DefaultVariant && cs[2].variant == OutlineVariant
      && cs[0].buttonText == "Start Free Trial" && cs[2].buttonText == "Contact Sales"
  {
  }
}
