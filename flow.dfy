/** A wizard of onboarding and pricing pages driven by clicks. Only the
    active page is rendered, so a click is on one of its affordances; one
    that the page does not render cannot be clicked and changes nothing. */
module Flow {
  import opened JsValues
  import opened WizardPosition
  import Step = OnboardingStep
  import Pricing = PricingStep

  /** A child of the wizard. */
  datatype Page = StepPage(props: Step.StepProps) | PricingPage(pricing: Pricing.PricingProps)

  /** A user action on the active page: a button, or typing `value` into
      the k-th input. */
  datatype Click =
    | PrimaryButton
    | SecondaryButton
    | SkipButton
    | BackButton
    | PlanButton(plan: nat)
    | Input(field: nat, value: string)

  /** The callbacks a click on `page` at `pos` invokes, or `None` when the
      page does not render that affordance there. Every navigation it asks
      for is one the wizard can make. */
  function ClickEffects(page: Page, pos: Position, click: Click): (r: Option<seq<Effect>>)
    requires pos.Valid()
    ensures r.Some? ==> RunEnabled(pos, r.value)
  {
    match page
    case StepPage(p) =>
      (match click
       case PrimaryButton =>
         if p.primaryCta.Some? then Some(Step.PrimaryEffects(p.primaryCta, pos)) else None
       case SecondaryButton =>
         if p.secondaryCta.Some? then Some(Step.SecondaryEffects(p.secondaryCta, pos)) else None
       case SkipButton =>
         if Step.SkipShown(p, pos) then Some(Step.SkipEffects(p, pos)) else None
       case Input(k, value) =>
         if k < |p.inputFields| then Some(Step.InputEffects(p.hasOnInputChange, p.inputFields[k].name, value)) else None
       case _ => None)
    case PricingPage(p) =>
      (match click
       case BackButton =>
         if Pricing.BackShown(pos) then Some(Pricing.BackEffects(pos)) else None
       case PlanButton(k) =>
         if k < |p.plans| then Some(Pricing.SelectPlanEffects(p.plans[k])) else None
       case _ => None)
  }

  /** The wizard position after one click on the active page. */
  function AfterClick(pages: seq<Page>, pos: Position, click: Click): (r: Position)
    requires pos.Valid() && |pages| == pos.count
    ensures r.Valid() && r.count == pos.count
  {
    match ClickEffects(pages[pos.index], pos, click)
    case None => pos
    case Some(es) => Run(pos, es)
  }

  /** The wizard position after the clicks, in order. Whatever the pages
      and the clicks, the active index stays within the pages. */
  function Replay(pages: seq<Page>, pos: Position, clicks: seq<Click>): (r: Position)
    requires pos.Valid() && |pages| == pos.count
    ensures r.Valid() && r.count == pos.count
    decreases |clicks|
  {
    if |clicks| == 0 then pos else Replay(pages, AfterClick(pages, pos, clicks[0]), clicks[1..])
  }

  /** The page has a primary button without an override. */
  predicate PlainContinue(page: Page) {
    page.StepPage? && page.props.primaryCta.Some? && !page.props.primaryCta.value.hasOnClick
  }

  /** The page has a secondary button without an override. */
  predicate PlainBack(page: Page) {
    page.StepPage? && page.props.secondaryCta.Some? && !page.props.secondaryCta.value.hasOnClick
  }

  /** Pressing a plain primary button k times moves k steps on, and stops
      at the last step. */
  lemma {:induction false} RepeatedContinue(pages: seq<Page>, pos: Position, k: nat)
    requires pos.Valid() && |pages| == pos.count
    requires forall i :: 0 <= i < |pages| ==> PlainContinue(pages[i])
    ensures Replay(pages, pos, seq(k, _ => PrimaryButton)).index
            == if pos.index + k < pos.count then pos.index + k else pos.count - 1
    decreases k
  {
    if k > 0 {
      assert PlainContinue(pages[pos.index]);
      var es := Step.PrimaryEffects(pages[pos.index].props.primaryCta, pos);
      assert ClickEffects(pages[pos.index], pos, PrimaryButton) == Some(es);
      if !pos.IsLastStep() {
        assert es == [Advance] && Run(pos, es) == Run(Apply(pos, Advance), []);
      }
      var next := AfterClick(pages, pos, PrimaryButton);
      assert next.index == if pos.IsLastStep() then pos.index else pos.index + 1;
      assert seq(k, _ => PrimaryButton)[1..] == seq(k - 1, _ => PrimaryButton);
      RepeatedContinue(pages, next, k - 1);
    }
  }

  /** Pressing a plain secondary button k times moves k steps back, and
      stops at the first step. */
  lemma {:induction false} RepeatedBack(pages: seq<Page>, pos: Position, k: nat)
    requires pos.Valid() && |pages| == pos.count
    requires forall i :: 0 <= i < |pages| ==> PlainBack(pages[i])
    ensures Replay(pages, pos, seq(k, _ => SecondaryButton)).index
            == if pos.index >= k then pos.index - k else 0
    decreases k
  {
    if k > 0 {
      assert PlainBack(pages[pos.index]);
      var es := Step.SecondaryEffects(pages[pos.index].props.secondaryCta, pos);
      assert ClickEffects(pages[pos.index], pos, SecondaryButton) == Some(es);
      if !pos.IsFirstStep() {
        assert es == [Retreat] && Run(pos, es) == Run(Apply(pos, Retreat), []);
      }
      var next := AfterClick(pages, pos, SecondaryButton);
      assert next.index == if pos.IsFirstStep() then 0 else pos.index - 1;
      assert seq(k, _ => SecondaryButton)[1..] == seq(k - 1, _ => SecondaryButton);
      RepeatedBack(pages, next, k - 1);
    }
  }

  /** Typing and choosing plans never move the wizard. */
  predicate StaysPut(click: Click) {
    click.Input? || click.PlanButton?
  }

  lemma {:induction false} TypingAndChoosingStayPut(pages: seq<Page>, pos: Position, clicks: seq<Click>)
    requires pos.Valid() && |pages| == pos.count
    requires forall i :: 0 <= i < |clicks| ==> StaysPut(clicks[i])
    ensures Replay(pages, pos, clicks) == pos
    decreases |clicks|
  {
    if |clicks| > 0 {
      assert StaysPut(clicks[0]);
      var r := ClickEffects(pages[pos.index], pos, clicks[0]);
      if r.Some? {
        RunWithoutNavigation(pos, r.value);
      }
      TypingAndChoosingStayPut(pages, pos, clicks[1..]);
    }
  }

  /** A primary button with an override makes no navigation call of its
      own: it invokes the override and nothing else. What the host's
      override does is not modelled, so the position is left as it was. */
  lemma OverrideReplacesNavigation(pages: seq<Page>, pos: Position)
    requires pos.Valid() && |pages| == pos.count
    requires pages[pos.index].StepPage?
    requires var p := pages[pos.index].props; p.primaryCta.Some? && p.primaryCta.value.hasOnClick
    ensures ClickEffects(pages[pos.index], pos, PrimaryButton) == Some([InvokeOnClick(PrimarySlot)])
    ensures AfterClick(pages, pos, PrimaryButton) == pos
  {
  }

  /** Two steps that differ at most in which inputs are marked required. */
  predicate SameButRequired(p: Step.StepProps, q: Step.StepProps) {
    && p.(inputFields := []) == q.(inputFields := [])
    && |p.inputFields| == |q.inputFields|
    && forall k :: 0 <= k < |p.inputFields| ==>
         p.inputFields[k].(required := false) == q.inputFields[k].(required := false)
  }

  /** `required` only marks inputs: no click, in particular no navigation,
      depends on it, so empty required inputs never block the wizard. */
  lemma RequiredIsCosmetic(p: Step.StepProps, q: Step.StepProps, pos: Position, click: Click)
    requires pos.Valid() && SameButRequired(p, q)
    ensures ClickEffects(StepPage(p), pos, click) == ClickEffects(StepPage(q), pos, click)
  {
  }
}
