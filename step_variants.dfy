/** The six layout copies of the onboarding step (image on top, image on
    the left, image on the right, background image, compact card, hero).
    Each repeats the handlers and the default rules of `OnboardingStep`
    word for word (the handlers at lines 28-47, 158-177, 288-307, 418-437,
    554-573 and 681-700 of the variants file), and only the Skip text
    differs. The model therefore defines them once, parametrised by
    `Layout`, so the lemmas below hold by construction: they record what
    the shared definition gives every layout, and the copies' agreement
    rests on their text being identical, not on a proof. */
module StepVariants {
  import opened JsValues
  import opened WizardPosition
  import opened OnboardingStep

  /** A step renders the same in any two layouts except for the text of its
      Skip button, which is present in one exactly when it is in the other. */
  lemma LayoutsRenderAlike(l1: Layout, l2: Layout, props: StepProps, pos: Position, form: map<string, string>)
    ensures Render(l1, props, pos, form).skip.Some? == Render(l2, props, pos, form).skip.Some?
    ensures Render(l1, props, pos, form).(skip := None) == Render(l2, props, pos, form).(skip := None)
  {
  }

  /** The Skip text of each copy; every copy shows it under the same rule. */
  lemma SkipTexts(layout: Layout, props: StepProps, pos: Position, form: map<string, string>)
    ensures Render(layout, props, pos, form).skip.Some? <==> props.showSkip && !pos.IsLastStep()
    ensures layout == BackgroundImage ==> SkipLabel(layout) == "Skip for now"
    ensures layout == Hero ==> SkipLabel(layout) == "Skip this step"
    ensures layout != BackgroundImage && layout != Hero ==> SkipLabel(layout) == "Skip"
  {
  }

  /** Two mounts of the same props, in whatever layouts, answer a click on
      either CTA button with the same callbacks. */
  method ClicksDispatchAlike(a: StepController, b: StepController, pos: Position)
    returns (primaryA: seq<Effect>, primaryB: seq<Effect>, secondaryA: seq<Effect>, secondaryB: seq<Effect>)
    requires a.props == b.props && pos.Valid()
    ensures primaryA == primaryB && secondaryA == secondaryB
    ensures a.props.primaryCta.Some? && a.props.primaryCta.value.hasOnClick ==> Advance !in primaryA
  {
    primaryA := a.HandlePrimaryCta(pos);
    primaryB := b.HandlePrimaryCta(pos);
    secondaryA := a.HandleSecondaryCta(pos);
    secondaryB := b.HandleSecondaryCta(pos);
  }

  /** Two mounts of the same props holding the same form data, in whatever
      layouts, store an edit alike and send the same notification. */
  method EditsAlike(a: StepController, b: StepController, name: string, value: string)
    returns (sentA: seq<Effect>, sentB: seq<Effect>)
    requires a.props == b.props && a.formData == b.formData
    modifies a`formData, b`formData
    ensures a.formData == b.formData == Edit(old(a.formData), name, value)
    ensures sentA == sentB
  {
    sentA := a.HandleInputChange(name, value);
    sentB := b.HandleInputChange(name, value);
  }
}
