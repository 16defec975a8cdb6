# Onboarding step, pricing step and fake paywall — a Dafny model

This project models the behaviour behind the onboarding components of the
repository: the step component `OnboardingStep` with its six layout copies,
the pricing step `OnboardingPricingStep`, and the `FakePaywall` dialog. The
styling and layout markup are left out. What remains is this:

- **The wizard position.** It is an index `index < count` (`WizardPosition.Position`).
  `isFirstStep` means `index == 0`; `isLastStep` means `index == count - 1`.
  `nextStep` and `previousStep` are the effects `Advance` and `Retreat`. The
  model gives them the preconditions "not last" and "not first".
- **Handlers return effects.** A click or input handler returns the callbacks
  it invokes, in order: a `seq<Effect>` covering `nextStep`, `previousStep`,
  a CTA `onClick`, `onInputChange`, `onSelectPlan` and `onOpenChange`. So
  "exactly once" and "no navigation" are statements about that sequence.
- **The step component.** It is the class `OnboardingStep.StepController`.
  Its one piece of state is `formData`, a `map<string, string>`. Its methods
  are `handleInputChange`, `handlePrimaryCTA`, `handleSecondaryCTA` and the
  Skip click. Each method is proved against a pure function (`Edit`,
  `InputEffects`, `PrimaryEffects`, `SecondaryEffects`, `SkipEffects`). The
  properties of those functions are their contracts and lemmas.
- **What a step displays.** `OnboardingStep.Render` gives what the step shows
  apart from styling. This covers:
  - which sections and buttons appear;
  - the fallback texts "Get Started", "Continue" and "Back";
  - the image alt text, which falls back to the title;
  - the input type, which falls back to "text";
  - the displayed input value, which falls back to "";
  - the required asterisk.
- **The six layout copies.** They repeat the handlers and fallbacks of
  `OnboardingStep` word for word, so the model defines them once and
  parametrises them by a `Layout`. Only the Skip text differs by layout:
  "Skip for now" in the background-image layout, "Skip this step" in the hero
  layout, and "Skip" elsewhere. Module `StepVariants` records what the
  shared definition gives every layout. Those lemmas hold by construction;
  that the six copies agree rests on their handler and fallback code being
  textually identical.
- **Plans.** `Plans` holds the plan record and the per-card rules, which the
  pricing step and the paywall share. `PricingStep` and `Paywall` add their
  own selection handler, their defaults and, for the paywall, the three
  default plans.
- **Click sequences.** `Flow` replays clicks on a wizard whose pages are
  onboarding steps and pricing steps. It proves that the active index always
  stays in range (a host's `onClick` override is taken not to move the
  wizard). It also proves two facts that hold when no override is set:
  - pressing Continue `k` times ends at `min(i + k, n - 1)`;
  - pressing Back `k` times ends at `max(i - k, 0)`.

Three facts about the code shape the model:

- **Primary button without an override.** It calls `nextStep` only when the
  step is not the last one (`components/onboarding/onboarding-step.tsx:57`).
  On the last step it does nothing.
- **No configuration checks.** No component rejects an empty step list or
  duplicate field names.
- **Navigation preconditions.** `nextStep` and `previousStep` are given the
  preconditions "not last" and "not first". The model proves that the
  handlers' guards always meet them, so whatever the wizard library does
  out of range is never reached.

## Model

| member | source | states |
|---|---|---|
| `OnboardingStep.PrimaryEffects` | components/onboarding/onboarding-step.tsx:54-60 | an `onClick` override is invoked and `nextStep` is not; without one, `nextStep` is called iff the step is not the last, and on the last step nothing happens; never `previousStep`, at most one call |
| `OnboardingStep.SecondaryEffects` | components/onboarding/onboarding-step.tsx:62-68 | an override is invoked at any position; without one, `previousStep` is called iff the step is not the first; never `nextStep`, at most one call |
| `OnboardingStep.SkipEffects` | components/onboarding/onboarding-step.tsx:133-141 | Skip, shown only when `showSkip` and not on the last step, calls `nextStep` directly (whatever the primary override), and the wizard then is one step further on |
| `OnboardingStep.InputEffects` | components/onboarding/onboarding-step.tsx:51 | `onInputChange(name, value)` is notified exactly once when supplied and nothing is sent otherwise; the notification never navigates |
| `OnboardingStep.Edit` | components/onboarding/onboarding-step.tsx:50 | an edit adds or overwrites exactly the key `name` with `value` and keeps every other key and its value |
| `OnboardingStep.PrimaryLabel` | components/onboarding/onboarding-step.tsx:162 | the primary text is the label, else "Get Started" on the last step, else "Continue" |
| `OnboardingStep.SecondaryLabel` | components/onboarding/onboarding-step.tsx:152 | the secondary text is the label, else "Back"; never empty |
| `OnboardingStep.ImageAlt` | components/onboarding/onboarding-step.tsx:82 | the alt text is a non-empty `imageAlt`, else the title |
| `OnboardingStep.InputType` | components/onboarding/onboarding-step.tsx:117 | the input type is a non-empty `type`, else "text" |
| `OnboardingStep.RenderFields` | components/onboarding/onboarding-step.tsx:101-124 | one rendered input per field, in field order |
| `OnboardingStep.StepController.constructor` | components/onboarding/onboarding-step.tsx:47 | a freshly mounted step has empty form data |
| `OnboardingStep.StepController.HandleInputChange` | components/onboarding/onboarding-step.tsx:49-52 | the edited input now displays `value`, every other input displays what it did, and the host is notified as `InputEffects` says |
| `OnboardingStep.StepController.HandlePrimaryCta` | components/onboarding/onboarding-step.tsx:54-60 | the click does what `PrimaryEffects` says, and any navigation it asks for is possible at that position |
| `OnboardingStep.StepController.HandleSecondaryCta` | components/onboarding/onboarding-step.tsx:62-68 | the click does what `SecondaryEffects` says, and any navigation it asks for is possible at that position |
| `OnboardingStep.StepController.HandleSkip` | components/onboarding/onboarding-step.tsx:137 | a click on a shown Skip does what `SkipEffects` says |
| `OnboardingStep.StepController.View` | components/onboarding/onboarding-step.tsx:114-122 | each rendered input shows the component's current form data for its field's name |
| `OnboardingStep.EditIsDisplayed` | components/onboarding/onboarding-step.tsx:119 | after an edit the edited input displays the new value and any other input displays what it did before |
| `OnboardingStep.Render` | components/onboarding/onboarding-step.tsx:70-168 | Skip appears iff `showSkip` and not last step, with its layout's text; each CTA button appears iff its prop is given, with the "Get Started"/"Continue" and "Back" fallbacks; a given CTA label is shown as given (`PrimaryLabel`, `SecondaryLabel`); the image appears iff `image` is non-empty, with that source and `ImageAlt` as alt, which falls back to the title; the title is shown as given; the description appears iff non-empty, with its own text; custom content appears iff given; the inputs are `RenderFields` of the fields, one per field (the six copies render by the same rules) |
| `OnboardingStep.RenderField` | components/onboarding/onboarding-step.tsx:101-123 | an input keeps its field's name, placeholder and required flag; its label appears iff non-empty and is then the field's label, the asterisk iff there is a label and the field is required; its type and value are `InputType` and `DisplayedValue` |
| `OnboardingStep.SkipShown` | components/onboarding/onboarding-step.tsx:133 | Skip is shown only when `showSkip` is set, and only where `nextStep` is possible |
| `OnboardingStep.DisplayedValue` | components/onboarding/onboarding-step.tsx:119 | an input displays its stored value, or "" when none is stored |
| `OnboardingStep.SkipLabel` | components/onboarding/onboarding-step.tsx:139 | Skip reads "Skip for now" in the background-image copy (variants line 524), "Skip this step" in the hero copy (variants line 780), "Skip" elsewhere |
| `OnboardingStep.FieldDefaults` | components/onboarding/onboarding-step.tsx:103-121 | per input: type falls back to "text", value to ""; the asterisk appears iff there is a non-empty label and the field is required |
| `OnboardingStep.LastEditWins` | components/onboarding/onboarding-step.tsx:49-52 | after any sequence of edits each input displays its last edit's value, and an unedited input displays what it did before |
| `OnboardingStep.OneNotificationPerEdit` | components/onboarding/onboarding-step.tsx:51 | with `onInputChange` supplied, the i-th edit sends exactly the i-th notification with its own name and value; without it nothing is sent |
| `OnboardingStep.EditsOfDistinctFieldsCommute` | components/onboarding/onboarding-step.tsx:50 | edits of two different fields give the same form data in either order |
| `StepVariants.LayoutsRenderAlike` | components/onboarding/onboarding-step-variants.tsx:12-787 | in any two of the layouts a step renders the same image, alt, title, description, inputs (type, value, asterisk), custom content and CTA texts, and shows Skip under the same condition |
| `StepVariants.SkipTexts` | components/onboarding/onboarding-step-variants.tsx:521-527 | every layout shows Skip iff `showSkip` and not the last step; its text is "Skip for now" in the background-image layout, "Skip this step" in the hero layout (lines 778-782), "Skip" elsewhere |
| `StepVariants.ClicksDispatchAlike` | components/onboarding/onboarding-step-variants.tsx:33-47 | two mounts of the same props in any layouts answer primary and secondary clicks with the same callbacks (each copy's handlers, e.g. lines 163-177, 686-700, are those of `OnboardingStep`); an override never yields `nextStep` |
| `StepVariants.EditsAlike` | components/onboarding/onboarding-step-variants.tsx:28-31 | two mounts of the same props with the same form data, in any layouts, store an edit identically and send the same notification |
| `Plans.Card` | components/onboarding/onboarding-pricing-step.tsx:57-107 | a card carries its plan's id, name, description, price and features; "/month" iff the price is not "Custom"; "Most Popular" badge iff highlighted; button variant "default" iff highlighted, else "outline"; button text falls back to "Select Plan" (the paywall's cards, components/paywall/fake-paywall.tsx:114-164, follow the same rules, stated by `Paywall.Render`) |
| `Plans.Cards` | components/onboarding/onboarding-pricing-step.tsx:57 | one card per plan, in plan order |
| `PricingStep.Title` | components/onboarding/onboarding-pricing-step.tsx:26 | the title defaults to "Choose Your Plan" only when absent |
| `PricingStep.Description` | components/onboarding/onboarding-pricing-step.tsx:27-52 | the description defaults to "Select the plan that works best for you" when absent and is not rendered when empty |
| `PricingStep.SelectPlanEffects` | components/onboarding/onboarding-pricing-step.tsx:34-36 | choosing a plan calls `onSelectPlan(plan.id)` exactly once and navigates nowhere |
| `PricingStep.BackEffects` | components/onboarding/onboarding-pricing-step.tsx:112-118 | Back, shown only off the first step, calls `previousStep`, which moves the wizard one step back |
| `PricingStep.BackShown` | components/onboarding/onboarding-pricing-step.tsx:112 | Back is shown iff the index is not 0, and then `previousStep` is possible |
| `PricingStep.Render` | components/onboarding/onboarding-pricing-step.tsx:38-124 | the step shows its title and description as defaulted, one card per plan in order with that plan's card rules, and Back iff not on the first step |
| `PricingStep.CardButtonsSelectTheirPlan` | components/onboarding/onboarding-pricing-step.tsx:99-118 | the k-th card's button selects the k-th plan's id; Back is shown iff the index is not 0 |
| `Paywall.ShownPlans` | components/paywall/fake-paywall.tsx:87 | the host's plans are shown, or the default plans when none are given |
| `Paywall.SelectPlanEffects` | components/paywall/fake-paywall.tsx:91-99 | with `onSelectPlan` it alone is called with the plan id; without it `onOpenChange(false)` alone is called; exactly one call, no navigation |
| `Paywall.Render` | components/paywall/fake-paywall.tsx:82-164 | the dialog is open iff `open`; title and description default to "Unlock Full Access" and "Choose the plan that works best for you" when absent; one card per shown plan, in order, each the `Plans.Card` of its plan, so the badge, "/month", variant and "Select Plan" rules of lines 123, 141, 158 and 162 hold for every card |
| `Paywall.DefaultPlansFacts` | components/paywall/fake-paywall.tsx:35-80 | the default plans are starter, professional, enterprise, with distinct ids, and exactly one, professional, is highlighted |
| `Paywall.DefaultCards` | components/paywall/fake-paywall.tsx:138-163 | default cards: "/month" on starter and professional only; badge and "default" button on professional only; texts "Start Free Trial" and "Contact Sales" |
| `Flow.ClickEffects` | components/onboarding/onboarding-step.tsx:54-141 | every click on a rendered affordance of an onboarding or pricing page asks only for navigation the wizard can make at that position (the guards at lines 57, 65, 133 and pricing-step line 112) |
| `Flow.Replay` | components/onboarding/onboarding-step.tsx:57-66 | from a valid position, any sequence of clicks keeps the active index in `[0, n)` |
| `Flow.RepeatedContinue` | components/onboarding/onboarding-step.tsx:54-60 | on pages whose primary button has no override, `k` presses from index `i` end at `min(i + k, n - 1)` |
| `Flow.RepeatedBack` | components/onboarding/onboarding-step.tsx:62-68 | on pages whose secondary button has no override, `k` presses from index `i` end at `max(i - k, 0)` |
| `Flow.TypingAndChoosingStayPut` | components/onboarding/onboarding-pricing-step.tsx:34-36 | any sequence of input edits and plan choices leaves the wizard where it is |
| `Flow.OverrideReplacesNavigation` | components/onboarding/onboarding-step.tsx:54-56 | a primary button with an override invokes only the override: the component itself makes no navigation call |
| `Flow.RequiredIsCosmetic` | components/onboarding/onboarding-step.tsx:103-121 | two steps that differ only in which inputs are required answer every click identically, so required inputs never block navigation |

## Left out

- Styling and layout: class strings, responsive arrangement, the order of Skip relative to the CTA row, icons and the footer texts. Only visibility and texts are modelled.
- The wizard library: `Wizard` and `useWizard` are not part of this model. The model treats `nextStep`/`previousStep` as index moves with preconditions, not as the library's own out-of-range behaviour.
- The dialog primitive: `AlertDialog` is not part of this model. The paywall's `open` is passed through; focus handling and dismissal are not modelled.
- `components/onboarding/onboarding-wizard.tsx`: it only composes the dialog and the wizard. Opening, closing, reopening and the loss of a step's form data when it unmounts are therefore not modelled.
- Flow.Replay, Flow.OverrideReplacesNavigation: a host's `onClick` override is modelled as not moving the wizard. In the source, any state change after an override is up to the host's callback, so the in-range result covers the component's own navigation calls only.
- Host callbacks: `onClick`, `onInputChange`, `onSelectPlan` and `onOpenChange` are recorded as effects. What the host does in them is not modelled.
- The `console.log` call in the paywall's selection handler is I/O and is not modelled.
- Inherited object keys: `formData` is modelled as a plain dictionary. A JavaScript object also answers for inherited names such as `constructor`, so a field with such a name would display the inherited value until first edited. This is not modelled.
- `customContent` and `className` are opaque. Only whether `customContent` is present is modelled.
- Validation: empty step lists, empty titles and duplicate field names or plan ids are not checked, because the components do not check them.
- The demo and marketing files are not modelled: `onboarding-example.tsx`, `step-ui-variants-demo.tsx`, `app/step-ui-variants/pro/page.tsx`, the landing pages, the nav bar and `index.tsx`. They contain no behaviour of the core.
- React state updates are modelled as immediate. Successive functional updates of `formData` compose in order, which is what `ApplyEdits` models.
