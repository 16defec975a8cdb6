/** One onboarding step: its props, the click and input handlers, the
    defaults it renders, and the component itself as a class whose only
    state is `formData`. The six layout copies share all of this; `Layout`
    selects the one piece of visible text that differs between them. */
module OnboardingStep {
  import opened JsValues
  import opened WizardPosition

  /** `primaryCTA` / `secondaryCTA`: a label and, optionally, an `onClick`
      override (only its presence matters to the handlers). */
  datatype Cta = Cta(labelText: string, hasOnClick: bool)

  /** One entry of `inputFields`. An absent `required` is `false`. */
  datatype InputField = InputField(
    name: string,
    placeholder: string,
    inputType: Option<string>,
    labelText: Option<string>,
    required: bool)

  /** The props of a step. An absent `showSkip` is `false` and an absent
      `inputFields` is `[]`, as the component's defaults say; the callbacks
      and `customContent` are represented by their presence. */
  datatype StepProps = StepProps(
    title: string,
    description: Option<string>,
    image: Option<string>,
    imageAlt: Option<string>,
    primaryCta: Option<Cta>,
    secondaryCta: Option<Cta>,
    showSkip: bool,
    inputFields: seq<InputField>,
    hasOnInputChange: bool,
    hasCustomContent: bool)

  /** `OnboardingStep` itself and its six layout copies. */
  datatype Layout = Standard | ImageTop | ImageLeft | ImageRight | BackgroundImage | Compact | Hero

  // ---------------------------------------------------------------------
  // Handlers

  /** What the primary button's handler calls: the override if one is
      given, otherwise `nextStep` unless this is the last step. */
  function PrimaryEffects(cta: Option<Cta>, pos: Position): (es: seq<Effect>)
    ensures cta.Some? && cta.value.hasOnClick ==> es == [InvokeOnClick(PrimarySlot)]
    ensures Advance in es <==> !(cta.Some? && cta.value.hasOnClick) && !pos.IsLastStep()
    ensures es == [] <==> !(cta.Some? && cta.value.hasOnClick) && pos.IsLastStep()
    ensures |es| <= 1 && Retreat !in es
  {
    if cta.Some? && cta.value.hasOnClick then [InvokeOnClick(PrimarySlot)]
    else if !pos.IsLastStep() then [Advance]
    else []
  }

  /** What the secondary button's handler calls: the override if one is
      given, otherwise `previousStep` unless this is the first step. */
  function SecondaryEffects(cta: Option<Cta>, pos: Position): (es: seq<Effect>)
    ensures cta.Some? && cta.value.hasOnClick ==> es == [InvokeOnClick(SecondarySlot)]
    ensures Retreat in es <==> !(cta.Some? && cta.value.hasOnClick) && !pos.IsFirstStep()
    ensures es == [] <==> !(cta.Some? && cta.value.hasOnClick) && pos.IsFirstStep()
    ensures |es| <= 1 && Advance !in es
  {
    if cta.Some? && cta.value.hasOnClick then [InvokeOnClick(SecondarySlot)]
    else if !pos.IsFirstStep() then [Retreat]
    else []
  }

  /** The Skip affordance is rendered only when `showSkip` is set and this
      is not the last step. */
  predicate SkipShown(props: StepProps, pos: Position)
    ensures SkipShown(props, pos) ==> props.showSkip
    ensures SkipShown(props, pos) && pos.Valid() ==> Enabled(pos, Advance)
  {
    props.showSkip && !pos.IsLastStep()
  }

  /** What Skip calls: `nextStep`, directly, whatever the primary button's
      override; it can be clicked only while it is shown, and then the
      wizard moves one step on. */
  function SkipEffects(props: StepProps, pos: Position): (es: seq<Effect>)
    requires pos.Valid() && SkipShown(props, pos)
    ensures es == [Advance]
    ensures RunEnabled(pos, es) && Run(pos, es).index == pos.index + 1
  {
    [Advance]
  }

  /** What the input handler notifies: `onInputChange(name, value)`, once,
      when the callback is supplied. */
  function InputEffects(hasOnInputChange: bool, name: string, value: string): (es: seq<Effect>)
    ensures hasOnInputChange <==> es == [InputChanged(name, value)]
    ensures !hasOnInputChange <==> es == []
    ensures forall e :: e in es ==> !e.Navigates()
  {
    if hasOnInputChange then [InputChanged(name, value)] else []
  }

  /** `formData` after an edit of field `name`. */
  function Edit(form: map<string, string>, name: string, value: string): (r: map<string, string>)
    ensures r.Keys == form.Keys + {name}
    ensures r[name] == value
    ensures forall k :: k in form && k != name ==> r[k] == form[k]
  {
    form[name := value]
  }

  // ---------------------------------------------------------------------
  // Rendered defaults

  /** The text of the Skip button in each layout. */
  function SkipLabel(layout: Layout): (s: string)
    ensures layout == BackgroundImage ==> s == "Skip for now"
    ensures layout == Hero ==> s == "Skip this step"
    ensures layout != BackgroundImage && layout != Hero ==> s == "Skip"
  {
    match layout
    case BackgroundImage => "Skip for now"
    case Hero => "Skip this step"
    case _ => "Skip"
  }

  /** The primary button's text: its label, else "Get Started" on the last
      step, else "Continue". */
  function PrimaryLabel(cta: Cta, pos: Position): (s: string)
    ensures cta.labelText != "" ==> s == cta.labelText
    ensures cta.labelText == "" && pos.IsLastStep() ==> s == "Get Started"
    ensures cta.labelText == "" && !pos.IsLastStep() ==> s == "Continue"
  {
    StrOr(cta.labelText, if pos.IsLastStep() then "Get Started" else "Continue")
  }

  /** The secondary button's text: its label, else "Back". */
  function SecondaryLabel(cta: Cta): (s: string)
    ensures s != ""
    ensures cta.labelText != "" ==> s == cta.labelText
    ensures cta.labelText == "" ==> s == "Back"
  {
    StrOr(cta.labelText, "Back")
  }

  /** The image's alt text: `imageAlt`, else the title. */
  function ImageAlt(props: StepProps): (s: string)
    ensures Truthy(props.imageAlt) ==> s == props.imageAlt.value
    ensures !Truthy(props.imageAlt) ==> s == props.title
  {
    OrElse(props.imageAlt, props.title)
  }

  /** An input's type: `type`, else "text". */
  function InputType(f: InputField): (s: string)
    ensures s != ""
    ensures Truthy(f.inputType) ==> s == f.inputType.value
    ensures !Truthy(f.inputType) ==> s == "text"
  {
    OrElse(f.inputType, "text")
  }

  /** The value an input displays: the stored value, else "". */
  function DisplayedValue(form: map<string, string>, name: string): (s: string)
    ensures name in form ==> s == form[name]
    ensures name !in form ==> s == ""
  {
    if name in form then form[name] else ""
  }

  datatype ImageView = ImageView(src: string, alt: string)

  /** A rendered input with its label; `asterisk` is the required marker. */
  datatype FieldView = FieldView(
    name: string,
    labelText: Option<string>,
    asterisk: bool,
    inputType: string,
    placeholder: string,
    value: string,
    required: bool)

  /** Everything a rendered step shows that is not styling: the optional
      sections and the text of each button that is present. */
  datatype StepView = StepView(
    image: Option<ImageView>,
    title: string,
    description: Option<string>,
    fields: seq<FieldView>,
    customContent: bool,
    skip: Option<string>,
    secondary: Option<string>,
    primary: Option<string>)

  /** One input: the label only when it is non-empty, the asterisk only
      beside a label. */
  function RenderField(f: InputField, form: map<string, string>): (v: FieldView)
    ensures v.name == f.name && v.placeholder == f.placeholder && v.required == f.required
    ensures v.labelText.Some? <==> Truthy(f.labelText)
    ensures Truthy(f.labelText) ==> v.labelText == f.labelText
    ensures v.asterisk <==> Truthy(f.labelText) && f.required
    ensures v.inputType == InputType(f) && v.value == DisplayedValue(form, f.name)
  {
    var labelled := Truthy(f.labelText);
    FieldView(f.name, if labelled then f.labelText else None, labelled && f.required,
              InputType(f), f.placeholder, DisplayedValue(form, f.name), f.required)
  }

  /** The inputs, one per field, in order. */
  function RenderFields(fields: seq<InputField>, form: map<string, string>): (vs: seq<FieldView>)
    ensures |vs| == |fields|
    ensures forall k :: 0 <= k < |fields| ==> vs[k] == RenderField(fields[k], form)
  {
    if |fields| == 0 then [] else [RenderField(fields[0], form)] + RenderFields(fields[1..], form)
  }

  /** The step as rendered in `layout` at `pos` with `form` as its form data. */
  function Render(layout: Layout, props: StepProps, pos: Position, form: map<string, string>): (v: StepView)
    ensures v.skip.Some? <==> props.showSkip && !pos.IsLastStep()
    ensures v.skip.Some? ==> v.skip.value == SkipLabel(layout)
    ensures v.primary.Some? <==> props.primaryCta.Some?
    ensures v.secondary.Some? <==> props.secondaryCta.Some?
    ensures props.primaryCta.Some? && props.primaryCta.value.labelText == "" ==>
              v.primary == Some(if pos.IsLastStep() then "Get Started" else "Continue")
    ensures props.secondaryCta.Some? && props.secondaryCta.value.labelText == "" ==> v.secondary == Some("Back")
    ensures v.image.Some? <==> Truthy(props.image)
    ensures v.image.Some? && !Truthy(props.imageAlt) ==> v.image.value.alt == props.title
    ensures props.primaryCta.Some? ==> v.primary == Some(PrimaryLabel(props.primaryCta.value, pos))
    ensures props.secondaryCta.Some? ==> v.secondary == Some(SecondaryLabel(props.secondaryCta.value))
    ensures v.image.Some? ==> v.image.value == ImageView(props.image.value, ImageAlt(props))
    ensures v.title == props.title
    ensures v.description.Some? <==> Truthy(props.description)
    ensures v.description.Some? ==> v.description == props.description
    ensures v.customContent == props.hasCustomContent
    ensures |v.fields| == |props.inputFields|
    ensures v.fields == RenderFields(props.inputFields, form)
  {
    StepView(
      if Truthy(props.image) then Some(ImageView(props.image.value, ImageAlt(props))) else None,
      props.title,
      if Truthy(props.description) then props.description else None,
      RenderFields(props.inputFields, form),
      props.hasCustomContent,
      if SkipShown(props, pos) then Some(SkipLabel(layout)) else None,
      if props.secondaryCta.Some? then Some(SecondaryLabel(props.secondaryCta.value)) else None,
      if props.primaryCta.Some? then Some(PrimaryLabel(props.primaryCta.value, pos)) else None)
  }

  // ---------------------------------------------------------------------
  // The component

  /** A mounted step. `props` and `layout` are fixed for the mount;
      `formData` is the component's state, empty when it mounts. The
      wizard position is read from the wizard on every call, so it is a
      parameter of the handlers. */
  class StepController {
    const props: StepProps
    const layout: Layout
    var formData: map<string, string>

    constructor (props: StepProps, layout: Layout)
      ensures this.props == props && this.layout == layout
      ensures formData == map[]
    {
      this.props := props;
      this.layout := layout;
      formData := map[];
    }

    /** An edit of one input: store it under its name, then notify the host. */
    method HandleInputChange(name: string, value: string) returns (effects: seq<Effect>)
      modifies this`formData
      ensures formData == Edit(old(formData), name, value)
      ensures DisplayedValue(formData, name) == value
      ensures forall k :: k != name ==> DisplayedValue(formData, k) == DisplayedValue(old(formData), k)
      ensures effects == InputEffects(props.hasOnInputChange, name, value)
    {
      formData := formData[name := value];
      if props.hasOnInputChange {
        effects := [InputChanged(name, value)];
      } else {
        effects := [];
      }
    }

    /** A click on the primary button. */
    method HandlePrimaryCta(pos: Position) returns (effects: seq<Effect>)
      requires pos.Valid()
      ensures effects == PrimaryEffects(props.primaryCta, pos)
      ensures RunEnabled(pos, effects)
    {
      if props.primaryCta.Some? && props.primaryCta.value.hasOnClick {
        effects := [InvokeOnClick(PrimarySlot)];
      } else if !pos.IsLastStep() {
        effects := [Advance];
      } else {
        effects := [];
      }
    }

    /** A click on the secondary button. */
    method HandleSecondaryCta(pos: Position) returns (effects: seq<Effect>)
      requires pos.Valid()
      ensures effects == SecondaryEffects(props.secondaryCta, pos)
      ensures RunEnabled(pos, effects)
    {
      if props.secondaryCta.Some? && props.secondaryCta.value.hasOnClick {
        effects := [InvokeOnClick(SecondarySlot)];
      } else if !pos.IsFirstStep() {
        effects := [Retreat];
      } else {
        effects := [];
      }
    }

    /** A click on Skip, which exists only while `SkipShown`: `nextStep`,
        whatever the primary button's override. */
    method HandleSkip(pos: Position) returns (effects: seq<Effect>)
      requires pos.Valid() && SkipShown(props, pos)
      ensures effects == SkipEffects(props, pos)
    {
      effects := [Advance];
    }

    /** What the component currently shows at `pos`. */
    function View(pos: Position): (v: StepView)
      reads this
      ensures |v.fields| == |props.inputFields|
      ensures forall k :: 0 <= k < |v.fields| ==>
        v.fields[k].value == DisplayedValue(formData, props.inputFields[k].name)
    {
      Render(layout, props, pos, formData)
    }
  }

  // ---------------------------------------------------------------------
  // Properties

  /** An edit is what the edited input displays next, and no other input's
      display changes. */
  lemma EditIsDisplayed(form: map<string, string>, name: string, value: string, other: string)
    requires other != name
    ensures DisplayedValue(Edit(form, name, value), name) == value
    ensures DisplayedValue(Edit(form, name, value), other) == DisplayedValue(form, other)
  {
  }

  /** Per input: the type defaults to "text", the value to "", and the
      required asterisk appears only beside a non-empty label. */
  lemma FieldDefaults(layout: Layout, props: StepProps, pos: Position, form: map<string, string>, k: nat)
    requires k < |props.inputFields|
    ensures var f, v := props.inputFields[k], Render(layout, props, pos, form).fields[k];
      && (!Truthy(f.inputType) ==> v.inputType == "text")
      && (f.name !in form ==> v.value == "")
      && (f.name in form ==> v.value == form[f.name])
      && (v.asterisk <==> Truthy(f.labelText) && f.required)
      && (v.labelText.Some? <==> Truthy(f.labelText))
  {
  }

  // ---------------------------------------------------------------------
  // Successive edits

  /** One input event: the edited field's name and its new value. */
  datatype FieldEdit = FieldEdit(name: string, value: string)

  /** `formData` after the edits, applied in order. */
  function ApplyEdits(form: map<string, string>, edits: seq<FieldEdit>): map<string, string>
    decreases |edits|
  {
    if |edits| == 0 then form
    else
      var last := edits[|edits| - 1];
      Edit(ApplyEdits(form, edits[..|edits| - 1]), last.name, last.value)
  }

  /** The notifications the edits send, in order. */
  function EditNotifications(hasOnInputChange: bool, edits: seq<FieldEdit>): seq<Effect>
    decreases |edits|
  {
    if |edits| == 0 then []
    else
      var last := edits[|edits| - 1];
      EditNotifications(hasOnInputChange, edits[..|edits| - 1]) + InputEffects(hasOnInputChange, last.name, last.value)
  }

  /** The value of the last edit of `name`, if there is one. */
  function LastEdit(edits: seq<FieldEdit>, name: string): Option<string>
    decreases |edits|
  {
    if |edits| == 0 then None
    else if edits[|edits| - 1].name == name then Some(edits[|edits| - 1].value)
    else LastEdit(edits[..|edits| - 1], name)
  }

  /** After any sequence of edits, each input displays the value of its
      last edit, and an input never edited displays what it did before. */
  lemma {:induction false} LastEditWins(form: map<string, string>, edits: seq<FieldEdit>, name: string)
    ensures LastEdit(edits, name).Some? ==> DisplayedValue(ApplyEdits(form, edits), name) == LastEdit(edits, name).value
    ensures LastEdit(edits, name).None? ==> DisplayedValue(ApplyEdits(form, edits), name) == DisplayedValue(form, name)
    decreases |edits|
  {
    if |edits| > 0 {
      LastEditWins(form, edits[..|edits| - 1], name);
    }
  }

  /** With `onInputChange` supplied, every edit notifies it exactly once,
      with its own name and value, in order; without it nothing is sent. */
  lemma {:induction false} OneNotificationPerEdit(hasOnInputChange: bool, edits: seq<FieldEdit>)
    ensures |EditNotifications(hasOnInputChange, edits)| == if hasOnInputChange then |edits| else 0
    ensures hasOnInputChange ==> forall k :: 0 <= k < |edits| ==>
      EditNotifications(hasOnInputChange, edits)[k] == InputChanged(edits[k].name, edits[k].value)
    decreases |edits|
  {
    if |edits| > 0 {
      OneNotificationPerEdit(hasOnInputChange, edits[..|edits| - 1]);
      if hasOnInputChange {
        var n := EditNotifications(hasOnInputChange, edits);
        forall k | 0 <= k < |edits|
          ensures n[k] == InputChanged(edits[k].name, edits[k].value)
        {
          if k < |edits| - 1 {
            assert edits[..|edits| - 1][k] == edits[k];
          }
        }
      }
    }
  }

  /** Edits of two different inputs give the same form data in either order. */
  lemma EditsOfDistinctFieldsCommute(form: map<string, string>, a: FieldEdit, b: FieldEdit)
    requires a.name != b.name
    ensures ApplyEdits(form, [a, b]) == ApplyEdits(form, [b, a])
  {
  }
}
