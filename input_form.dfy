/** The input form: the state behind its controls, the handlers that change
    it, and the submission it hands to the session. The effect that resets
    the vanilla structure whenever the stack changes is applied at the end of
    each handler that changes the stack. */
module InputForm {
  import opened Types
  import opened Text
  import CustomTechStackForm
  import GeminiService

  /** The toggle of the option buttons: a click on the selected option
      clears it, a click on another option selects that one, so afterwards
      the clicked option is selected exactly when it was not before. */
  function Toggled<T(==)>(current: T, value: T, none: T): (r: T)
    ensures value != none ==> (r == value <==> current != value)
    ensures r == value || r == none
  {
    if current == value then none else value
  }

  /** The form's plain text inputs. */
  datatype TextInput = IdeaText | FeaturesText | AudienceText | MonetizationText | SuccessMetricsText

  class FormState {
    var idea: string
    var platform: Platform
    var scope: PrdScope
    var features: string
    var audience: string
    var techStack: TechStack
    var customTechStack: CustomTechStack
    var vanillaStructure: VanillaStructure
    var monetization: string
    var successMetrics: string
    var showCustomStackForm: bool

    /** What the handlers keep true: a selected preset leaves the custom
        stack blank, the custom editor is open only with no preset selected,
        and the vanilla structure is `'single'` unless the classic preset is
        selected. */
    predicate Valid()
      reads this
    {
      (techStack != NoStack ==> customTechStack == EmptyCustomStack)
      && (showCustomStackForm ==> techStack == NoStack)
      && (techStack != Classic ==> vanillaStructure == Single)
    }

    /** The record `handleSubmit` passes on, with the idea untrimmed. */
    function Data(): PrdInput
      reads this
    {
      PrdInput(idea, platform, scope, features, audience, techStack, customTechStack,
               vanillaStructure, monetization, successMetrics)
    }

    /** The initial state of the form. */
    constructor()
      ensures Valid() && !showCustomStackForm
      ensures Data() == PrdInput("", NoPlatform, Fullstack, "", "", NoStack, EmptyCustomStack, Single, "", "")
    {
      idea := "";
      platform := NoPlatform;
      scope := Fullstack;
      features := "";
      audience := "";
      techStack := NoStack;
      customTechStack := EmptyCustomStack;
      vanillaStructure := Single;
      monetization := "";
      successMetrics := "";
      showCustomStackForm := false;
    }

    /** The vanilla-structure effect, run after the stack has changed. */
    method ResetVanillaStructure()
      modifies this
      ensures vanillaStructure == (if techStack != Classic then Single else old(vanillaStructure))
      ensures Data() == old(Data()).(vanillaStructure := vanillaStructure)
      ensures showCustomStackForm == old(showCustomStackForm)
    {
      if techStack != Classic {
        vanillaStructure := Single;
      }
    }

    /** `handleSelectPresetStack`: toggles the preset, closes the custom
        editor and blanks the custom stack. */
    method SelectPresetStack(value: TechStack)
      requires Valid()
      modifies this
      ensures Valid() && !showCustomStackForm
      ensures techStack == Toggled(old(techStack), value, NoStack)
      ensures customTechStack == EmptyCustomStack
      ensures vanillaStructure == (if techStack == Classic then old(vanillaStructure) else Single)
      ensures Data() == old(Data()).(techStack := techStack, customTechStack := EmptyCustomStack,
                                     vanillaStructure := vanillaStructure)
    {
      techStack := Toggled(techStack, value, NoStack);
      showCustomStackForm := false;
      customTechStack := EmptyCustomStack;
      ResetVanillaStructure();
    }

    /** `handleShowCustomStackForm`: opens the custom editor and clears the
        preset; the custom stack keeps what was typed before. */
    method ShowCustomStackForm()
      requires Valid()
      modifies this
      ensures Valid() && showCustomStackForm
      ensures Data() == old(Data()).(techStack := NoStack, vanillaStructure := Single)
    {
      showCustomStackForm := true;
      techStack := NoStack;
      ResetVanillaStructure();
    }

    /** The Cancel button of the custom editor: closes it and nothing else,
        so what was typed stays in the custom stack. */
    method CancelCustomStackForm()
      requires Valid()
      modifies this
      ensures Valid() && !showCustomStackForm
      ensures Data() == old(Data())
    {
      showCustomStackForm := false;
    }

    /** An edit in the custom editor, which is shown only while it is open. */
    method EditCustomStack(f: CustomTechStackForm.StackField, value: string)
      requires Valid() && showCustomStackForm
      modifies this
      ensures Valid() && showCustomStackForm
      ensures Data() == old(Data()).(customTechStack := CustomTechStackForm.HandleChange(old(customTechStack), f, value))
    {
      customTechStack := CustomTechStackForm.HandleChange(customTechStack, f, value);
    }

    /** The structure select, shown only under the classic preset and
        offering `'single'` and `'separate'`. */
    method SetVanillaStructure(v: VanillaStructure)
      requires Valid() && techStack == Classic && v != NoStructure
      modifies this
      ensures Valid() && showCustomStackForm == old(showCustomStackForm)
      ensures Data() == old(Data()).(vanillaStructure := v)
    {
      vanillaStructure := v;
    }

    /** A click on a platform option. */
    method TogglePlatform(p: Platform)
      requires Valid()
      modifies this
      ensures Valid() && showCustomStackForm == old(showCustomStackForm)
      ensures Data() == old(Data()).(platform := Toggled(old(platform), p, NoPlatform))
    {
      platform := Toggled(platform, p, NoPlatform);
    }

    /** A click on one of the two scope buttons. */
    method SetScope(s: PrdScope)
      requires Valid()
      modifies this
      ensures Valid() && showCustomStackForm == old(showCustomStackForm)
      ensures Data() == old(Data()).(scope := s)
    {
      scope := s;
    }

    /** Typing into a text input. */
    method EditText(input: TextInput, value: string)
      requires Valid()
      modifies this
      ensures Valid() && showCustomStackForm == old(showCustomStackForm)
      ensures input == IdeaText ==> Data() == old(Data()).(idea := value)
      ensures input == FeaturesText ==> Data() == old(Data()).(features := value)
      ensures input == AudienceText ==> Data() == old(Data()).(audience := value)
      ensures input == MonetizationText ==> Data() == old(Data()).(monetization := value)
      ensures input == SuccessMetricsText ==> Data() == old(Data()).(successMetrics := value)
    {
      match input
      case IdeaText => idea := value;
      case FeaturesText => features := value;
      case AudienceText => audience := value;
      case MonetizationText => monetization := value;
      case SuccessMetricsText => successMetrics := value;
    }

    /** `handleSubmit`: the form data when the trimmed idea is non-empty,
        nothing otherwise. */
    function Submission(): (r: Option<PrdInput>)
      reads this
      ensures r.Some? <==> !IsBlank(idea)
      ensures r.Some? ==> r.value == Data()
    {
      TrimEmptyIffBlank(idea);
      if Trim(idea) != "" then Some(Data()) else None
    }

    /** The submit button's `disabled`. */
    predicate SubmitDisabled(isLoading: bool)
      reads this
    {
      isLoading || Trim(idea) == ""
    }

    /** The technology sentence of a submission from a valid form is the
        user's latest choice: the selected preset, with the classic sentence
        naming the chosen structure, or else the custom stack. */
    lemma PreferenceIsTheChoice()
      requires Valid()
      ensures techStack != NoStack ==>
                GeminiService.TechPreferenceOf(Data()) == GeminiService.TechStackPreference(techStack, vanillaStructure)
      ensures techStack == NoStack ==>
                GeminiService.TechPreferenceOf(Data()) == (if customTechStack == EmptyCustomStack then ""
                                                           else GeminiService.CustomStackBlock(customTechStack))
    {
      GeminiService.HasCustomStackIffNotBlank(customTechStack);
    }
  }

  /** While nothing is loading, the button is enabled exactly when a click
      submits; while loading it is disabled. */
  lemma SubmitEnabledIffSubmits(form: FormState, isLoading: bool)
    ensures !form.SubmitDisabled(isLoading) <==> !isLoading && form.Submission().Some?
  {
    TrimEmptyIffBlank(form.idea);
  }
}
