/**
 * `CutomTextInputField`: a floating-placeholder text field configured by
 * chained copy-and-return modifiers, which validates its text when it first
 * appears and whenever the text changes, and shows the error under the box.
 */
module SimpleTextField {
  import opened Optional
  import opened Colors
  import opened Bindings
  import opened Whitespace
  import FloatingLabel

  /** A caller-supplied rule: the text in, an error message or `nil` out. */
  type Validator = string -> Option<string>

  /** The error shown when a required field is blank. */
  const RequiredMessage: string := "This field is required"

  /** The view value: its placeholder, its binding and its configuration. */
  datatype Config = Config(
    text: string,
    inputText: TextBinding,
    borderColor: Color,
    cornerRadius: real,
    showClear: bool,
    isRequired: bool,
    customValidation: Option<Validator>)
  {
    /** `.borderColor(_:)`: a copy with only the border colour replaced. */
    function BorderColor(color: Color): (r: Config)
      ensures r.borderColor == color
      ensures r.(borderColor := borderColor) == this
    {
      this.(borderColor := color)
    }

    /** `.cornerRadius(_:)`: a copy with only the corner radius replaced. */
    function CornerRadius(radius: real): (r: Config)
      ensures r.cornerRadius == radius
      ensures r.(cornerRadius := cornerRadius) == this
    {
      this.(cornerRadius := radius)
    }

    /** `.showClearButton(_:)`: a copy with only the clear-button flag replaced. */
    function ShowClearButton(enabled: bool): (r: Config)
      ensures r.showClear == enabled
      ensures r.(showClear := showClear) == this
    {
      this.(showClear := enabled)
    }

    /** `.validation(_:)`: a copy with only the custom validator replaced. */
    function Validation(validator: Validator): (r: Config)
      ensures r.customValidation == Some(validator)
      ensures r.(customValidation := customValidation) == this
    {
      this.(customValidation := Some(validator))
    }

    /** `.isRequired(_:)`: a copy with only the required flag replaced; the
        flag defaults to `true` when no argument is given. */
    function IsRequired(required: bool := true): (r: Config)
      ensures r.isRequired == required
      ensures r.(isRequired := isRequired) == this
    {
      this.(isRequired := required)
    }
  }

  /** `init(text:inputText:)` with the stored-property defaults: gray border,
      radius 8, no clear button, not required, no validator. */
  function Create(text: string, inputText: TextBinding): (c: Config)
    ensures c.text == text && c.inputText == inputText
    ensures c.borderColor == Gray && c.cornerRadius == 8.0
    ensures !c.showClear && !c.isRequired && c.customValidation == None
  {
    Config(text, inputText, Gray, 8.0, false, false, None)
  }

  /**
   * `validate()`: a required field whose text trims to nothing gets the
   * required message and the custom validator is not consulted; otherwise the
   * validator, if any, decides on the untrimmed text; with no validator the
   * text is accepted.
   */
  function Validate(cfg: Config, inputText: string): (r: Option<string>)
    ensures cfg.isRequired && AllWhitespace(inputText) ==> r == Some(RequiredMessage)
    ensures !(cfg.isRequired && AllWhitespace(inputText)) && cfg.customValidation.Some? ==>
      r == cfg.customValidation.value(inputText)
    ensures !(cfg.isRequired && AllWhitespace(inputText)) && cfg.customValidation.None? ==>
      r == None
  {
    TrimEmptyIff(inputText);
    if cfg.isRequired && Trim(inputText) == [] then
      Some(RequiredMessage)
    else
      match cfg.customValidation
      case Some(customValidator) => customValidator(inputText)
      case None => None
  }

  /** The blank-and-required check hides the custom validator completely:
      whatever validator is configured, or none, the error is the required message. */
  lemma RequiredShortCircuits(cfg: Config, inputText: string, validator: Validator)
    requires cfg.isRequired && AllWhitespace(inputText)
    ensures Validate(cfg.Validation(validator), inputText) == Some(RequiredMessage)
    ensures Validate(cfg.Validation(validator), inputText) == Validate(cfg.(customValidation := None), inputText)
  {
  }

  /** A required field with at least one non-whitespace character, and no
      validator, has no error; a lone newline counts as content. */
  lemma ContentSatisfiesRequired(cfg: Config, inputText: string)
    requires cfg.customValidation.None?
    requires !AllWhitespace(inputText)
    ensures Validate(cfg, inputText) == None
    ensures Validate(cfg, "\n") == None
  {
  }

  /** Only the required flag and the validator matter to validation: the
      styling modifiers never change the verdict. */
  lemma StylingDoesNotAffectValidation(cfg: Config, inputText: string, color: Color, radius: real, enabled: bool)
    ensures Validate(cfg.BorderColor(color).CornerRadius(radius).ShowClearButton(enabled), inputText)
         == Validate(cfg, inputText)
  {
  }

  /** Modifiers on different fields commute: all ten pairs of the five. */
  lemma ModifiersCommute(cfg: Config, color: Color, radius: real, enabled: bool,
                         required: bool, validator: Validator)
    ensures cfg.BorderColor(color).CornerRadius(radius) == cfg.CornerRadius(radius).BorderColor(color)
    ensures cfg.BorderColor(color).ShowClearButton(enabled) == cfg.ShowClearButton(enabled).BorderColor(color)
    ensures cfg.BorderColor(color).Validation(validator) == cfg.Validation(validator).BorderColor(color)
    ensures cfg.BorderColor(color).IsRequired(required) == cfg.IsRequired(required).BorderColor(color)
    ensures cfg.CornerRadius(radius).ShowClearButton(enabled) == cfg.ShowClearButton(enabled).CornerRadius(radius)
    ensures cfg.CornerRadius(radius).Validation(validator) == cfg.Validation(validator).CornerRadius(radius)
    ensures cfg.CornerRadius(radius).IsRequired(required) == cfg.IsRequired(required).CornerRadius(radius)
    ensures cfg.ShowClearButton(enabled).Validation(validator) == cfg.Validation(validator).ShowClearButton(enabled)
    ensures cfg.ShowClearButton(enabled).IsRequired(required) == cfg.IsRequired(required).ShowClearButton(enabled)
    ensures cfg.Validation(validator).IsRequired(required) == cfg.IsRequired(required).Validation(validator)
  {
  }

  /** Two calls of the same modifier: the later call wins, for each of the five;
      `isRequired()` counts as `isRequired(true)`. */
  lemma LastModifierWins(cfg: Config, color: Color, color': Color, radius: real, radius': real,
                         enabled: bool, enabled': bool, required: bool, required': bool,
                         validator: Validator, validator': Validator)
    ensures cfg.BorderColor(color).BorderColor(color') == cfg.BorderColor(color')
    ensures cfg.CornerRadius(radius).CornerRadius(radius') == cfg.CornerRadius(radius')
    ensures cfg.ShowClearButton(enabled).ShowClearButton(enabled') == cfg.ShowClearButton(enabled')
    ensures cfg.Validation(validator).Validation(validator') == cfg.Validation(validator')
    ensures cfg.IsRequired(required).IsRequired(required') == cfg.IsRequired(required')
    ensures cfg.IsRequired(required).IsRequired() == cfg.IsRequired(true)
  {
  }

  // ---------------------------------------------------------------------
  // The field once installed: its text, focus flag and error message.

  /** What the field shows at one moment: the bound text, the `@FocusState`
      flag and the `@State` error message. */
  datatype FieldState = FieldState(inputText: string, isFocused: bool, errorMessage: Option<string>)

  /** The error message agrees with the current text. */
  ghost predicate Consistent(cfg: Config, s: FieldState) {
    s.errorMessage == Validate(cfg, s.inputText)
  }

  /** A freshly created field: not focused, no error yet. */
  function Initial(inputText: string): (s: FieldState)
    ensures s.inputText == inputText && !s.isFocused && s.errorMessage == None
  {
    FieldState(inputText, false, None)
  }

  /** `.onAppear { validate() }`: the error is brought up to date; text and
      focus are untouched. */
  function OnAppear(cfg: Config, s: FieldState): (r: FieldState)
    ensures r.inputText == s.inputText && r.isFocused == s.isFocused
    ensures Consistent(cfg, r)
  {
    s.(errorMessage := Validate(cfg, s.inputText))
  }

  /** A write to the binding. `.onChange(of: inputText)` fires only when the
      value differs, so writing the same text leaves everything as it was. */
  function OnTextChange(cfg: Config, s: FieldState, newText: string): (r: FieldState)
    ensures r.inputText == newText && r.isFocused == s.isFocused
    ensures newText != s.inputText ==> r.errorMessage == Validate(cfg, newText)
    ensures newText == s.inputText ==> r == s
  {
    if newText == s.inputText then s
    else FieldState(newText, s.isFocused, Validate(cfg, newText))
  }

  /** The clear button's action, `inputText = ""`, followed by the change
      handler it triggers. */
  function OnClear(cfg: Config, s: FieldState): (r: FieldState)
    ensures r.inputText == [] && r.isFocused == s.isFocused
    ensures s.inputText != [] ==> r.errorMessage == Validate(cfg, [])
    ensures s.inputText == [] ==> r == s
  {
    OnTextChange(cfg, s, [])
  }

  /** The toolkit moves focus; nothing is re-validated. */
  function OnFocusChange(s: FieldState, focused: bool): (r: FieldState)
    ensures r.isFocused == focused
    ensures r.inputText == s.inputText && r.errorMessage == s.errorMessage
  {
    s.(isFocused := focused)
  }

  /** Once consistent, every event keeps the error message in step with the text. */
  lemma EventsPreserveConsistency(cfg: Config, s: FieldState, newText: string, focused: bool)
    requires Consistent(cfg, s)
    ensures Consistent(cfg, OnTextChange(cfg, s, newText))
    ensures Consistent(cfg, OnClear(cfg, s))
    ensures Consistent(cfg, OnFocusChange(s, focused))
    ensures Consistent(cfg, OnAppear(cfg, s))
  {
  }

  /** Clearing twice is clearing once. */
  lemma ClearIdempotent(cfg: Config, s: FieldState)
    ensures OnClear(cfg, OnClear(cfg, s)) == OnClear(cfg, s)
  {
  }

  // ---------------------------------------------------------------------
  // What `body` draws, as decisions over the state.

  /** The label of this field follows the shared floating rule. */
  function LabelPlacement(s: FieldState): (p: FloatingLabel.Placement)
    ensures p == FloatingLabel.Active <==> s.isFocused || |s.inputText| > 0
  {
    FloatingLabel.Place(s.isFocused, s.inputText)
  }

  /** `showClear && !inputText.isEmpty`. */
  predicate ClearButtonShown(cfg: Config, s: FieldState)
    ensures ClearButtonShown(cfg, s) <==> cfg.showClear && |s.inputText| > 0
  {
    cfg.showClear && s.inputText != []
  }

  /** `errorMessage == nil ? borderColor : .red`. */
  function StrokeColor(cfg: Config, s: FieldState): (c: Color)
    ensures c == Red || c == cfg.borderColor
    ensures s.errorMessage.Some? ==> c == Red
    ensures s.errorMessage.None? ==> c == cfg.borderColor
  {
    if s.errorMessage.None? then cfg.borderColor else Red
  }

  /** On a consistent field the outline is red exactly when validation
      rejects the text (red also when the configured colour is red), and a
      blank required field is always outlined in red. */
  lemma StrokeFollowsValidation(cfg: Config, s: FieldState)
    requires Consistent(cfg, s)
    ensures Validate(cfg, s.inputText).Some? ==> StrokeColor(cfg, s) == Red
    ensures Validate(cfg, s.inputText).None? ==> StrokeColor(cfg, s) == cfg.borderColor
    ensures cfg.isRequired && AllWhitespace(s.inputText) ==> StrokeColor(cfg, s) == Red
  {
  }

  /** After clearing, the clear button is gone, the label rests unless the
      field is focused, and the outline reflects the verdict on "". */
  lemma AfterClear(cfg: Config, s: FieldState)
    requires Consistent(cfg, s)
    ensures !ClearButtonShown(cfg, OnClear(cfg, s))
    ensures LabelPlacement(OnClear(cfg, s)) == if s.isFocused then FloatingLabel.Active else FloatingLabel.Resting
    ensures cfg.isRequired ==> StrokeColor(cfg, OnClear(cfg, s)) == Red
  {
  }

  /** With the clear-button option off the button never shows; with it on it
      shows exactly for non-empty text. */
  lemma ClearButtonRule(cfg: Config, s: FieldState)
    ensures !cfg.showClear ==> !ClearButtonShown(cfg, s)
    ensures cfg.showClear ==> (ClearButtonShown(cfg, s) <==> |s.inputText| > 0)
  {
  }

  // ---------------------------------------------------------------------
  // The installed field as an object whose state changes in place.

  class Field {
    const config: Config
    var isFocused: bool
    var errorMessage: Option<string>
    /** Whether `onAppear` has run. */
    ghost var appeared: bool

    function State(): FieldState
      reads this, config.inputText
    {
      FieldState(config.inputText.value, isFocused, errorMessage)
    }

    /** After appearing, the error message always matches the bound text. */
    ghost predicate Valid()
      reads this, config.inputText
    {
      appeared ==> Consistent(config, State())
    }

    constructor (config: Config)
      ensures this.config == config
      ensures State() == Initial(config.inputText.value)
      ensures !appeared && Valid()
    {
      this.config := config;
      isFocused := false;
      errorMessage := None;
      appeared := false;
    }

    method Appear()
      modifies this
      ensures appeared && Valid()
      ensures State() == OnAppear(config, old(State()))
    {
      errorMessage := Validate(config, config.inputText.value);
      appeared := true;
    }

    /** A keystroke, or any other write to the binding. */
    method SetText(newText: string)
      requires Valid()
      modifies this`errorMessage, config.inputText
      ensures Valid()
      ensures State() == OnTextChange(config, old(State()), newText)
    {
      var changed := newText != config.inputText.value;
      config.inputText.value := newText;
      if changed {
        errorMessage := Validate(config, newText);
      }
    }

    /** The clear button's action. */
    method Clear()
      requires Valid()
      modifies this`errorMessage, config.inputText
      ensures Valid()
      ensures State() == OnClear(config, old(State()))
    {
      SetText("");
    }

    method SetFocused(focused: bool)
      requires Valid()
      modifies this`isFocused
      ensures Valid()
      ensures State() == OnFocusChange(old(State()), focused)
    {
      isFocused := focused;
    }
  }

  /** A required field without a validator, starting from a single space:
      rejected on first display, accepted after typing "A", rejected again
      once the text is deleted, with the outline following the verdict. */
  lemma RequiredFieldScenario(binding: TextBinding)
    ensures var cfg := Create("Name", binding).IsRequired();
            var shown := OnAppear(cfg, Initial(" "));
            var typed := OnTextChange(cfg, shown, "A");
            var deleted := OnTextChange(cfg, typed, "");
            shown.errorMessage == Some(RequiredMessage) && StrokeColor(cfg, shown) == Red
            && typed.errorMessage == None && StrokeColor(cfg, typed) == Gray
            && deleted.errorMessage == Some(RequiredMessage) && StrokeColor(cfg, deleted) == Red
  {
  }
}
