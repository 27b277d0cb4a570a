/**
 * `TextInputField`: a floating-placeholder text field styled from the
 * environment. Two environment keys decide whether it offers a clear button
 * and which colour its border takes while focused.
 */
module FloatingPlaceHolderTextField {
  import opened Colors
  import opened Bindings
  import FloatingLabel

  /** The file-level `borderColor`, used for the unfocused border. */
  const BorderColor: Color := SystemGray4

  // ---------------------------------------------------------------------
  // Environment values: a keyed store falling back to each key's default.

  /** The `EnvironmentKey` types this file declares. */
  datatype EnvKey = ClearButtonOnTextFieldKey | TextFieldBorderColorKey

  /** A stored value; each key holds values of one kind only. */
  datatype EnvValue = BoolValue(b: bool) | ColorValue(c: Color)

  /** `ClearButtonOnTextField.defaultValue` and `TextFieldBorderColor.defaultValue`. */
  function DefaultValue(key: EnvKey): (v: EnvValue)
    ensures Fits(key, v)
    ensures key == ClearButtonOnTextFieldKey ==> v == BoolValue(true)
    ensures key == TextFieldBorderColorKey ==> v == ColorValue(Cyan)
  {
    match key
    case ClearButtonOnTextFieldKey => BoolValue(true)
    case TextFieldBorderColorKey => ColorValue(Cyan)
  }

  /** Whether `v` has the value type of `key`. */
  predicate Fits(key: EnvKey, v: EnvValue) {
    match key
    case ClearButtonOnTextFieldKey => v.BoolValue?
    case TextFieldBorderColorKey => v.ColorValue?
  }

  /** Every stored value has its key's type, as the typed subscript ensures. */
  predicate WellTyped(store: map<EnvKey, EnvValue>) {
    forall k :: k in store ==> Fits(k, store[k])
  }

  /** `self[K.self]`: the stored value, or the key's default when none was set. */
  function Lookup(store: map<EnvKey, EnvValue>, key: EnvKey): (v: EnvValue)
    ensures key in store ==> v == store[key]
    ensures key !in store ==> v == DefaultValue(key)
    ensures WellTyped(store) ==> Fits(key, v)
  {
    if key in store then store[key] else DefaultValue(key)
  }

  /** The getter of `clearButtonOnTextField`. */
  function ReadClearButtonOnTextField(store: map<EnvKey, EnvValue>): (flag: bool)
    requires WellTyped(store)
    ensures ClearButtonOnTextFieldKey !in store ==> flag
    ensures ClearButtonOnTextFieldKey in store ==> store[ClearButtonOnTextFieldKey] == BoolValue(flag)
  {
    Lookup(store, ClearButtonOnTextFieldKey).b
  }

  /** The getter of `textFieldBorderColor`. */
  function ReadTextFieldBorderColor(store: map<EnvKey, EnvValue>): (color: Color)
    requires WellTyped(store)
    ensures TextFieldBorderColorKey !in store ==> color == Cyan
    ensures TextFieldBorderColorKey in store ==> store[TextFieldBorderColorKey] == ColorValue(color)
  {
    Lookup(store, TextFieldBorderColorKey).c
  }

  /** The setter of `clearButtonOnTextField`. */
  function WriteClearButtonOnTextField(store: map<EnvKey, EnvValue>, newValue: bool): (r: map<EnvKey, EnvValue>)
    requires WellTyped(store)
    ensures WellTyped(r)
    ensures r.Keys == store.Keys + {ClearButtonOnTextFieldKey}
  {
    store[ClearButtonOnTextFieldKey := BoolValue(newValue)]
  }

  /** The setter of `textFieldBorderColor`. */
  function WriteTextFieldBorderColor(store: map<EnvKey, EnvValue>, newValue: Color): (r: map<EnvKey, EnvValue>)
    requires WellTyped(store)
    ensures WellTyped(r)
    ensures r.Keys == store.Keys + {TextFieldBorderColorKey}
  {
    store[TextFieldBorderColorKey := ColorValue(newValue)]
  }

  /** With nothing set, the clear button is on and the focus border is cyan. */
  lemma Defaults()
    ensures ReadClearButtonOnTextField(map[]) == true
    ensures ReadTextFieldBorderColor(map[]) == Cyan
  {
  }

  /** Reading after setting gives the value set; setting one key leaves the
      other key's value as it was. */
  lemma ReadAfterWrite(store: map<EnvKey, EnvValue>, flag: bool, color: Color)
    requires WellTyped(store)
    ensures ReadClearButtonOnTextField(WriteClearButtonOnTextField(store, flag)) == flag
    ensures ReadTextFieldBorderColor(WriteClearButtonOnTextField(store, flag)) == ReadTextFieldBorderColor(store)
    ensures ReadTextFieldBorderColor(WriteTextFieldBorderColor(store, color)) == color
    ensures ReadClearButtonOnTextField(WriteTextFieldBorderColor(store, color)) == ReadClearButtonOnTextField(store)
  {
  }

  /** Setting the two keys in either order gives the same environment;
      setting one key twice keeps the second value. */
  lemma WritesCommute(store: map<EnvKey, EnvValue>, flag: bool, flag': bool, color: Color, color': Color)
    requires WellTyped(store)
    ensures WriteTextFieldBorderColor(WriteClearButtonOnTextField(store, flag), color)
         == WriteClearButtonOnTextField(WriteTextFieldBorderColor(store, color), flag)
    ensures WriteClearButtonOnTextField(WriteClearButtonOnTextField(store, flag), flag')
         == WriteClearButtonOnTextField(store, flag')
    ensures WriteTextFieldBorderColor(WriteTextFieldBorderColor(store, color), color')
         == WriteTextFieldBorderColor(store, color')
  {
  }

  /** `EnvironmentValues` holding the two keys; the setters change it in place. */
  class EnvironmentValues {
    var store: map<EnvKey, EnvValue>

    ghost predicate Valid()
      reads this
    {
      WellTyped(store)
    }

    /** An environment in which nothing has been set. */
    constructor ()
      ensures Valid() && store == map[]
    {
      store := map[];
    }

    function ClearButtonOnTextField(): (flag: bool)
      reads this
      requires Valid()
      ensures ClearButtonOnTextFieldKey !in store ==> flag
      ensures ClearButtonOnTextFieldKey in store ==> store[ClearButtonOnTextFieldKey] == BoolValue(flag)
    {
      ReadClearButtonOnTextField(store)
    }

    function TextFieldBorderColor(): (color: Color)
      reads this
      requires Valid()
      ensures TextFieldBorderColorKey !in store ==> color == Cyan
      ensures TextFieldBorderColorKey in store ==> store[TextFieldBorderColorKey] == ColorValue(color)
    {
      ReadTextFieldBorderColor(store)
    }

    method SetClearButtonOnTextField(newValue: bool)
      requires Valid()
      modifies this
      ensures Valid()
      ensures store == WriteClearButtonOnTextField(old(store), newValue)
      ensures ClearButtonOnTextField() == newValue
      ensures TextFieldBorderColor() == old(TextFieldBorderColor())
    {
      store := WriteClearButtonOnTextField(store, newValue);
      ReadAfterWrite(old(store), newValue, Cyan);
    }

    method SetTextFieldBorderColor(newValue: Color)
      requires Valid()
      modifies this
      ensures Valid()
      ensures store == WriteTextFieldBorderColor(old(store), newValue)
      ensures TextFieldBorderColor() == newValue
      ensures ClearButtonOnTextField() == old(ClearButtonOnTextField())
    {
      store := WriteTextFieldBorderColor(store, newValue);
      ReadAfterWrite(old(store), true, newValue);
    }
  }

  // ---------------------------------------------------------------------
  // What `TextInputField` draws, as decisions over its state.

  /** The bound text and the `@FocusState` flag. */
  datatype InputState = InputState(inputText: string, isFocused: bool)

  /** The label of this field follows the shared floating rule. */
  function LabelPlacement(s: InputState): (p: FloatingLabel.Placement)
    ensures p == FloatingLabel.Active <==> s.isFocused || |s.inputText| > 0
  {
    FloatingLabel.Place(s.isFocused, s.inputText)
  }

  /** `isFocused ? textFieldBorderColor : Color(borderColor)`. */
  function FieldBorder(s: InputState, store: map<EnvKey, EnvValue>): (color: Color)
    requires WellTyped(store)
    ensures s.isFocused ==> color == ReadTextFieldBorderColor(store)
    ensures !s.isFocused ==> color == BorderColor
  {
    if s.isFocused then ReadTextFieldBorderColor(store) else BorderColor
  }

  /** `!inputText.isEmpty && clearButtonOnTextField`. */
  predicate ClearButtonShown(s: InputState, store: map<EnvKey, EnvValue>)
    requires WellTyped(store)
    ensures ClearButtonShown(s, store) <==> |s.inputText| > 0 && ReadClearButtonOnTextField(store)
  {
    s.inputText != [] && ReadClearButtonOnTextField(store)
  }

  /** The clear button's action: the text becomes empty, focus is untouched. */
  function OnClear(s: InputState): (r: InputState)
    ensures r.inputText == [] && r.isFocused == s.isFocused
  {
    s.(inputText := [])
  }

  /** The focused border follows the environment (cyan unless overridden);
      the unfocused border is the fixed module colour whatever the environment says. */
  lemma BorderRule(s: InputState, store: map<EnvKey, EnvValue>, color: Color)
    requires WellTyped(store)
    ensures s.isFocused ==> FieldBorder(s, WriteTextFieldBorderColor(store, color)) == color
    ensures s.isFocused ==> FieldBorder(s, map[]) == Cyan
    ensures !s.isFocused ==> FieldBorder(s, store) == BorderColor
    ensures !s.isFocused ==> FieldBorder(s, WriteTextFieldBorderColor(store, color)) == FieldBorder(s, store)
  {
  }

  /** Turning the flag off hides the button for every text; by default the
      button shows exactly for non-empty text. */
  lemma ClearButtonRule(s: InputState, store: map<EnvKey, EnvValue>)
    requires WellTyped(store)
    ensures !ClearButtonShown(s, WriteClearButtonOnTextField(store, false))
    ensures ClearButtonShown(s, map[]) <==> |s.inputText| > 0
  {
  }

  /** Clearing twice is clearing once; afterwards the button is hidden and
      the label rests unless the field is focused. */
  lemma AfterClear(s: InputState, store: map<EnvKey, EnvValue>)
    requires WellTyped(store)
    ensures OnClear(OnClear(s)) == OnClear(s)
    ensures !ClearButtonShown(OnClear(s), store)
    ensures LabelPlacement(OnClear(s)) == if s.isFocused then FloatingLabel.Active else FloatingLabel.Resting
  {
  }

  /** The installed field: its binding, focus flag and the environment it reads. */
  class TextInputField {
    const placeholder: string
    const inputText: TextBinding
    const environment: EnvironmentValues
    var isFocused: bool

    function State(): InputState
      reads this, inputText
    {
      InputState(inputText.value, isFocused)
    }

    /** The border as drawn: the ambient colour of this field's environment
        while focused, the file-level colour otherwise. */
    function Border(): (color: Color)
      reads this, inputText, environment
      requires environment.Valid()
      ensures isFocused ==> color == environment.TextFieldBorderColor()
      ensures !isFocused ==> color == BorderColor
    {
      FieldBorder(State(), environment.store)
    }

    /** Whether the clear button is drawn, from the text and this field's environment. */
    predicate ClearButtonVisible()
      reads this, inputText, environment
      requires environment.Valid()
      ensures ClearButtonVisible() <==> inputText.value != [] && environment.ClearButtonOnTextField()
    {
      ClearButtonShown(State(), environment.store)
    }

    constructor (text: string, inputText: TextBinding, environment: EnvironmentValues)
      ensures placeholder == text && this.inputText == inputText && this.environment == environment
      ensures State() == InputState(inputText.value, false)
    {
      placeholder := text;
      this.inputText := inputText;
      this.environment := environment;
      isFocused := false;
    }

    /** The clear button's action writes "" through the binding and nothing else. */
    method Clear()
      modifies inputText
      ensures State() == OnClear(old(State()))
      ensures unchanged(this) && unchanged(environment)
    {
      inputText.value := "";
    }

    method SetFocused(focused: bool)
      modifies this`isFocused
      ensures State() == old(State()).(isFocused := focused)
    {
      isFocused := focused;
    }
  }

  /** With the default environment the button shows for typed text; turning
      the flag off hides it at once; once focused the border is the default
      cyan; clearing empties the text and the focused label stays raised. */
  method ClearButtonScenario() {
    var env := new EnvironmentValues();
    var binding := new TextBinding("abc");
    var field := new TextInputField("Email", binding, env);
    assert field.ClearButtonVisible();
    assert !field.isFocused ==> field.Border() == BorderColor;
    env.SetClearButtonOnTextField(false);
    assert !field.ClearButtonVisible();
    field.SetFocused(true);
    assert field.Border() == Cyan;
    field.Clear();
    assert binding.value == "";
    assert LabelPlacement(field.State()) == FloatingLabel.Active;
  }
}
