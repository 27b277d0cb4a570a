# FloatingPlaceHolderTextField — a Dafny model of its decision logic

The package provides two SwiftUI text fields with a floating placeholder:

- `CutomTextInputField` (`SimpleTextField.swift`) validates itself.
- `TextInputField` (`FloatingPlaceHolderTextField.swift`) is styled from the environment.

This project models the logic under their views, with rendering abstracted away.

- **Label rule** (module `FloatingLabel`, used by both fields). The label is *active* when the field is focused or non-empty: offset -45, scale 0.5. Otherwise it *rests*: offset 0, scale 1.
- **Trimming** (module `Whitespace`). `trimmingCharacters(in: .whitespaces)` removes whitespace from both ends. Whitespace here is Unicode category Zs plus tab; newline is excluded. The model proves that the trimmed text is the text between the outer whitespace runs, that trimming is idempotent, and that trimming leaves nothing iff every character is whitespace.
- **Self-validating field** (module `SimpleTextField`).
  - `Config` is the view value: placeholder, binding and the five options. The modifiers return copies with one field replaced.
  - `Validate` is `validate()`: the required check on trimmed text comes first and short-circuits the custom validator. The validator sees untrimmed text.
  - The field's life is a snapshot `FieldState` (text, focus, error). Pure transitions model `onAppear`, `onChange(of:)`, the clear action and focus moves.
  - The class `Field` holds the state in place. Each method's postcondition ties the new `State()` to the matching transition of the old state. Its invariant says that after appearing, the error always equals `Validate` of the bound text under the configuration the field was installed with.
  - The clear-button, border-stroke and label choices are predicates over the state.
- **Environment-styled field** (module `FloatingPlaceHolderTextField`).
  - `EnvironmentValues` is a key-to-value map. Each key falls back to its `defaultValue`: `true` for the clear-button flag, cyan for the border colour.
  - Its setters change the map in place.
  - `TextInputField` reads its environment's map to choose its focused border colour and whether to show the clear button. Its clear action writes `""` through the binding and touches nothing else.
- **Binding** (module `Bindings`). The caller-owned bound text is a `TextBinding` object, so writes go through to the caller.

Two behaviours of the code worth noting, both kept in the model:

- `validate()` runs the required check first, so for blank text it masks the custom validator (`SimpleTextField.swift:126-129`). The model keeps that order.
- The unfocused border of `TextInputField` is the file-level `borderColor`, which is `systemGray4` under UIKit.

## Model

| member | source | states |
|---|---|---|
| `Bindings.TextBinding.constructor` | Sources/FloatingPlaceHolderTextField/SimpleTextField.swift:13 | a binding holds the caller's text as given |
| `Whitespace.IsWhitespace` | Sources/FloatingPlaceHolderTextField/SimpleTextField.swift:126 | membership in `.whitespaces`: space and tab are in; line feed and carriage return are not |
| `Whitespace.TrimStart` | Sources/FloatingPlaceHolderTextField/SimpleTextField.swift:126 | the result is a suffix of the input that does not start with whitespace; everything removed is whitespace |
| `Whitespace.TrimEnd` | Sources/FloatingPlaceHolderTextField/SimpleTextField.swift:126 | the result is a prefix of the input that does not end with whitespace; everything removed is whitespace |
| `Whitespace.Trim` | Sources/FloatingPlaceHolderTextField/SimpleTextField.swift:126 | `trimmingCharacters(in: .whitespaces)`: the result is no longer than the input and neither starts nor ends with whitespace; `TrimIsInfix`, `TrimEmptyIff` and `TrimIdempotent` state the rest |
| `Whitespace.TrimIsInfix` | Sources/FloatingPlaceHolderTextField/SimpleTextField.swift:126 | trimmed text is a contiguous part of the input, with only whitespace before and after it |
| `Whitespace.TrimEmptyIff` | Sources/FloatingPlaceHolderTextField/SimpleTextField.swift:126 | `trimmingCharacters(in: .whitespaces).isEmpty` holds iff all characters are whitespace, in both directions, "" included |
| `Whitespace.TrimIdempotent` | Sources/FloatingPlaceHolderTextField/SimpleTextField.swift:126 | trimming twice equals trimming once |
| `Whitespace.NewlineIsNotBlank` | Sources/FloatingPlaceHolderTextField/SimpleTextField.swift:126 | a newline is not in `.whitespaces` and survives trimming; space and tab are removed |
| `FloatingLabel.Place` | Sources/FloatingPlaceHolderTextField/FloatingPlaceHolderTextField.swift:37-44 | focus alone, or non-empty text alone, activates the label; it rests when unfocused and empty |
| `FloatingLabel.OffsetY` | Sources/FloatingPlaceHolderTextField/SimpleTextField.swift:38 | offset -45 when active, 0 at rest; `LabelGeometry` composes it with `Place` |
| `FloatingLabel.Scale` | Sources/FloatingPlaceHolderTextField/SimpleTextField.swift:39-45 | scale 0.5 when active, 1 at rest; `LabelGeometry` composes it with `Place` |
| `FloatingLabel.LabelGeometry` | Sources/FloatingPlaceHolderTextField/SimpleTextField.swift:38-45 | focused or non-empty gives offset -45 and scale 0.5; otherwise offset 0 and scale 1 |
| `SimpleTextField.Create` | Sources/FloatingPlaceHolderTextField/SimpleTextField.swift:16-30 | a new field keeps placeholder and binding; defaults are gray border, radius 8, no clear button, not required, no validator |
| `SimpleTextField.Config.BorderColor` | Sources/FloatingPlaceHolderTextField/SimpleTextField.swift:81-85 | the copy has the new border colour; every other field, placeholder and binding included, is unchanged |
| `SimpleTextField.Config.CornerRadius` | Sources/FloatingPlaceHolderTextField/SimpleTextField.swift:87-91 | the copy has the new radius and no other change |
| `SimpleTextField.Config.ShowClearButton` | Sources/FloatingPlaceHolderTextField/SimpleTextField.swift:93-97 | the copy has the new clear-button flag and no other change |
| `SimpleTextField.Config.Validation` | Sources/FloatingPlaceHolderTextField/SimpleTextField.swift:99-103 | the copy carries the given validator and no other change |
| `SimpleTextField.Config.IsRequired` | Sources/FloatingPlaceHolderTextField/SimpleTextField.swift:105-109 | the copy has the given required flag (default `true`) and no other change |
| `SimpleTextField.ModifiersCommute` | Sources/FloatingPlaceHolderTextField/SimpleTextField.swift:81-109 | for all ten pairs of different modifiers, the order of the two calls does not matter |
| `SimpleTextField.LastModifierWins` | Sources/FloatingPlaceHolderTextField/SimpleTextField.swift:81-109 | for each of the five modifiers, two calls equal the later call alone; `isRequired()` equals `isRequired(true)` |
| `SimpleTextField.Validate` | Sources/FloatingPlaceHolderTextField/SimpleTextField.swift:125-133 | required and all-whitespace gives exactly "This field is required"; otherwise a configured validator's result on the untrimmed text, `nil` included; otherwise `nil` |
| `SimpleTextField.RequiredShortCircuits` | Sources/FloatingPlaceHolderTextField/SimpleTextField.swift:126-129 | for a required, blank text, the configured validator never affects the error |
| `SimpleTextField.ContentSatisfiesRequired` | Sources/FloatingPlaceHolderTextField/SimpleTextField.swift:126-131 | without a validator, text with any non-whitespace character (a lone newline too) has no error |
| `SimpleTextField.StylingDoesNotAffectValidation` | Sources/FloatingPlaceHolderTextField/SimpleTextField.swift:125-133 | border colour, radius and clear flag never change the validation verdict |
| `SimpleTextField.Initial` | Sources/FloatingPlaceHolderTextField/SimpleTextField.swift:12-22 | a new field is unfocused and has no error |
| `SimpleTextField.OnAppear` | Sources/FloatingPlaceHolderTextField/SimpleTextField.swift:74-76 | appearing makes the error agree with the text; text and focus are unchanged |
| `SimpleTextField.OnTextChange` | Sources/FloatingPlaceHolderTextField/SimpleTextField.swift:52-54 | a new value is stored and validated; writing the same value changes nothing, because `onChange` does not fire |
| `SimpleTextField.OnClear` | Sources/FloatingPlaceHolderTextField/SimpleTextField.swift:113-116 | text becomes "" and focus is kept; from non-empty text the error becomes `Validate` of ""; from "" nothing changes |
| `SimpleTextField.OnFocusChange` | Sources/FloatingPlaceHolderTextField/SimpleTextField.swift:49-50 | only the focus flag changes; nothing is re-validated |
| `SimpleTextField.EventsPreserveConsistency` | Sources/FloatingPlaceHolderTextField/SimpleTextField.swift:49-76 | once the error matches the text, every event keeps it matching |
| `SimpleTextField.ClearIdempotent` | Sources/FloatingPlaceHolderTextField/SimpleTextField.swift:115 | clearing twice equals clearing once |
| `SimpleTextField.LabelPlacement` | Sources/FloatingPlaceHolderTextField/SimpleTextField.swift:38-45 | the label of this field is active iff focused or non-empty (see `AfterClear`) |
| `SimpleTextField.ClearButtonShown` | Sources/FloatingPlaceHolderTextField/SimpleTextField.swift:56-58 | the clear button shows iff `showClear` and the text is non-empty (see `ClearButtonRule`) |
| `SimpleTextField.StrokeColor` | Sources/FloatingPlaceHolderTextField/SimpleTextField.swift:61-64 | the stroke is red when an error is present, otherwise the configured colour (see `StrokeFollowsValidation`) |
| `SimpleTextField.StrokeFollowsValidation` | Sources/FloatingPlaceHolderTextField/SimpleTextField.swift:61-64 | on a consistent field the stroke is red when validation reports an error and the configured colour otherwise; blank and required is always red |
| `SimpleTextField.AfterClear` | Sources/FloatingPlaceHolderTextField/SimpleTextField.swift:38-63 | after clearing, the clear button is hidden; the label rests unless focused; a required field is outlined red |
| `SimpleTextField.ClearButtonRule` | Sources/FloatingPlaceHolderTextField/SimpleTextField.swift:56-58 | with the option off the button never shows; with it on, it shows iff the text is non-empty |
| `SimpleTextField.RequiredFieldScenario` | Sources/FloatingPlaceHolderTextField/SimpleTextField.swift:52-133 | a required field with no validator, starting at " ": required error and red outline on first display; no error and gray outline after typing "A"; the required error again after deleting back to "" |
| `SimpleTextField.Field.constructor` | Sources/FloatingPlaceHolderTextField/SimpleTextField.swift:24-30 | the installed field starts unfocused, without error, not yet appeared |
| `SimpleTextField.Field.Appear` | Sources/FloatingPlaceHolderTextField/SimpleTextField.swift:74-76 | the new state is `OnAppear` of the old state, and the error invariant holds from then on |
| `SimpleTextField.Field.SetText` | Sources/FloatingPlaceHolderTextField/SimpleTextField.swift:49-54 | writes through the binding; the new state is `OnTextChange` of the old; the invariant is kept |
| `SimpleTextField.Field.Clear` | Sources/FloatingPlaceHolderTextField/SimpleTextField.swift:113-116 | the new state is `OnClear` of the old; the invariant is kept |
| `SimpleTextField.Field.SetFocused` | Sources/FloatingPlaceHolderTextField/SimpleTextField.swift:49-50 | only the focus flag changes |
| `FloatingPlaceHolderTextField.DefaultValue` | Sources/FloatingPlaceHolderTextField/FloatingPlaceHolderTextField.swift:97-128 | the clear-button key defaults to `true` and the border key to cyan; each default has its key's value type |
| `FloatingPlaceHolderTextField.Lookup` | Sources/FloatingPlaceHolderTextField/FloatingPlaceHolderTextField.swift:104-110 | a key that is set reads as its stored value; a key never set reads as its default; on a well-typed store, every read has the key's type |
| `FloatingPlaceHolderTextField.ReadClearButtonOnTextField` | Sources/FloatingPlaceHolderTextField/FloatingPlaceHolderTextField.swift:104-106 | the getter returns the stored flag, or `true` when none is stored |
| `FloatingPlaceHolderTextField.ReadTextFieldBorderColor` | Sources/FloatingPlaceHolderTextField/FloatingPlaceHolderTextField.swift:132-134 | the getter returns the stored colour, or cyan when none is stored |
| `FloatingPlaceHolderTextField.WriteClearButtonOnTextField` | Sources/FloatingPlaceHolderTextField/FloatingPlaceHolderTextField.swift:107-109 | setting the flag keeps the store well typed and adds only that key |
| `FloatingPlaceHolderTextField.WriteTextFieldBorderColor` | Sources/FloatingPlaceHolderTextField/FloatingPlaceHolderTextField.swift:135-137 | setting the colour keeps the store well typed and adds only that key |
| `FloatingPlaceHolderTextField.Defaults` | Sources/FloatingPlaceHolderTextField/FloatingPlaceHolderTextField.swift:97-128 | with no override, `clearButtonOnTextField` is true and `textFieldBorderColor` is cyan |
| `FloatingPlaceHolderTextField.ReadAfterWrite` | Sources/FloatingPlaceHolderTextField/FloatingPlaceHolderTextField.swift:103-139 | reading after a set returns the value set; setting one key leaves the other's value unchanged |
| `FloatingPlaceHolderTextField.WritesCommute` | Sources/FloatingPlaceHolderTextField/FloatingPlaceHolderTextField.swift:103-139 | setting the two keys commutes; setting either key twice keeps the last value |
| `FloatingPlaceHolderTextField.EnvironmentValues.constructor` | Sources/FloatingPlaceHolderTextField/FloatingPlaceHolderTextField.swift:22-23 | an environment with nothing set |
| `FloatingPlaceHolderTextField.EnvironmentValues.ClearButtonOnTextField` | Sources/FloatingPlaceHolderTextField/FloatingPlaceHolderTextField.swift:104-106 | reads the stored flag; while this key is unset it reads `true`, whatever the other key holds |
| `FloatingPlaceHolderTextField.EnvironmentValues.TextFieldBorderColor` | Sources/FloatingPlaceHolderTextField/FloatingPlaceHolderTextField.swift:132-134 | reads the stored colour; while this key is unset it reads cyan, whatever the other key holds |
| `FloatingPlaceHolderTextField.EnvironmentValues.SetClearButtonOnTextField` | Sources/FloatingPlaceHolderTextField/FloatingPlaceHolderTextField.swift:107-109 | the getter then returns the new flag; the border colour reads as before |
| `FloatingPlaceHolderTextField.EnvironmentValues.SetTextFieldBorderColor` | Sources/FloatingPlaceHolderTextField/FloatingPlaceHolderTextField.swift:135-137 | the getter then returns the new colour; the clear flag reads as before |
| `FloatingPlaceHolderTextField.OnClear` | Sources/FloatingPlaceHolderTextField/FloatingPlaceHolderTextField.swift:71-73 | the clear action empties the text and keeps focus |
| `FloatingPlaceHolderTextField.LabelPlacement` | Sources/FloatingPlaceHolderTextField/FloatingPlaceHolderTextField.swift:37-44 | the label of this field is active iff focused or non-empty (see `AfterClear`) |
| `FloatingPlaceHolderTextField.FieldBorder` | Sources/FloatingPlaceHolderTextField/FloatingPlaceHolderTextField.swift:52-55 | focused uses the ambient border colour; unfocused uses the file-level `borderColor` (see `BorderRule`) |
| `FloatingPlaceHolderTextField.ClearButtonShown` | Sources/FloatingPlaceHolderTextField/FloatingPlaceHolderTextField.swift:69 | shown iff the text is non-empty and the ambient flag is true (see `ClearButtonRule`) |
| `FloatingPlaceHolderTextField.BorderRule` | Sources/FloatingPlaceHolderTextField/FloatingPlaceHolderTextField.swift:52-57 | focused uses the ambient colour (cyan by default); unfocused uses the fixed module colour, whatever the environment says |
| `FloatingPlaceHolderTextField.ClearButtonRule` | Sources/FloatingPlaceHolderTextField/FloatingPlaceHolderTextField.swift:69 | the ambient flag set false hides the button for every text; by default it shows iff the text is non-empty |
| `FloatingPlaceHolderTextField.AfterClear` | Sources/FloatingPlaceHolderTextField/FloatingPlaceHolderTextField.swift:37-72 | clearing is idempotent; it hides the clear button; the label then rests unless focused |
| `FloatingPlaceHolderTextField.TextInputField.constructor` | Sources/FloatingPlaceHolderTextField/FloatingPlaceHolderTextField.swift:25-28 | keeps placeholder, binding and environment; starts unfocused |
| `FloatingPlaceHolderTextField.TextInputField.Border` | Sources/FloatingPlaceHolderTextField/FloatingPlaceHolderTextField.swift:52-55 | the border drawn reads this field's environment: its `textFieldBorderColor` when focused, the file-level colour otherwise |
| `FloatingPlaceHolderTextField.TextInputField.ClearButtonVisible` | Sources/FloatingPlaceHolderTextField/FloatingPlaceHolderTextField.swift:69 | the clear button is drawn iff the bound text is non-empty and this field's environment has `clearButtonOnTextField` true |
| `FloatingPlaceHolderTextField.TextInputField.Clear` | Sources/FloatingPlaceHolderTextField/FloatingPlaceHolderTextField.swift:71-73 | writes "" through the binding; the field (focus included) and the environment are unchanged |
| `FloatingPlaceHolderTextField.TextInputField.SetFocused` | Sources/FloatingPlaceHolderTextField/FloatingPlaceHolderTextField.swift:47-48 | only the focus flag changes |

The client method `FloatingPlaceHolderTextField.ClearButtonScenario` uses only the contracts. It covers the default clear button, an override that hides it, and a clear.

## Left out

- Rendering and layout are not modelled: stacks, padding (including the focused trailing padding at `FloatingPlaceHolderTextField.swift:50`), fonts, the `xmark` image and overlay alignment. Only the boolean choices between alternatives are kept.
- The error caption under the box (`SimpleTextField.swift:66-71`) shows `errorMessage` as it is. The model keeps the message itself and nothing of the caption's layout.
- The `.animation(.easeOut, value: isFocused)` modifiers are not modelled. The animation curve and what triggers it are presentation policy.
- The focus system (`@FocusState`, `.focused`) is not modelled; `SetFocused` stands in for it. The toolkit decides when focus changes.
- `CGFloat`/`CGSize` are not modelled. The radius and the label constants are `real` values, and no arithmetic is done on them. Both scale components are equal (0.5 or 1), so the scale is a single number.
- Colours are an opaque datatype. The `#if canImport(UIKit)` switch at `FloatingPlaceHolderTextField.swift:7-13` is not modelled: the file-level `borderColor` is the UIKit choice, `systemGray4`, and the macOS `gray` branch is left out.
- The view modifiers `.clearButtonOnTextField(_:)` and `.textFieldBorderColor(_:)` (`FloatingPlaceHolderTextField.swift:91-93`, `120-122`) are not modelled. Neither is SwiftUI's propagation of environment values to descendant views. Only the per-key get and set on one `EnvironmentValues`, with defaults, is modelled. A field reads the `EnvironmentValues` object it is given.
- Caller validators are total, deterministic Dafny functions. A validator that traps or never returns does not exist in the model.
- `Whitespace.IsWhitespace` is the Zs list known today plus tab. Trimming works on Unicode scalar values, not on Swift's grapheme clusters.
- SimpleTextField.OnTextChange: a write counts as "the same text" only when it is the same sequence of Unicode scalars. Swift's `String ==`, which `.onChange(of:)` uses, compares by canonical equivalence. So rewriting "\u{E9}" as "e\u{301}" re-validates in the model but does not fire the handler in the source; a validator that counts scalars then leaves the source with a stale error. Unicode normalisation is not modelled.
- SimpleTextField.Field.SetText: inherits the scalar-equality trigger of `OnTextChange` described above. For canonically equal but different text it re-validates where the source does not, so the invariant `Valid()` is stronger than what the source keeps.
- SimpleTextField.Field: the configuration is fixed when the field is installed. SwiftUI can rebuild the view value with a different modifier chain, for instance `.isRequired(flag)` with a new flag. The `@State` error message persists through that, and neither `onAppear` nor `onChange(of: inputText)` runs. So the source can then show an error computed under the old configuration. The model's claim that the error equals `Validate` holds only for the configuration the field was installed with.
- The invariant of `SimpleTextField.Field` covers writes that go through `SetText` or `Clear`. Those are the writes the `onChange` handler sees. Aliasing is not modelled: two fields sharing one binding, or a caller writing to the binding behind the field's back.
