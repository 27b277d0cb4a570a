/**
 * The floating-placeholder rule that both text fields apply to their label:
 * the label rests inside the box at full size, or moves up and shrinks to
 * half size once the field is focused or holds text.
 */
module FloatingLabel {

  datatype Placement = Resting | Active

  /** Vertical offset of the label, in points, in each placement. */
  const ActiveOffsetY: real := -45.0
  const RestingOffsetY: real := 0.0

  /** Scale factor of the label (the same on both axes) in each placement. */
  const ActiveScale: real := 0.5
  const RestingScale: real := 1.0

  /** `isFocused || !inputText.isEmpty` chooses the active placement: either
      input on its own raises the label, whatever the other one is, and the
      label rests only when the field is unfocused and empty. */
  function Place(isFocused: bool, inputText: string): (p: Placement)
    ensures isFocused ==> p == Active
    ensures |inputText| > 0 ==> p == Active
    ensures !isFocused && inputText == [] ==> p == Resting
  {
    if isFocused || inputText != [] then Active else Resting
  }

  function OffsetY(p: Placement): (y: real)
    ensures p == Active ==> y == -45.0
    ensures p == Resting ==> y == 0.0
  {
    match p
    case Active => ActiveOffsetY
    case Resting => RestingOffsetY
  }

  function Scale(p: Placement): (k: real)
    ensures p == Active ==> k == 0.5
    ensures p == Resting ==> k == 1.0
  {
    match p
    case Active => ActiveScale
    case Resting => RestingScale
  }

  /** The label is raised (offset -45, scale 0.5) when the field is focused or
      non-empty, and rests (offset 0, scale 1) only when it is neither. */
  lemma LabelGeometry(isFocused: bool, inputText: string)
    ensures isFocused || inputText != [] ==>
      OffsetY(Place(isFocused, inputText)) == -45.0 && Scale(Place(isFocused, inputText)) == 0.5
    ensures !isFocused && inputText == [] ==>
      OffsetY(Place(isFocused, inputText)) == 0.0 && Scale(Place(isFocused, inputText)) == 1.0
  {
  }
}
