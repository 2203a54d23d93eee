/**
 * The control state of a UIKit control. `UIControl.State` is an option set;
 * the three flags the design system reads (highlighted, disabled, selected)
 * are kept, so that composite keys such as `[.selected, .disabled]` can be
 * written and compared like the single ones.
 */
module ControlStates {

  datatype ControlState = ControlState(highlighted: bool, disabled: bool, selected: bool)

  const Normal := ControlState(false, false, false)
  const Highlighted := ControlState(true, false, false)
  const Disabled := ControlState(false, true, false)
  const Selected := ControlState(false, false, true)

  /** The four single states a button can be in. */
  predicate IsSingle(s: ControlState) {
    s == Normal || s == Highlighted || s == Disabled || s == Selected
  }

  /**
   * `Button.state` / `NewButton.state`: selected wins over highlighted,
   * highlighted over disabled; an enabled control that is neither is normal.
   */
  function EffectiveState(isSelected: bool, isHighlighted: bool, isEnabled: bool): (s: ControlState)
    ensures IsSingle(s)
    ensures s == Selected <==> isSelected
    ensures s == Highlighted <==> !isSelected && isHighlighted
    ensures s == Normal <==> !isSelected && !isHighlighted && isEnabled
    ensures s == Disabled <==> !isSelected && !isHighlighted && !isEnabled
  {
    if isSelected then Selected
    else if isHighlighted then Highlighted
    else if isEnabled then Normal
    else Disabled
  }
}
