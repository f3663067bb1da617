/**
 * `AnimatedInput`: a text field with a leading symbol, a focus highlight and,
 * for secret entry, an eye button that shows or hides the text.
 */
module AnimatedInput {
  import opened Wrappers

  const FocusedTint: string := "#FF6B6B"
  const ShowIcon: string := "eye.fill"
  const HideIcon: string := "eye.slash.fill"

  /** The text field hides its text exactly for secret entry that has not been revealed. */
  function HidesText(secureTextEntry: bool, secretVisible: bool): (hidden: bool)
    ensures hidden ==> secureTextEntry
    ensures secureTextEntry ==> (hidden <==> !secretVisible)
  {
    secureTextEntry && !secretVisible
  }

  /** The eye button's symbol, or `None` when there is no eye button. */
  function EyeIcon(secureTextEntry: bool, secretVisible: bool): (icon: Option<string>)
    ensures icon.Some? <==> secureTextEntry
    ensures icon.Some? ==> icon.value == (if secretVisible then HideIcon else ShowIcon)
  {
    if secureTextEntry then Some(if secretVisible then HideIcon else ShowIcon) else None
  }

  /** The leading symbol's tint: the brand colour while focused. */
  function IconTint(focused: bool, iconDefault: string): (tint: string)
    ensures focused ==> tint == FocusedTint
    ensures !focused ==> tint == iconDefault
  {
    if focused then FocusedTint else iconDefault
  }

  /** The eye shows "eye.fill" exactly while the text is hidden, and the slashed eye exactly while it is shown. */
  lemma EyeMatchesHiding(secureTextEntry: bool, secretVisible: bool)
    requires secureTextEntry
    ensures HidesText(secureTextEntry, secretVisible) <==> EyeIcon(secureTextEntry, secretVisible) == Some(ShowIcon)
    ensures !HidesText(secureTextEntry, secretVisible) <==> EyeIcon(secureTextEntry, secretVisible) == Some(HideIcon)
  {
  }

  /** The input's state: `focused`, `secretVisible` and the focus animation's target. */
  class InputState {
    const secureTextEntry: bool
    var focused: bool
    var secretVisible: bool
    var focusTarget: real

    /** A fresh input; `secureTextEntry` defaults to false. */
    constructor (secureTextEntry: Option<bool>)
      ensures this.secureTextEntry == secureTextEntry.GetOr(false)
      ensures !focused && !secretVisible && focusTarget == 0.0
    {
      this.secureTextEntry := secureTextEntry.GetOr(false);
      focused, secretVisible, focusTarget := false, false, 0.0;
    }

    /** Is there an eye button to press? */
    predicate HasEyeButton()
      reads this
    {
      EyeIcon(secureTextEntry, secretVisible).Some?
    }

    method HandleFocus()
      modifies this
      ensures focused && focusTarget == 1.0 && secretVisible == old(secretVisible)
    {
      focused := true;
      focusTarget := 1.0;
    }

    method HandleBlur()
      modifies this
      ensures !focused && focusTarget == 0.0 && secretVisible == old(secretVisible)
    {
      focused := false;
      focusTarget := 0.0;
    }

    /** The eye button's press; it exists only for secret entry. */
    method PressEye()
      requires HasEyeButton()
      modifies this
      ensures secretVisible == !old(secretVisible)
      ensures focused == old(focused) && focusTarget == old(focusTarget)
      ensures HidesText(secureTextEntry, secretVisible) == !HidesText(secureTextEntry, old(secretVisible))
    {
      secretVisible := !secretVisible;
    }
  }

  /** Two presses of the eye put the field back as it was. */
  method PressEyeTwice(input: InputState)
    requires input.HasEyeButton()
    modifies input
    ensures input.secretVisible == old(input.secretVisible) && input.focused == old(input.focused)
    ensures input.focusTarget == old(input.focusTarget)
  {
    input.PressEye();
    input.PressEye();
  }
}
