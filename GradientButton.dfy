/**
 * The shared gradient button: when a press reaches its handler, how faded
 * it looks, what it says, and the scale its press-in and press-out set.
 */
module GradientButton {
  import opened Wrappers
  import ThemeConstants

  const DefaultLoadingText: string := "Loading..."
  const DisabledOpacity: real := 0.5
  const PressedScale: real := 0.97
  const RestScale: real := 1.0

  /** The button's props once destructuring defaults are applied. */
  datatype Props = Props(disabled: bool, loading: bool, loadingText: string, icon: Option<string>, children: string)

  /** Destructuring with defaults: a prop left undefined takes its default. */
  function WithDefaults(disabled: Option<bool>, loading: Option<bool>, loadingText: Option<string>,
                        icon: Option<string>, children: string): (p: Props)
    ensures disabled.None? ==> !p.disabled
    ensures loading.None? ==> !p.loading
    ensures loadingText.None? ==> p.loadingText == DefaultLoadingText
    ensures disabled.Some? ==> p.disabled == disabled.value
    ensures loading.Some? ==> p.loading == loading.value
    ensures loadingText.Some? ==> p.loadingText == loadingText.value
    ensures p.icon == icon && p.children == children
  {
    Props(disabled.GetOr(false), loading.GetOr(false), loadingText.GetOr(DefaultLoadingText), icon, children)
  }

  /** What the gradient shows: one text and, beside it, an optional symbol. */
  datatype Content = Content(text: string, icon: Option<string>)

  /** The rendered button: gradient, target opacity, whether a press is delivered, content. */
  datatype View = View(gradient: seq<string>, opacity: real, pressEnabled: bool, content: Content)

  function Render(p: Props): (v: View)
    ensures v.gradient == ThemeConstants.Gradients.button
    ensures v.pressEnabled <==> !p.disabled && !p.loading
    ensures v.opacity == (if v.pressEnabled then 1.0 else DisabledOpacity)
    ensures p.loading ==> v.content == Content(p.loadingText, None)
    ensures !p.loading ==> v.content.text == p.children
    ensures !p.loading ==> (v.content.icon.Some? <==> p.icon.Some? && p.icon.value != "")
    ensures v.content.icon.Some? ==> v.content.icon == p.icon
  {
    var isDisabled := p.disabled || p.loading;
    var content :=
      if p.loading then Content(p.loadingText, None)
      else Content(p.children, if p.icon.Some? && p.icon.value != "" then p.icon else None);
    View(ThemeConstants.Gradients.button, if isDisabled then DisabledOpacity else 1.0, !isDisabled, content)
  }

  /** A button built with every optional prop left out is enabled and shows its children. */
  lemma DefaultsEnable(children: string)
    ensures var v := Render(WithDefaults(None, None, None, None, children));
            v.pressEnabled && v.opacity == 1.0 && v.content == Content(children, None)
  {
  }

  /** The `scale` shared value the press-in and press-out handlers drive. */
  class PressScale {
    var scale: real

    constructor ()
      ensures scale == RestScale
    {
      scale := RestScale;
    }

    method PressIn()
      modifies this
      ensures scale == PressedScale
    {
      scale := PressedScale;
    }

    method PressOut()
      modifies this
      ensures scale == RestScale
    {
      scale := RestScale;
    }
  }
}
