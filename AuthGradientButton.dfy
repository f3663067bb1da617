/**
 * The auth screens' own copy of the gradient button. It spells its gradient
 * out as a literal instead of using the theme's button gradient.
 */
module AuthGradientButton {
  import opened Wrappers
  import GradientButton

  const Gradient: seq<string> := ["#FF6B6B", "#FF5252"]

  /** The copy behaves exactly like the shared button, its literal gradient included. */
  function Render(p: GradientButton.Props): (v: GradientButton.View)
    ensures v == GradientButton.Render(p)
  {
    var isDisabled := p.disabled || p.loading;
    var content :=
      if p.loading then GradientButton.Content(p.loadingText, None)
      else GradientButton.Content(p.children, if p.icon.Some? && p.icon.value != "" then p.icon else None);
    GradientButton.View(Gradient, if isDisabled then 0.5 else 1.0, !isDisabled, content)
  }
}
