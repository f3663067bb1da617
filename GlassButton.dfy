/**
 * `GlassButton`: a labelled button in a solid "primary" variant or a
 * "glass" variant drawn through the liquid-glass adapter.
 */
module GlassButton {
  import opened Wrappers
  import LiquidGlassAdapter

  const PrimaryVariant: string := "primary"
  const GlassFallbackColor: string := "rgba(255,255,255,0.2)"
  const DisabledOpacity: real := 0.4
  const PressedOpacity: real := 0.8
  const PressedScale: real := 0.98

  /**
   * Does a press call the caller's `onPress`? The pressable is disabled with
   * the button, and `handlePress` checks `disabled` again before calling.
   */
  function PressReachesHandler(disabled: bool): (called: bool)
    ensures called <==> !disabled
  {
    var delivered := !disabled;
    var handlePressCalls := !disabled;
    delivered && handlePressCalls
  }

  /** Opacity: disabled wins over pressed. */
  function Opacity(disabled: bool, pressed: bool): (o: real)
    ensures o == DisabledOpacity <==> disabled
    ensures o == PressedOpacity <==> !disabled && pressed
    ensures o == 1.0 <==> !disabled && !pressed
  {
    if disabled then DisabledOpacity else if pressed then PressedOpacity else 1.0
  }

  /** The transform list: one scale while pressed, none otherwise. */
  function Transform(pressed: bool): (t: seq<real>)
    ensures pressed ==> t == [PressedScale]
    ensures !pressed ==> t == []
  {
    if pressed then [PressedScale] else []
  }

  /** What carries the label: a solid primary-coloured view, or the adapter with these props. */
  datatype Body = SolidBody(background: string) | AdapterBody(props: LiquidGlassAdapter.Props)

  /** The body for `variant` (default "primary"); any other value is the glass variant. */
  function RenderBody(variant: Option<string>, primary: string, buttonStyle: LiquidGlassAdapter.Style,
                      fallbackStyle: LiquidGlassAdapter.Style): (b: Body)
    ensures b.SolidBody? <==> variant.GetOr(PrimaryVariant) == PrimaryVariant
    ensures b.SolidBody? ==> b.background == primary
    ensures b.AdapterBody? ==>
      && b.props.useSolidFallback == Some(true)
      && b.props.fallbackColor == Some(GlassFallbackColor)
      && b.props.isInteractive == Some(true)
      && b.props.style == buttonStyle && b.props.fallbackStyle == fallbackStyle
  {
    if variant.GetOr(PrimaryVariant) == PrimaryVariant then SolidBody(primary)
    else AdapterBody(LiquidGlassAdapter.Props(buttonStyle, None, None, Some(GlassFallbackColor), fallbackStyle, Some(true), Some(true)))
  }

  /** Leaving `variant` out gives the solid primary button. */
  lemma DefaultIsPrimary(primary: string, buttonStyle: LiquidGlassAdapter.Style, fallbackStyle: LiquidGlassAdapter.Style)
    ensures RenderBody(None, primary, buttonStyle, fallbackStyle) == SolidBody(primary)
  {
  }

  /**
   * Without native glass the glass variant is always the adapter's solid
   * view, painted the translucent white unless its fallback style overrides
   * the background; with native glass it is a glass view.
   */
  lemma GlassVariantSurface(variant: string, buttonStyle: LiquidGlassAdapter.Style, fallbackStyle: LiquidGlassAdapter.Style,
                            glassAvailable: bool, os: string, isDark: bool, surfaceVariant: string, primary: string)
    requires variant != PrimaryVariant
    ensures var b := RenderBody(Some(variant), primary, buttonStyle, fallbackStyle);
      var v := LiquidGlassAdapter.Render(b.props, glassAvailable, os, isDark, surfaceVariant);
      && b.AdapterBody?
      && (glassAvailable <==> v.GlassView?)
      && (!glassAvailable ==> v.SolidView?)
      && (!glassAvailable && "backgroundColor" !in fallbackStyle ==>
            "backgroundColor" in v.style && v.style["backgroundColor"] == LiquidGlassAdapter.Text(GlassFallbackColor))
  {
  }
}
