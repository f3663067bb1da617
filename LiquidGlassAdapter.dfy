/**
 * `LiquidGlassAdapter`: draws its children on native liquid glass where the
 * platform has it, and otherwise on a blur view or a plain coloured view.
 * Whether glass is available, the OS name and the theme are inputs.
 */
module LiquidGlassAdapter {
  import opened Wrappers
  import Objects

  const DefaultEffect: string := "regular"
  const BlurIntensity: int := 80
  const DarkBlurTint: string := "systemThickMaterial"
  const LightBlurTint: string := "systemMaterial"
  const DarkPlainBackground: string := "rgba(255,255,255,0.08)"
  const LightPlainBackground: string := "rgba(0,0,0,0.04)"
  const Ios: string := "ios"

  /** A style value: a colour or keyword, or a number. */
  datatype StyleValue = Text(s: string) | Number(n: real)

  /** A flattened style object. */
  type Style = map<string, StyleValue>

  /** The adapter's own props as the caller passes them; `None` is an undefined prop. */
  datatype Props = Props(style: Style, glassEffectStyle: Option<string>, tintColor: Option<string>,
                         fallbackColor: Option<string>, fallbackStyle: Style,
                         isInteractive: Option<bool>, useSolidFallback: Option<bool>)

  /** The four ways the adapter can render. */
  datatype Branch = GlassBranch | SolidBranch | BlurBranch | PlainBranch

  /** A string prop used as a condition: undefined and "" are falsy. */
  predicate Present(s: Option<string>) {
    s.Some? && s.value != ""
  }

  /**
   * The branch taken: glass when available, whatever else holds; then the
   * solid fallback when asked for or given a colour; then blur on iOS; then plain.
   */
  function Choose(glassAvailable: bool, useSolidFallback: bool, fallbackColor: Option<string>, os: string): (b: Branch)
    ensures b == GlassBranch <==> glassAvailable
    ensures b == SolidBranch <==> !glassAvailable && (useSolidFallback || Present(fallbackColor))
    ensures b == BlurBranch <==> !glassAvailable && !useSolidFallback && !Present(fallbackColor) && os == Ios
    ensures b == PlainBranch <==> !glassAvailable && !useSolidFallback && !Present(fallbackColor) && os != Ios
  {
    if glassAvailable then GlassBranch
    else if useSolidFallback || Present(fallbackColor) then SolidBranch
    else if os == Ios then BlurBranch
    else PlainBranch
  }

  /** What is drawn. */
  datatype Surface =
    | GlassView(effect: string, tintColor: Option<string>, isInteractive: Option<bool>, style: Style)
    | SolidView(style: Style)
    | BlurView(tint: string, intensity: int, style: Style)

  /** The style array `[style, entry, fallbackStyle]`, flattened. */
  function Layered(style: Style, entry: Style, fallbackStyle: Style): (r: Style)
    ensures forall k :: k in r <==> k in style || k in entry || k in fallbackStyle
    ensures forall k :: k in fallbackStyle ==> r[k] == fallbackStyle[k]
    ensures forall k :: k !in fallbackStyle && k in entry ==> r[k] == entry[k]
    ensures forall k :: k !in fallbackStyle && k !in entry && k in style ==> r[k] == style[k]
  {
    Objects.ThreeLayers(style, entry, fallbackStyle);
    Objects.Merge([style, entry, fallbackStyle])
  }

  /** The colour a solid view would get from `fallbackColor ?? colors.surfaceVariant` (so "" stays ""). */
  function SolidBackground(fallbackColor: Option<string>, surfaceVariant: string): (c: string)
    ensures fallbackColor.Some? ==> c == fallbackColor.value
    ensures fallbackColor.None? ==> c == surfaceVariant
  {
    fallbackColor.GetOr(surfaceVariant)
  }

  function Render(p: Props, glassAvailable: bool, os: string, isDark: bool, surfaceVariant: string): (v: Surface)
    ensures var b := Choose(glassAvailable, p.useSolidFallback.GetOr(false), p.fallbackColor, os);
      && (b == GlassBranch <==> v.GlassView?)
      && (b == BlurBranch <==> v.BlurView?)
      && (b == SolidBranch || b == PlainBranch <==> v.SolidView?)
    ensures v.GlassView? ==>
      v == GlassView(p.glassEffectStyle.GetOr(DefaultEffect), p.tintColor, p.isInteractive, p.style)
    ensures v.BlurView? ==>
      v.intensity == BlurIntensity && v.tint == (if isDark then DarkBlurTint else LightBlurTint)
    // In every fallback the caller's `fallbackStyle` has the last word.
    ensures !v.GlassView? ==> forall k :: k in p.fallbackStyle ==> k in v.style && v.style[k] == p.fallbackStyle[k]
    ensures !v.GlassView? ==> forall k :: k in p.style ==> k in v.style
    ensures v.BlurView? && "overflow" !in p.fallbackStyle ==> "overflow" in v.style && v.style["overflow"] == Text("hidden")
    ensures v.SolidView? && "backgroundColor" !in p.fallbackStyle ==>
      "backgroundColor" in v.style && v.style["backgroundColor"] == Text(
        if Choose(glassAvailable, p.useSolidFallback.GetOr(false), p.fallbackColor, os) == SolidBranch
        then SolidBackground(p.fallbackColor, surfaceVariant)
        else if isDark then DarkPlainBackground else LightPlainBackground)
  {
    match Choose(glassAvailable, p.useSolidFallback.GetOr(false), p.fallbackColor, os)
    case GlassBranch =>
      GlassView(p.glassEffectStyle.GetOr(DefaultEffect), p.tintColor, p.isInteractive, p.style)
    case SolidBranch =>
      SolidView(Layered(p.style, map["backgroundColor" := Text(SolidBackground(p.fallbackColor, surfaceVariant))], p.fallbackStyle))
    case BlurBranch =>
      BlurView(if isDark then DarkBlurTint else LightBlurTint, BlurIntensity,
               Layered(p.style, map["overflow" := Text("hidden")], p.fallbackStyle))
    case PlainBranch =>
      SolidView(Layered(p.style, map["backgroundColor" := Text(if isDark then DarkPlainBackground else LightPlainBackground)],
                        p.fallbackStyle))
  }

  /**
   * The two tests on `fallbackColor` differ: an empty colour with the solid
   * fallback requested paints "", not `surfaceVariant`, while an empty colour
   * alone does not select the solid view at all.
   */
  lemma EmptyFallbackColor(style: Style, os: string, isDark: bool, surfaceVariant: string)
    ensures var v := Render(Props(style, None, None, Some(""), map[], None, Some(true)), false, os, isDark, surfaceVariant);
            v.SolidView? && v.style["backgroundColor"] == Text("")
    ensures Choose(false, false, Some(""), os) != SolidBranch
  {
  }
}
