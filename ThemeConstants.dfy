/**
 * The theme's static constants: the seed colour, the two brand gradients,
 * the fixed brand colours and the light and dark palettes, together with
 * the record shape every assembled colour set must have.
 */
module ThemeConstants {
  const SeedColor: string := "#FF6B6B"

  /** `Gradients`: colour stops for the primary button and for the logo. */
  datatype GradientSet = GradientSet(button: seq<string>, logo: seq<string>)

  const Gradients: GradientSet := GradientSet([SeedColor, "#FF5252"], [SeedColor, "#FF8E8E"])

  /** `AppColors`: brand colours that do not depend on the colour scheme (`matchColor` is the source's `match`, a Dafny keyword). */
  datatype BrandColors = BrandColors(primary: string, secondary: string, accent: string,
                                     like: string, reject: string, matchColor: string)

  const AppColors: BrandColors := BrandColors(SeedColor, "#4ECDC4", "#FFE66D", "#4CD964", "#FF3B30", "#FF2D55")

  /** The keys of a `ThemeColors` record. */
  datatype Key =
    // Material 3
    | Primary | OnPrimary | PrimaryContainer | OnPrimaryContainer | Secondary | OnSecondary
    | Background | OnBackground | Surface | OnSurface | SurfaceVariant | OnSurfaceVariant
    | Outline | Error
    // brand
    | Like | Reject | Match | Accent
    // visual and input
    | Gradient | InputBg | InputBgFocused | TextPrimary | TextSecondary | TextTertiary
    | Placeholder | IconDefault | AccentLink | ErrorBg | ErrorText | HeartOpacity

  /** A record entry: a colour, a list of gradient stops, or a list of opacities. */
  datatype Value = Color(hex: string) | Stops(colors: seq<string>) | Levels(opacities: seq<real>)

  type Colors = map<Key, Value>

  const LightColors: Colors := map[
    Gradient := Stops(["#FFF5F5", "#FFE8E8", "#FFF0F0", "#FFFFFF"]),
    Surface := Color("#FFFFFF"),
    InputBg := Color("#F8F8F8"),
    InputBgFocused := Color("#FFFFFF"),
    TextPrimary := Color("#1A1A1A"),
    TextSecondary := Color("#888888"),
    TextTertiary := Color("#666666"),
    Placeholder := Color("#AAAAAA"),
    IconDefault := Color("#999999"),
    AccentLink := Color(SeedColor),
    ErrorBg := Color("rgba(220, 38, 38, 0.08)"),
    ErrorText := Color("#DC2626"),
    HeartOpacity := Levels([0.15, 0.12, 0.1, 0.08])
  ]

  const DarkColors: Colors := map[
    Gradient := Stops(["#1A1216", "#161014", "#130F12", "#0E0D0F"]),
    Surface := Color("#0E0D0F"),
    InputBg := Color("#201C20"),
    InputBgFocused := Color("#2C2630"),
    TextPrimary := Color("#F2ECF0"),
    TextSecondary := Color("#9A9298"),
    TextTertiary := Color("#7A747A"),
    Placeholder := Color("#6A6068"),
    IconDefault := Color("#7A7078"),
    AccentLink := Color("#FF8A8A"),
    ErrorBg := Color("rgba(255, 107, 107, 0.12)"),
    ErrorText := Color("#FF8A8A"),
    HeartOpacity := Levels([0.2, 0.16, 0.14, 0.12])
  ]

  /** `GradientTuple`: at least two colour stops. */
  predicate IsGradientTuple(stops: seq<string>) {
    |stops| >= 2
  }

  /** The type `ThemeColors` gives the entry at `k`. */
  predicate Fits(k: Key, v: Value) {
    match k
    case Gradient => v.Stops? && IsGradientTuple(v.colors)
    case HeartOpacity => v.Levels? && |v.opacities| == 4
    case _ => v.Color?
  }

  /** A complete `ThemeColors` record: every key present, each with the declared shape. */
  predicate IsThemeColors(c: Colors) {
    forall k: Key :: k in c && Fits(k, c[k])
  }

  /** The palette entries at the keys they define have the declared shapes. */
  predicate IsPalette(p: Colors) {
    forall k :: k in p ==> Fits(k, p[k])
  }

  /** The keys a palette defines: `surface` and the visual and input keys. */
  const PaletteKeys: set<Key> := {Gradient, Surface, InputBg, InputBgFocused, TextPrimary, TextSecondary,
                                  TextTertiary, Placeholder, IconDefault, AccentLink, ErrorBg, ErrorText, HeartOpacity}

  lemma LightKeys()
    ensures LightColors.Keys == PaletteKeys
  {
  }

  lemma DarkKeys()
    ensures DarkColors.Keys == PaletteKeys
  {
  }

  /** Both palettes define the same keys. */
  lemma PalettesShareKeys()
    ensures LightColors.Keys == DarkColors.Keys
  {
    LightKeys();
    DarkKeys();
  }

  /** Every light entry has its declared shape; the gradient has four stops and the opacity list four levels. */
  lemma LightShapes()
    ensures IsPalette(LightColors)
    ensures |LightColors[Gradient].colors| == 4 && |LightColors[HeartOpacity].opacities| == 4
  {
    forall k | k in LightColors ensures Fits(k, LightColors[k]) {
    }
  }

  /** The same for the dark palette. */
  lemma DarkShapes()
    ensures IsPalette(DarkColors)
    ensures |DarkColors[Gradient].colors| == 4 && |DarkColors[HeartOpacity].opacities| == 4
  {
    forall k | k in DarkColors ensures Fits(k, DarkColors[k]) {
    }
  }

  /** Both brand gradients are two-stop tuples starting at the seed colour. */
  lemma GradientsStartAtSeed()
    ensures |Gradients.button| == 2 && |Gradients.logo| == 2
    ensures Gradients.button[0] == SeedColor && Gradients.logo[0] == SeedColor
  {
  }

  /** The seed colour is the brand primary and the light palette's link colour. */
  lemma SeedColorUses()
    ensures AppColors.primary == SeedColor && LightColors[AccentLink] == Color(SeedColor)
  {
  }
}
