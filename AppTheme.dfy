/**
 * `AppThemeProvider` and `useTheme`: the colour record every screen reads,
 * assembled from the colour scheme, a Material 3 scheme generated from the
 * seed colour (an input here) and the app's own palettes.
 */
module AppTheme {
  import opened Wrappers
  import opened ThemeConstants
  import Objects

  const Dark: string := "dark"
  const MissingProvider: string := "useTheme must be used within <AppThemeProvider>"

  /** The Material 3 fields the app reads from a generated scheme. */
  datatype M3Scheme = M3Scheme(
    primary: string, onPrimary: string, primaryContainer: string, onPrimaryContainer: string,
    secondary: string, onSecondary: string, background: string, onBackground: string,
    surface: string, onSurface: string, surfaceVariant: string, onSurfaceVariant: string,
    outline: string, error: string)

  /** The generated light and dark schemes. */
  datatype Material3Theme = Material3Theme(light: M3Scheme, dark: M3Scheme)

  /** The context value: the mode and the colour record. */
  datatype Theme = Theme(isDark: bool, colors: Colors)

  /** Dark mode exactly for the scheme "dark"; "light", null or undefined give light mode. */
  function IsDark(colorScheme: Option<string>): (dark: bool)
    ensures dark <==> colorScheme == Some(Dark)
  {
    colorScheme == Some(Dark)
  }

  /** The Material 3 keys the record copies from the scheme (`surface` is not one of them). */
  const M3Keys: set<Key> := {Primary, OnPrimary, PrimaryContainer, OnPrimaryContainer, Secondary, OnSecondary,
                             Background, OnBackground, OnSurface, SurfaceVariant, OnSurfaceVariant, Outline, Error}

  /** The brand keys. */
  const BrandKeys: set<Key> := {Like, Reject, Match, Accent}

  /** The scheme's value for a Material 3 key. */
  function M3Value(m3: M3Scheme, k: Key): string
    requires k in M3Keys
  {
    match k
    case Primary => m3.primary
    case OnPrimary => m3.onPrimary
    case PrimaryContainer => m3.primaryContainer
    case OnPrimaryContainer => m3.onPrimaryContainer
    case Secondary => m3.secondary
    case OnSecondary => m3.onSecondary
    case Background => m3.background
    case OnBackground => m3.onBackground
    case OnSurface => m3.onSurface
    case SurfaceVariant => m3.surfaceVariant
    case OnSurfaceVariant => m3.onSurfaceVariant
    case Outline => m3.outline
    case Error => m3.error
  }

  /** The `AppColors` value for a brand key. */
  function BrandValue(k: Key): string
    requires k in BrandKeys
  {
    match k
    case Like => AppColors.like
    case Reject => AppColors.reject
    case Match => AppColors.matchColor
    case Accent => AppColors.accent
  }

  /** The Material 3 entries of the record, copied from `m3`. */
  function M3Fields(m3: M3Scheme): Colors {
    map k | k in M3Keys :: Color(M3Value(m3, k))
  }

  /** The brand entries, the same in both modes. */
  function BrandFields(): Colors {
    map k | k in BrandKeys :: Color(BrandValue(k))
  }

  /** The palette of a mode: it has the palette keys, each with its declared shape. */
  function Palette(isDark: bool): (p: Colors)
    ensures p == (if isDark then DarkColors else LightColors)
    ensures p.Keys == PaletteKeys && IsPalette(p)
  {
    if isDark then (DarkKeys(); DarkShapes(); DarkColors) else (LightKeys(); LightShapes(); LightColors)
  }

  /** `{ ...Material 3 fields, ...brand fields, ...palette }`: the palette is spread last. */
  function AssembleColors(m3: M3Scheme, palette: Colors): (c: Colors)
    ensures forall k :: k in palette ==> k in c && c[k] == palette[k]
    ensures forall k :: k !in palette && k in BrandFields() ==> k in c && c[k] == BrandFields()[k]
    ensures forall k :: k !in palette && k !in BrandFields() && k in M3Fields(m3) ==> k in c && c[k] == M3Fields(m3)[k]
    ensures forall k :: k in c <==> k in palette || k in BrandFields() || k in M3Fields(m3)
  {
    Objects.ThreeLayers(M3Fields(m3), BrandFields(), palette);
    Objects.Merge([M3Fields(m3), BrandFields(), palette])
  }

  /** The context value `AppThemeProvider` provides. */
  function ProvidedTheme(colorScheme: Option<string>, generated: Material3Theme): (t: Theme)
    ensures t.isDark <==> colorScheme == Some(Dark)
    ensures t.colors == AssembleColors(if t.isDark then generated.dark else generated.light, Palette(t.isDark))
  {
    var isDark := IsDark(colorScheme);
    Theme(isDark, AssembleColors(if isDark then generated.dark else generated.light, Palette(isDark)))
  }


  /** A Material 3 key is defined by neither the palette nor the brand part. */
  lemma M3KeyOnlyInScheme(m: M3Scheme, palette: Colors, k: Key)
    requires palette.Keys == PaletteKeys && k in M3Keys
    ensures k !in palette && k !in BrandFields() && k in M3Fields(m)
  {
    assert k !in PaletteKeys && k !in BrandKeys;
  }

  /** Every Material 3 entry of the record is copied verbatim from the scheme. */
  lemma M3Entries(m: M3Scheme, palette: Colors)
    requires palette.Keys == PaletteKeys
    ensures var c := AssembleColors(m, palette);
      forall k :: k in M3Keys ==> k in c && c[k] == Color(M3Value(m, k))
  {
    forall k | k in M3Keys ensures k in AssembleColors(m, palette) && AssembleColors(m, palette)[k] == Color(M3Value(m, k)) {
      M3KeyOnlyInScheme(m, palette, k);
    }
  }

  /** The brand entries of the record are the `AppColors` constants. */
  lemma BrandEntries(m: M3Scheme, palette: Colors)
    requires palette.Keys == PaletteKeys
    ensures var c := AssembleColors(m, palette);
      forall k :: k in BrandKeys ==> k in c && c[k] == Color(BrandValue(k))
  {
    forall k | k in BrandKeys ensures k in AssembleColors(m, palette) && AssembleColors(m, palette)[k] == Color(BrandValue(k)) {
      assert k !in PaletteKeys && k in BrandFields();
    }
  }

  /** Every key is a palette key, a brand key or a Material 3 key the record copies. */
  lemma EveryKeyHasASource(k: Key)
    ensures k in PaletteKeys || k in BrandKeys || k in M3Keys
  {
    match k {
      case Gradient => case Surface => case InputBg => case InputBgFocused => case TextPrimary =>
      case TextSecondary => case TextTertiary => case Placeholder => case IconDefault => case AccentLink =>
      case ErrorBg => case ErrorText => case HeartOpacity =>
      case Like => case Reject => case Match => case Accent =>
      case _ =>
    }
  }

  /** The entry at one key of the assembled record has the shape `ThemeColors` declares. */
  lemma AssembledFitsAt(m: M3Scheme, palette: Colors, k: Key)
    requires palette.Keys == PaletteKeys && IsPalette(palette)
    ensures k in AssembleColors(m, palette) && Fits(k, AssembleColors(m, palette)[k])
  {
    EveryKeyHasASource(k);
    if k in PaletteKeys {
      assert k in palette;
    } else if k in BrandKeys {
      assert k in BrandFields();
    } else {
      M3KeyOnlyInScheme(m, palette, k);
    }
  }

  /** A well-shaped palette gives a complete `ThemeColors` record, whatever the scheme. */
  lemma AssembledIsThemeColors(m: M3Scheme, palette: Colors)
    requires palette.Keys == PaletteKeys && IsPalette(palette)
    ensures IsThemeColors(AssembleColors(m, palette))
  {
    forall k: Key ensures k in AssembleColors(m, palette) && Fits(k, AssembleColors(m, palette)[k]) {
      AssembledFitsAt(m, palette, k);
    }
  }

  /**
   * What screens read from the provided record: Material 3 entries from the
   * scheme of the current mode, brand entries from `AppColors` whatever the
   * mode, the rest (`surface` included) from the palette of the mode; and the
   * record is a complete `ThemeColors`.
   */
  lemma ProvidedEntries(colorScheme: Option<string>, generated: Material3Theme)
    ensures var t := ProvidedTheme(colorScheme, generated);
      var m := if t.isDark then generated.dark else generated.light;
      && (forall k :: k in M3Keys ==> k in t.colors && t.colors[k] == Color(M3Value(m, k)))
      && (forall k :: k in BrandKeys ==> k in t.colors && t.colors[k] == Color(BrandValue(k)))
      && (forall k :: k in Palette(t.isDark) ==> k in t.colors && t.colors[k] == Palette(t.isDark)[k])
      && IsThemeColors(t.colors)
  {
    var isDark := IsDark(colorScheme);
    var m := if isDark then generated.dark else generated.light;
    M3Entries(m, Palette(isDark));
    BrandEntries(m, Palette(isDark));
    AssembledIsThemeColors(m, Palette(isDark));
  }

  /** The provided background is the current mode's Material 3 background. */
  lemma ProvidedBackground(colorScheme: Option<string>, generated: Material3Theme)
    ensures var t := ProvidedTheme(colorScheme, generated);
      Background in t.colors && t.colors[Background] == Color((if t.isDark then generated.dark else generated.light).background)
  {
    var isDark := IsDark(colorScheme);
    SchemeBackground(if isDark then generated.dark else generated.light, Palette(isDark));
  }

  /** With any palette over the palette keys, the background is the scheme's. */
  lemma SchemeBackground(m: M3Scheme, palette: Colors)
    requires palette.Keys == PaletteKeys
    ensures Background in AssembleColors(m, palette) && AssembleColors(m, palette)[Background] == Color(m.background)
  {
    M3KeyOnlyInScheme(m, palette, Background);
    assert M3Value(m, Background) == m.background;
  }

  /** `useTheme`: the context value, or an error outside a provider. */
  function UseTheme(context: Option<Theme>): (r: Result<Theme, string>)
    ensures context.None? <==> r.Failure?
    ensures context.Some? ==> r == Success(context.value)
    ensures r.Failure? ==> r.error == MissingProvider
  {
    match context
    case None => Failure(MissingProvider)
    case Some(t) => Success(t)
  }
}
