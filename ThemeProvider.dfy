/**
 * The provider used by the app shell: the same colour record as
 * `AppThemeProvider`, plus a navigation theme whose background is replaced
 * by that record's background. The navigation library's light and dark
 * themes are inputs.
 */
module ThemeProvider {
  import opened Wrappers
  import opened ThemeConstants
  import AppTheme
  import Objects

  const BackgroundKey: string := "background"
  const MissingThemeProvider: string := "useTheme must be used within <ThemeProvider>"

  /** A navigation theme: its mode flag, its colour table and its fonts, the latter opaque. */
  datatype NavTheme = NavTheme(dark: bool, colors: map<string, string>, fonts: map<string, string>)

  /** `{ ...base, colors: { ...base.colors, background } }` with `base` chosen by mode. */
  function NavigationTheme(isDark: bool, defaultTheme: NavTheme, darkTheme: NavTheme, background: string): (n: NavTheme)
    ensures var base := if isDark then darkTheme else defaultTheme;
      && n.dark == base.dark && n.fonts == base.fonts
      && (forall k :: k in n.colors <==> k in base.colors || k == BackgroundKey)
      && BackgroundKey in n.colors && n.colors[BackgroundKey] == background
      && (forall k :: k in base.colors && k != BackgroundKey ==> n.colors[k] == base.colors[k])
  {
    var base := if isDark then darkTheme else defaultTheme;
    Objects.LastPartWins([base.colors, map[BackgroundKey := background]], BackgroundKey);
    forall k ensures k in Objects.Merge([base.colors, map[BackgroundKey := background]]) <==> k in base.colors || k == BackgroundKey {
      Objects.MergeAt([base.colors, map[BackgroundKey := background]], k);
      assert [base.colors, map[BackgroundKey := background]][0] == base.colors;
    }
    base.(colors := Objects.Merge([base.colors, map[BackgroundKey := background]]))
  }

  /** The two values the provider hands down. */
  datatype Provided = Provided(theme: AppTheme.Theme, navigation: NavTheme)

  function Provide(colorScheme: Option<string>, generated: AppTheme.Material3Theme,
                   defaultTheme: NavTheme, darkTheme: NavTheme): (p: Provided)
    ensures p.theme == AppTheme.ProvidedTheme(colorScheme, generated)
    ensures var m := if p.theme.isDark then generated.dark else generated.light;
      && BackgroundKey in p.navigation.colors && p.navigation.colors[BackgroundKey] == m.background
      && p.navigation.dark == (if p.theme.isDark then darkTheme else defaultTheme).dark
  {
    var theme := AppTheme.ProvidedTheme(colorScheme, generated);
    AppTheme.ProvidedBackground(colorScheme, generated);
    Provided(theme, NavigationTheme(theme.isDark, defaultTheme, darkTheme, theme.colors[Background].hex))
  }

  /**
   * `useTheme` of the hooks directory. It reads the exported context that
   * this provider fills, not the one `AppThemeProvider` fills, and its error
   * names `<ThemeProvider>`.
   */
  function UseTheme(context: Option<AppTheme.Theme>): (r: Result<AppTheme.Theme, string>)
    ensures context.None? <==> r.Failure?
    ensures context.Some? ==> r == Success(context.value)
    ensures r.Failure? ==> r.error == MissingThemeProvider
  {
    match context
    case None => Failure(MissingThemeProvider)
    case Some(t) => Success(t)
  }

  /** Under this provider the hook returns the assembled theme. */
  lemma HookReadsProvidedTheme(colorScheme: Option<string>, generated: AppTheme.Material3Theme,
                               defaultTheme: NavTheme, darkTheme: NavTheme)
    ensures UseTheme(Some(Provide(colorScheme, generated, defaultTheme, darkTheme).theme)) ==
            Success(AppTheme.ProvidedTheme(colorScheme, generated))
  {
  }

  /** The two `useTheme` guards agree on every context and differ only in their error text. */
  lemma GuardsDifferOnlyInMessage(context: Option<AppTheme.Theme>)
    ensures UseTheme(context).Success? <==> AppTheme.UseTheme(context).Success?
    ensures UseTheme(context).Success? ==> UseTheme(context) == AppTheme.UseTheme(context)
    ensures UseTheme(context).Failure? ==> UseTheme(context).error != AppTheme.UseTheme(context).error
  {
  }
}
