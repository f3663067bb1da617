# Aura authentication front-end, modelled in Dafny

Aura is a React Native (Expo) app. Its sign-in and sign-up screens talk to the
Clerk identity provider. This project models the parts of the app that decide
behaviour:

- the email-code verification hook `useVerifyCode`, with its resend and verify
  handlers, the `navigate` callback and the screen that uses it;
- the helper that turns an SDK error into a message for the user;
- the gradient buttons, the glass button and the animated text input;
- the liquid-glass adapter, which picks between native glass, a solid view, a
  blur view and a plain view;
- the theme: its constants, its assembly from a generated Material 3 scheme,
  the brand colours and the mode-aware palette, the `useTheme` guard, and the
  navigation theme derived from it;
- the root layout's two guarded route groups.

JavaScript values that reach the logic untyped (SDK errors, attempt objects,
sessions) are modelled by the datatype `JsValues.Js`, together with JavaScript
truthiness, `||` and optional member access. Object spread and React Native
style arrays are modelled by the left fold `Objects.Merge`: later parts win.
The SDK, the platform and the colour generator are not modelled. Their results
(an attempt's outcome, whether native glass is available, the OS name, the
device colour scheme, the generated Material 3 theme) are parameters.

State that React keeps between renders is modelled by classes whose methods
update fields: `VerifyCode.VerifyCodeHook`, `AnimatedInput.InputState` and
`GradientButton.PressScale`. Each handler method is proved equal to a pure
function of the earlier state and the SDK outcome (`VerifyCode.Resend` and
`VerifyCode.Verify`). Lemmas about event traces (`VerifyCode.Run`) build on
those functions.

Some of the code's behaviour goes beyond its declared TypeScript types, and
the model follows the code:

- `getClerkErrorMessage` returns the first truthy of `longMessage`, `message`
  and the fallback. Its declared return type is `string`, but a truthy
  non-string field (a number, an object) is returned unchanged.
  `ClerkError.ErrorMessage` returns a `Js`. `ClerkError.NonEmptyStringForDeclaredShape`
  proves that a non-empty string comes back when the fields have the declared
  shape.
- The hook's `type` is declared as `"sign-in" | "sign-up"`, but the screen
  passes a route parameter. For any other string, the three `type` tests in
  the hook disagree: `isLoaded` and verify use sign-up, while resend uses
  sign-in (`VerifyCode.FlowsSplitOnOtherKinds`).

## Model

| member | source | states |
|---|---|---|
| JsValues.Or | lib/clerk-error.ts:13 | `a \|\| b` is `a` when `a` is truthy and `b` otherwise, and is truthy iff either operand is |
| JsValues.Member | lib/clerk-error.ts:13 | optional member access gives the property's value on an object that has the key, and `undefined` on a non-object or a missing key |
| JsValues.Index | lib/clerk-error.ts:12 | indexing an array gives the element in range and `undefined` past the end |
| Objects.MergeAt | lib/theme.tsx:127-153 | a key is in the spread result iff some part defines it, and its value comes from the last part that defines it |
| Objects.LastPartWins | lib/theme.tsx:152 | a key defined by the last spread part takes that part's value |
| Objects.ThreeLayers | components/ui/adapter/liquid-glass-adapter.tsx:75-79 | for a three-part spread or style array: the key set is the union, and the third part beats the second, which beats the first |
| ClerkError.ErrorMessage | lib/clerk-error.ts:1-17 | the message is always truthy; it is the fallback unless `err` is an object with an `errors` array, and otherwise it is the first entry's `longMessage` if truthy, else its `message` if truthy, else the fallback |
| ClerkError.NonObjectFallback | lib/clerk-error.ts:4-9 | `null`, `undefined` and every primitive give the fallback text |
| ClerkError.NoErrorsArrayFallback | lib/clerk-error.ts:6-8 | an object without an `errors` array gives the fallback text |
| ClerkError.EmptyErrorsFallback | lib/clerk-error.ts:12-13 | an empty `errors` array gives the fallback text |
| ClerkError.LongMessageFirst | lib/clerk-error.ts:13 | a truthy `longMessage` on the first entry is returned |
| ClerkError.MessageSecond | lib/clerk-error.ts:13 | without a truthy `longMessage`, a truthy `message` is returned |
| ClerkError.OnlyFirstEntryCounts | lib/clerk-error.ts:12 | entries after the first never change the message |
| ClerkError.NonEmptyStringForDeclaredShape | lib/clerk-error.ts:1-17 | when the first entry's fields are strings or absent, the result is a non-empty string |
| ClerkError.FalsyFieldsFallThrough | lib/clerk-error.ts:12-13 | a first entry whose `longMessage` and `message` are both falsy or absent (empty strings included) gives the fallback, whatever the later entries are |
| VerifyCode.LoadedFlow | hooks/use-verify-code.ts:26-99 | the `isLoaded` flag read, and the flow a verify attempt goes to, are sign-in's iff the kind is "sign-in", and sign-up's otherwise |
| VerifyCode.ResendFlow | hooks/use-verify-code.ts:36-44 | the resend asks sign-up for a new code iff the kind is "sign-up", and sign-in otherwise |
| VerifyCode.FlowsAgreeOnDeclaredKinds | hooks/use-verify-code.ts:26-99 | for "sign-in" and "sign-up", resend asks the same flow that gates the handlers and receives the attempt |
| VerifyCode.FlowsSplitOnOtherKinds | hooks/use-verify-code.ts:26-99 | for any other kind, the loaded flag and the attempt use sign-up, but resend uses sign-in |
| VerifyCode.IsLoaded | hooks/use-verify-code.ts:26 | `isLoaded` is the loaded flag of the flow `LoadedFlow` picks |
| VerifyCode.Resend | hooks/use-verify-code.ts:28-52 | not loaded or already resending: nothing changes and nothing is requested. Otherwise: the pending state has `resending` set and the error cleared, the kind's flow is asked for a code unless the optional call is skipped because the SDK resource is absent, and `resending` ends false. Success or a skipped call sets `resent` and leaves the error empty; a throw sets the helper's message; code and loading are untouched |
| VerifyCode.Verify | hooks/use-verify-code.ts:54-104 | not loaded: nothing changes. Otherwise: the pending state has `loading` set and the error cleared, and `loading` ends false. A session activation is requested iff the attempt returned with status "complete" and `setActive` is present, for the kind's flow with the attempt's session id. After a complete attempt the error stays empty unless activation throws. A returned attempt that is not complete (an undefined attempt included) sets "Verification failed. Please try again."; a throw from either call sets the helper's message; code, resending and resent are untouched |
| VerifyCode.Navigate | hooks/use-verify-code.ts:62-72 | the route stays put iff the session has a truthy `currentTask`, and otherwise it is replaced with "/" |
| VerifyCode.NavigateHomeWithoutTask | hooks/use-verify-code.ts:65-71 | a `null` session or one without `currentTask` leads to "/" |
| VerifyCode.RunStaysAtRest | hooks/use-verify-code.ts:49-51 | starting at rest, after any sequence of typing, `setError` and completed handler runs, neither `loading` nor `resending` is set |
| VerifyCode.CodeFollowsTyping | hooks/use-verify-code.ts:20 | over any event sequence, `code` changes only by typing: without typing it keeps its value, and otherwise it equals the last typed text |
| VerifyCode.VerifyCodeHook.constructor | hooks/use-verify-code.ts:20-24 | the hook starts with an empty code and error, and no flag set |
| VerifyCode.VerifyCodeHook.SetCode | hooks/use-verify-code.ts:20 | `setCode` replaces the code and nothing else |
| VerifyCode.VerifyCodeHook.SetError | hooks/use-verify-code.ts:21 | `setError` replaces the error and nothing else |
| VerifyCode.VerifyCodeHook.HandleResend | hooks/use-verify-code.ts:28-52 | updating the fields step by step yields the pending state, the request and the final state of `Resend` |
| VerifyCode.VerifyCodeHook.HandleVerify | hooks/use-verify-code.ts:54-104 | updating the fields step by step yields the pending state, the activation and the final state of `Verify` |
| CodeVerification.VerifyButton | components/auth/code-verification.tsx:88-95 | the button is disabled iff loading or the code is empty, passes `loading` through, and shows "Verify" with the checkmark icon |
| CodeVerification.ShowsErrorBox | components/auth/code-verification.tsx:66-80 | the error box is shown iff the error is truthy; for a string, iff it is non-empty |
| CodeVerification.VerifyFiresOnlyWithCode | components/auth/code-verification.tsx:88-91 | the rendered button accepts presses iff not loading and the code is non-empty |
| CodeVerification.InFlightScreen | components/auth/code-verification.tsx:66-95 | while a verify is pending, the button shows "Loading..." and is disabled, and no error box is shown |
| CodeVerification.FailureShowsError | components/auth/code-verification.tsx:66-95 | after a failed attempt or a thrown activation, the error box is shown, and the button accepts presses again iff a code is present |
| GradientButton.WithDefaults | components/gradient-button.tsx:22-29 | `disabled` and `loading` default to false and `loadingText` to "Loading..."; given values are kept |
| GradientButton.Render | components/gradient-button.tsx:30-98 | presses are enabled iff neither disabled nor loading; the opacity is 1 if enabled and 0.5 if not; the gradient is the button gradient; loading shows only the loading text, and otherwise the label and the icon, when the icon is given and non-empty |
| GradientButton.DefaultsEnable | components/gradient-button.tsx:22-30 | a button given only its label is enabled at full opacity and shows its label |
| GradientButton.PressScale.constructor | components/gradient-button.tsx:33 | the scale starts at 1 |
| GradientButton.PressScale.PressIn | components/gradient-button.tsx:47-49 | pressing in targets a scale of 0.97 |
| GradientButton.PressScale.PressOut | components/gradient-button.tsx:50-52 | releasing targets a scale of 1 |
| AuthGradientButton.Render | components/auth/gradient-button.tsx:21-73 | the auth screens' copy, with its literal gradient, renders exactly as the shared gradient button does |
| AnimatedInput.HidesText | components/animated-input.tsx:81 | text is hidden only for a secure input, and then iff the secret is not revealed |
| AnimatedInput.EyeIcon | components/animated-input.tsx:86-100 | the eye button exists iff the input is secure; it shows "eye.slash.fill" when revealed and "eye.fill" otherwise |
| AnimatedInput.IconTint | components/animated-input.tsx:74 | the field icon is tinted "#FF6B6B" while focused, and the theme's default otherwise |
| AnimatedInput.EyeMatchesHiding | components/animated-input.tsx:81-95 | on a secure input, the open-eye icon is shown iff the text is hidden |
| AnimatedInput.InputState.constructor | components/animated-input.tsx:36-42 | `secureTextEntry` defaults to false; the input starts unfocused, with the secret hidden and the focus animation at 0 |
| AnimatedInput.InputState.HandleFocus | components/animated-input.tsx:57-60 | focusing sets `focused` and targets 1, and leaves the secret alone |
| AnimatedInput.InputState.HandleBlur | components/animated-input.tsx:62-65 | blurring clears `focused` and targets 0, and leaves the secret alone |
| AnimatedInput.InputState.PressEye | components/animated-input.tsx:86-91 | the eye toggles whether the secret is revealed, flips whether the text is hidden, and leaves focus alone |
| AnimatedInput.PressEyeTwice | components/animated-input.tsx:88-91 | two eye presses restore the previous state |
| GlassButton.PressReachesHandler | components/ui/glass/GlassButton.tsx:23-28 | a press reaches `onPress` iff the button is not disabled |
| GlassButton.Opacity | components/ui/glass/GlassButton.tsx:43 | the opacity is 0.4 iff disabled, 0.8 iff enabled and pressed, and 1 iff enabled and not pressed |
| GlassButton.Transform | components/ui/glass/GlassButton.tsx:44 | the button scales to 0.98 while pressed and has no transform otherwise |
| GlassButton.RenderBody | components/ui/glass/GlassButton.tsx:18-74 | the variant defaults to "primary"; "primary" draws a solid view in the theme's primary; any other variant delegates to the adapter with a solid fallback of "rgba(255,255,255,0.2)" |
| GlassButton.DefaultIsPrimary | components/ui/glass/GlassButton.tsx:19-47 | without a variant, the button is solid primary |
| GlassButton.GlassVariantSurface | components/ui/glass/GlassButton.tsx:55-74 | a non-primary variant renders a glass view iff native glass is available; otherwise it is a solid view painted "rgba(255,255,255,0.2)" unless its fallback style sets the background |
| LiquidGlassAdapter.Choose | components/ui/adapter/liquid-glass-adapter.tsx:57-117 | exactly one branch is taken: glass iff available; else solid iff the solid fallback is requested or a truthy fallback colour is given; else blur iff the OS is "ios"; else plain |
| LiquidGlassAdapter.Layered | components/ui/adapter/liquid-glass-adapter.tsx:75-79 | a style array of style, branch entry and fallback style resolves each key to the last layer that sets it |
| LiquidGlassAdapter.SolidBackground | components/ui/adapter/liquid-glass-adapter.tsx:77 | the solid background is the fallback colour when given (`??`), and the theme's `surfaceVariant` otherwise |
| LiquidGlassAdapter.Render | components/ui/adapter/liquid-glass-adapter.tsx:43-118 | the surface matches the chosen branch. Glass receives the plain style and the effect, which defaults to "regular". Blur uses the mode's material at intensity 80 and hides overflow unless the fallback style overrides it. Solid and plain views get their background unless the fallback style overrides it. The fallback style always wins and every caller style key survives |
| LiquidGlassAdapter.EmptyFallbackColor | components/ui/adapter/liquid-glass-adapter.tsx:72-77 | an empty fallback colour is falsy, so it does not select the solid branch; but when the solid fallback is requested, `??` keeps the empty colour as the background |
| ThemeConstants.LightKeys | lib/theme.ts:21-35 | the light palette defines exactly the thirteen palette keys |
| ThemeConstants.DarkKeys | lib/theme.ts:37-51 | the dark palette defines exactly the thirteen palette keys |
| ThemeConstants.PalettesShareKeys | lib/theme.ts:21-51 | both palettes define the same keys |
| ThemeConstants.LightShapes | lib/theme.ts:5-35 | every light palette entry has its declared shape: gradients have at least two stops, the heart opacities are a level list, the rest are colours |
| ThemeConstants.DarkShapes | lib/theme.ts:37-51 | every dark palette entry has its declared shape |
| ThemeConstants.GradientsStartAtSeed | lib/theme.ts:2-10 | both brand gradients are two-stop tuples that start at the seed colour |
| ThemeConstants.SeedColorUses | lib/theme.ts:2-35 | the seed colour is the brand primary and the light accent link colour |
| AppTheme.IsDark | lib/theme.tsx:121 | the theme is dark iff the device colour scheme is "dark"; an unknown scheme is light |
| AppTheme.Palette | lib/theme.tsx:125 | dark mode takes the dark palette and light mode the light one; either palette has exactly the thirteen palette keys, each with its declared shape |
| AppTheme.AssembleColors | lib/theme.tsx:129-153 | the colours hold exactly the Material 3 fields, the brand fields and the palette keys; palette entries beat brand entries, which beat Material 3 entries |
| AppTheme.ProvidedTheme | lib/theme.tsx:117-155 | the provided theme is dark iff the scheme is "dark", and its colours are assembled from that mode's Material 3 scheme and palette |
| AppTheme.M3KeyOnlyInScheme | lib/theme.tsx:131-152 | the thirteen Material 3 keys are defined neither by the brand fields nor by the palette |
| AppTheme.M3Entries | lib/theme.tsx:131-143 | every Material 3 key takes the generated scheme's colour in the assembled theme |
| AppTheme.BrandEntries | lib/theme.tsx:146-149 | `like`, `reject`, `match` and `accent` take the brand colours |
| AppTheme.EveryKeyHasASource | lib/theme.ts:53-86 | every key the theme colours type declares comes from one of the three sources |
| AppTheme.AssembledFitsAt | lib/theme.ts:53-86 | every declared key is present in the assembled colours with its declared shape |
| AppTheme.AssembledIsThemeColors | lib/theme.tsx:127-153 | for either palette, the assembled colours are a complete theme colour record |
| AppTheme.ProvidedEntries | lib/theme.tsx:117-155 | in both modes, the provided colours are complete; Material 3 entries come from the mode's scheme, brand entries from the brand colours, and palette entries from the mode's palette |
| AppTheme.ProvidedBackground | lib/theme.tsx:124-137 | the provided background is the current mode's Material 3 background |
| AppTheme.SchemeBackground | lib/theme.tsx:137-152 | with any palette over the palette keys, the assembled background is the scheme's `background`, since no palette or brand entry overrides it |
| AppTheme.UseTheme | lib/theme.tsx:162-168 | outside a provider, `useTheme` fails with "useTheme must be used within <AppThemeProvider>"; inside one, it returns the context's theme |
| ThemeProvider.NavigationTheme | provider/ThemeProvider.tsx:58-67 | the navigation theme is React Navigation's dark or default base for the current mode; its colours keep the base's keys plus `background`, replace only `background`, and keep every other colour |
| ThemeProvider.Provide | provider/ThemeProvider.tsx:18-67 | the provider offers the assembled app theme, and the navigation background equals the current mode's Material 3 background |
| ThemeProvider.UseTheme | hooks/use-theme.ts:6-12 | outside a provider, this `useTheme` fails with "useTheme must be used within <ThemeProvider>"; inside one, it returns the context's theme |
| ThemeProvider.HookReadsProvidedTheme | hooks/use-theme.ts:6-12 | under `ThemeProvider`, this hook returns the assembled app theme |
| ThemeProvider.GuardsDifferOnlyInMessage | hooks/use-theme.ts:8-9 | the two `useTheme` guards succeed on the same contexts with the same theme, and fail with different messages |
| RootLayout.AuthGuard | app/_layout.tsx:13 | the auth group is enabled iff the user is not known to be signed in (`!isSignedIn`) |
| RootLayout.AppGuard | app/_layout.tsx:16 | the app group is enabled iff `isSignedIn` is true |
| RootLayout.ReachableScreens | app/_layout.tsx:12-18 | exactly one group is reachable, chosen by the sign-in status, and no header is shown |
| RootLayout.ExactlyOneGroup | app/_layout.tsx:13-16 | the two guards are never enabled together or disabled together, and that includes an unknown status |

## Left out

- The Clerk SDK calls (`prepareEmailAddressVerification`, `prepareSecondFactor`, `attemptSecondFactor`, `attemptEmailAddressVerification`, `setActive`) are not modelled. Their outcomes are parameters. An absent resource or function on an optional call (`signIn?.`, `setSignInActive?.`) is the outcome `PrepareSkipped`, `Returned(None)` or `ActivateSkipped`, which the caller chooses.
- VerifyCode.Verify: does not record the code sent with the attempt. The attempt's outcome is a parameter, so the model does not state that the current `code` is what the SDK receives.
- VerifyCode.Navigate: whether and when the SDK calls `navigate` is the SDK's business. The model states what the callback does when called, and `console.log` is left out.
- The three-second `setTimeout` that clears `resent` is left out, because timers are not modelled.
- Overlapping handler runs are left out: a second press while the first `await` is pending, and values read from a stale closure. Each handler runs to completion from the state it was given.
- Haptic feedback, `console.error` logging and `JSON.stringify` of failed attempts are side effects without state, so they are left out.
- Animations (`withTiming`, `interpolateColor`, entering transitions, durations) are left out. The model keeps the target values (`AnimatedInput.InputState.focusTarget`, `GradientButton.PressScale.scale`) but not the frames in between.
- Layout and typography constants (sizes, radii, shadows, fonts) and `StyleSheet` objects are left out. They are opaque style entries.
- Platform detection (`supportsGlassEffect`, `process.env.EXPO_OS`) and `useColorScheme` are inputs.
- Material 3 colour generation from the seed (`useMaterial3Theme`) is opaque. Its output scheme is an input.
- The `lib/theme.tsx` copies of the seed colour, gradients, brand colours and palettes are identical to `lib/theme.ts`, and the model states them once, in `ThemeConstants`.
- `AppThemeProvider` and `ThemeProvider` build the app theme with identical code. One assembly (`AppTheme.ProvidedTheme`) models both.
- The two providers fill different contexts. `AppThemeProvider` fills the private context of `lib/theme.tsx`, which that file's `useTheme` reads. `ThemeProvider` fills the context exported by `lib/theme.ts`, which `hooks/use-theme.ts` reads. The provider tree in `provider/index.tsx` mounts only the Clerk provider, so neither theme provider is mounted there. The model takes each hook's context as an input and does not model which provider is mounted where.
- React Navigation's `DefaultTheme` and `DarkTheme` are inputs, and so are their fonts.
- The auth gradient button's own press-scale handlers and defaults are the same as the shared button's, and the model reuses `GradientButton.PressScale` and `GradientButton.WithDefaults` for them.
- GradientButton.Render: the icon test models `icon &&` on a string, true iff the string is non-empty. Which symbol is drawn is not modelled.
- The Clerk and Convex provider wrappers (SDK set-up, the missing-key error, the token cache) are not part of this model. They configure external SDKs.
- The sign-in, sign-up, forgot-password and legal screens, the tab screen, the sign-out button, other glass and view components, `lib/auth.ts`, `lib/legal.ts` and `lib/haptics.ts` are not part of this model.
- `JsValues.Js` numbers are integers, so `NaN`, `-0` and fractions cannot be represented. A `NaN` or `-0` field of an SDK error is falsy and would fall through like `0`; `ClerkError.FalsyFieldsFallThrough` covers `0` but not those values. JavaScript number coercion is not modelled.
