/**
 * The email-code verification screen: its Verify button and error box,
 * wired to the verify-code hook's state.
 */
module CodeVerification {
  import opened Wrappers
  import opened JsValues
  import GradientButton
  import VerifyCode

  const VerifyLabel: string := "Verify"
  const VerifyIcon: string := "checkmark"

  /** The Verify button's props: disabled while loading or with no code, `loading` passed through. */
  function VerifyButton(code: string, loading: bool): (p: GradientButton.Props)
    ensures p.disabled <==> loading || code == ""
    ensures p.loading == loading
    ensures p.loadingText == GradientButton.DefaultLoadingText
    ensures p.icon == Some(VerifyIcon) && p.children == VerifyLabel
  {
    GradientButton.WithDefaults(Some(loading || code == ""), Some(loading), None, Some(VerifyIcon), VerifyLabel)
  }

  /** The error box is drawn exactly for a truthy `error`; for a string, a non-empty one. */
  function ShowsErrorBox(error: Js): (shown: bool)
    ensures shown <==> Truthy(error)
    ensures error.Str? ==> (shown <==> error.s != "")
  {
    Truthy(error)
  }

  /** `onVerify` can fire only when no verification is running and a code was typed. */
  lemma VerifyFiresOnlyWithCode(code: string, loading: bool)
    ensures GradientButton.Render(VerifyButton(code, loading)).pressEnabled <==> !loading && code != ""
  {
  }

  /**
   * While a verification is in flight the button is disabled and shows only
   * "Loading...", and no error is shown.
   */
  lemma InFlightScreen(s: VerifyCode.Fields, kind: string, signInLoaded: bool, signUpLoaded: bool,
                       attempt: VerifyCode.AttemptOutcome, activate: VerifyCode.ActivateOutcome)
    requires VerifyCode.IsLoaded(kind, signInLoaded, signUpLoaded)
    ensures var w := VerifyCode.Verify(s, kind, signInLoaded, signUpLoaded, attempt, activate).awaiting;
      && w.Some?
      && var v := GradientButton.Render(VerifyButton(w.value.code, w.value.loading));
      && !v.pressEnabled
      && v.content == GradientButton.Content(GradientButton.DefaultLoadingText, None)
      && !ShowsErrorBox(w.value.error)
  {
  }

  /**
   * After any failed verification the error box is shown, and the button is
   * enabled again exactly when a code is present.
   */
  lemma FailureShowsError(s: VerifyCode.Fields, kind: string, signInLoaded: bool, signUpLoaded: bool,
                          attempt: VerifyCode.AttemptOutcome, activate: VerifyCode.ActivateOutcome)
    requires VerifyCode.IsLoaded(kind, signInLoaded, signUpLoaded)
    requires !VerifyCode.Completed(attempt) || activate.ActivateThrew?
    ensures var n := VerifyCode.Verify(s, kind, signInLoaded, signUpLoaded, attempt, activate).next;
      && ShowsErrorBox(n.error)
      && (GradientButton.Render(VerifyButton(n.code, n.loading)).pressEnabled <==> s.code != "")
  {
  }
}
