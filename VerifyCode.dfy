/**
 * `useVerifyCode`: the email-code verification screen's state and its two
 * handlers, resend and verify. The identity provider's SDK calls are not
 * modelled; each handler receives the outcome the SDK produced as a parameter.
 */
module VerifyCode {
  import opened Wrappers
  import opened JsValues
  import ClerkError

  const SignInKind: string := "sign-in"
  const SignUpKind: string := "sign-up"
  const VerificationFailed: string := "Verification failed. Please try again."
  const Complete: string := "complete"

  /** The two SDK flows a verification can belong to. */
  datatype Flow = SignInFlow | SignUpFlow

  /**
   * The flow named by the test `type === "sign-in"`, which picks both the
   * `isLoaded` flag that gates the handlers and the flow a verify attempt
   * goes to: sign-in only for "sign-in".
   */
  function LoadedFlow(kind: string): (f: Flow)
    ensures f == SignInFlow <==> kind == SignInKind
  {
    if kind == SignInKind then SignInFlow else SignUpFlow
  }

  /** The flow whose code a resend asks for: sign-up only for "sign-up". */
  function ResendFlow(kind: string): (f: Flow)
    ensures f == SignUpFlow <==> kind == SignUpKind
  {
    if kind == SignUpKind then SignUpFlow else SignInFlow
  }

  /** For the two kinds the hook declares, the resend flow is the flow that was loaded. */
  lemma FlowsAgreeOnDeclaredKinds(kind: string)
    requires kind == SignInKind || kind == SignUpKind
    ensures LoadedFlow(kind) == ResendFlow(kind)
  {
  }

  /** Any other string (the screen passes a route parameter) splits them: resend goes to sign-in, loading and verify to sign-up. */
  lemma FlowsSplitOnOtherKinds(kind: string)
    requires kind != SignInKind && kind != SignUpKind
    ensures LoadedFlow(kind) == SignUpFlow && ResendFlow(kind) == SignInFlow
  {
  }

  /** `isLoaded` of the flow `LoadedFlow(kind)`. */
  function IsLoaded(kind: string, signInLoaded: bool, signUpLoaded: bool): (r: bool)
    ensures r == (if LoadedFlow(kind) == SignInFlow then signInLoaded else signUpLoaded)
  {
    if kind == SignInKind then signInLoaded else signUpLoaded
  }

  /** The five state fields of the hook. `error` holds whatever the error helper returned. */
  datatype Fields = Fields(code: string, error: Js, loading: bool, resending: bool, resent: bool)

  const Initial: Fields := Fields("", Str(""), false, false, false)

  /**
   * How the SDK's "send the code again" request ended. `PrepareSkipped` is
   * the optional call `signUp?.` / `signIn?.` on an absent resource: nothing
   * is requested and nothing throws.
   */
  datatype PrepareOutcome = Prepared | PrepareSkipped | PrepareThrew(err: Js)

  /** The attempt object the SDK returns: its `status` and `createdSessionId`. */
  datatype Attempt = Attempt(status: Js, createdSessionId: Js)

  /**
   * How the SDK's verification attempt ended; `Returned(None)` is an undefined
   * attempt, which is also what the optional call on an absent resource gives.
   */
  datatype AttemptOutcome = Returned(attempt: Option<Attempt>) | AttemptThrew(err: Js)

  /**
   * How the SDK's session activation ended. `ActivateSkipped` is the optional
   * call `setSignInActive?.` / `setSignUpActive?.` on an absent function.
   */
  datatype ActivateOutcome = Activated | ActivateSkipped | ActivateThrew(err: Js)

  /** The attempt returned with status "complete". */
  predicate Completed(attempt: AttemptOutcome) {
    attempt.Returned? && attempt.attempt.Some? && attempt.attempt.value.status == Str(Complete)
  }

  /** A call of `setActive` for `flow` with `session` as the session to activate. */
  datatype Activation = Activation(flow: Flow, session: Js)

  /**
   * One resend: `awaiting` is the state rendered while the SDK call is
   * pending, `prepared` the flow whose code was actually requested, `next`
   * the final state.
   */
  datatype ResendResult = ResendResult(awaiting: Option<Fields>, prepared: Option<Flow>, next: Fields)

  /** One verify: as for resend, with the session activation actually requested, if any. */
  datatype VerifyResult = VerifyResult(awaiting: Option<Fields>, activation: Option<Activation>, next: Fields)

  /** `handleResend` as a function of the state before it and the SDK's outcome. */
  function Resend(s: Fields, kind: string, signInLoaded: bool, signUpLoaded: bool, outcome: PrepareOutcome): (r: ResendResult)
    ensures !IsLoaded(kind, signInLoaded, signUpLoaded) || s.resending ==>
              r.next == s && r.awaiting.None? && r.prepared.None?
    ensures IsLoaded(kind, signInLoaded, signUpLoaded) && !s.resending ==>
              && r.awaiting == Some(s.(resending := true, error := Str("")))
              && (r.prepared.Some? <==> !outcome.PrepareSkipped?)
              && (r.prepared.Some? ==> r.prepared.value == ResendFlow(kind))
              && !r.next.resending
              && r.next.code == s.code && r.next.loading == s.loading
              && (!outcome.PrepareThrew? ==> r.next.resent && r.next.error == Str(""))
              && (outcome.PrepareThrew? ==> r.next.resent == s.resent && r.next.error == ClerkError.ErrorMessage(outcome.err))
  {
    if !IsLoaded(kind, signInLoaded, signUpLoaded) || s.resending then
      ResendResult(None, None, s)
    else
      var pending := s.(resending := true, error := Str(""));
      var prepared := if outcome.PrepareSkipped? then None else Some(ResendFlow(kind));
      var settled := match outcome
        case PrepareThrew(err) => pending.(error := ClerkError.ErrorMessage(err))
        case _ => pending.(resent := true);
      ResendResult(Some(pending), prepared, settled.(resending := false))
  }

  /** `handleVerify` as a function of the state before it and the SDK's outcomes. */
  function Verify(s: Fields, kind: string, signInLoaded: bool, signUpLoaded: bool,
                  attempt: AttemptOutcome, activate: ActivateOutcome): (r: VerifyResult)
    ensures !IsLoaded(kind, signInLoaded, signUpLoaded) ==>
              r.next == s && r.awaiting.None? && r.activation.None?
    ensures IsLoaded(kind, signInLoaded, signUpLoaded) ==>
              && r.awaiting == Some(s.(loading := true, error := Str("")))
              && !r.next.loading
              && r.next.code == s.code && r.next.resending == s.resending && r.next.resent == s.resent
    ensures r.activation.Some? <==>
              IsLoaded(kind, signInLoaded, signUpLoaded) && Completed(attempt) && !activate.ActivateSkipped?
    ensures r.activation.Some? ==>
              r.activation.value == Activation(LoadedFlow(kind), attempt.attempt.value.createdSessionId)
    ensures IsLoaded(kind, signInLoaded, signUpLoaded) && Completed(attempt) ==>
              r.next.error == (if activate.ActivateThrew? then ClerkError.ErrorMessage(activate.err) else Str(""))
    ensures IsLoaded(kind, signInLoaded, signUpLoaded) && attempt.Returned? && !Completed(attempt) ==>
              r.next.error == Str(VerificationFailed)
    ensures IsLoaded(kind, signInLoaded, signUpLoaded) && attempt.AttemptThrew? ==>
              r.next.error == ClerkError.ErrorMessage(attempt.err)
  {
    if !IsLoaded(kind, signInLoaded, signUpLoaded) then
      VerifyResult(None, None, s)
    else
      var pending := s.(loading := true, error := Str(""));
      match attempt
      case AttemptThrew(err) =>
        VerifyResult(Some(pending), None, pending.(error := ClerkError.ErrorMessage(err), loading := false))
      case Returned(a) =>
        if a.Some? && a.value.status == Str(Complete) then
          var error := if activate.ActivateThrew? then ClerkError.ErrorMessage(activate.err) else Str("");
          var activation := if activate.ActivateSkipped? then None
                            else Some(Activation(LoadedFlow(kind), a.value.createdSessionId));
          VerifyResult(Some(pending), activation, pending.(error := error, loading := false))
        else
          VerifyResult(Some(pending), None, pending.(error := Str(VerificationFailed), loading := false))
  }

  /**
   * The `navigate` callback handed to `setActive`: no route change while the
   * session has a pending task, otherwise replace the route with "/".
   */
  function Navigate(session: Js): (route: Option<string>)
    ensures route.None? <==> Truthy(Member(session, "currentTask"))
    ensures route.Some? ==> route.value == "/"
  {
    if Truthy(Member(session, "currentTask")) then None else Some("/")
  }

  /** A session without a `currentTask`, or `null`, leads home. */
  lemma NavigateHomeWithoutTask(props: map<string, Js>)
    requires "currentTask" !in props
    ensures Navigate(Obj(props)) == Some("/") && Navigate(Null) == Some("/")
  {
  }

  /** What can happen to the hook: typing, `setError`, or one of the two handlers running to the end. */
  datatype Event =
    | Type(text: string)
    | SetError(message: Js)
    | ResendPressed(signInLoaded: bool, signUpLoaded: bool, outcome: PrepareOutcome)
    | VerifyPressed(signInLoaded: bool, signUpLoaded: bool, attempt: AttemptOutcome, activate: ActivateOutcome)

  function Step(s: Fields, kind: string, e: Event): Fields {
    match e
    case Type(text) => s.(code := text)
    case SetError(message) => s.(error := message)
    case ResendPressed(inL, upL, outcome) => Resend(s, kind, inL, upL, outcome).next
    case VerifyPressed(inL, upL, attempt, activate) => Verify(s, kind, inL, upL, attempt, activate).next
  }

  function Run(s: Fields, kind: string, events: seq<Event>): Fields
    decreases |events|
  {
    if events == [] then s else Run(Step(s, kind, events[0]), kind, events[1..])
  }

  /** The `finally` blocks keep the hook at rest: after any events, neither handler is in flight. */
  lemma {:induction false} RunStaysAtRest(s: Fields, kind: string, events: seq<Event>)
    requires !s.loading && !s.resending
    ensures !Run(s, kind, events).loading && !Run(s, kind, events).resending
    decreases |events|
  {
    if events != [] {
      RunStaysAtRest(Step(s, kind, events[0]), kind, events[1..]);
    }
  }

  predicate NoTyping(events: seq<Event>, from: nat) {
    forall j :: from <= j < |events| ==> !events[j].Type?
  }

  /**
   * Only typing changes `code`: without typing it keeps its value, and
   * otherwise it is the text of the last typing event.
   */
  lemma {:induction false} CodeFollowsTyping(s: Fields, kind: string, events: seq<Event>)
    ensures NoTyping(events, 0) ==> Run(s, kind, events).code == s.code
    ensures forall i :: 0 <= i < |events| && events[i].Type? && NoTyping(events, i + 1) ==>
              Run(s, kind, events).code == events[i].text
    decreases |events|
  {
    if events != [] {
      var rest := events[1..];
      CodeFollowsTyping(Step(s, kind, events[0]), kind, rest);
      assert forall j :: 1 <= j < |events| ==> events[j] == rest[j - 1];
      forall i | 0 < i < |events| && events[i].Type? && NoTyping(events, i + 1)
        ensures Run(s, kind, events).code == events[i].text
      {
        assert rest[i - 1] == events[i];
        assert NoTyping(rest, i);
      }
    }
  }

  /** The hook's state, as React holds it between renders. */
  class VerifyCodeHook {
    const kind: string
    var code: string
    var error: Js
    var loading: bool
    var resending: bool
    var resent: bool

    function Snapshot(): Fields
      reads this
    {
      Fields(code, error, loading, resending, resent)
    }

    constructor (kind: string)
      ensures this.kind == kind && Snapshot() == Initial
    {
      this.kind := kind;
      code, error, loading, resending, resent := "", Str(""), false, false, false;
    }

    /** `setCode`, wired to the code input's text changes. */
    method SetCode(text: string)
      modifies this
      ensures Snapshot() == old(Snapshot()).(code := text)
    {
      code := text;
    }

    /** `setError`, returned to the screen. */
    method SetError(message: Js)
      modifies this
      ensures Snapshot() == old(Snapshot()).(error := message)
    {
      error := message;
    }

    /** `handleResend`, run to the end with the SDK's outcome. */
    method HandleResend(signInLoaded: bool, signUpLoaded: bool, outcome: PrepareOutcome)
      returns (awaiting: Option<Fields>, prepared: Option<Flow>)
      modifies this
      ensures var r := Resend(old(Snapshot()), kind, signInLoaded, signUpLoaded, outcome);
              awaiting == r.awaiting && prepared == r.prepared && Snapshot() == r.next
    {
      if !IsLoaded(kind, signInLoaded, signUpLoaded) || resending {
        return None, None;
      }
      resending := true;
      error := Str("");
      awaiting := Some(Snapshot());
      prepared := None;
      match outcome {
        case Prepared =>
          prepared := Some(ResendFlow(kind));
          resent := true;
        case PrepareSkipped =>
          resent := true;
        case PrepareThrew(err) =>
          prepared := Some(ResendFlow(kind));
          error := ClerkError.ErrorMessage(err);
      }
      resending := false;
    }

    /** `handleVerify`, run to the end with the SDK's outcomes. */
    method HandleVerify(signInLoaded: bool, signUpLoaded: bool, attempt: AttemptOutcome, activate: ActivateOutcome)
      returns (awaiting: Option<Fields>, activation: Option<Activation>)
      modifies this
      ensures var r := Verify(old(Snapshot()), kind, signInLoaded, signUpLoaded, attempt, activate);
              awaiting == r.awaiting && activation == r.activation && Snapshot() == r.next
    {
      if !IsLoaded(kind, signInLoaded, signUpLoaded) {
        return None, None;
      }
      loading := true;
      error := Str("");
      awaiting := Some(Snapshot());
      activation := None;
      match attempt {
        case AttemptThrew(err) =>
          error := ClerkError.ErrorMessage(err);
        case Returned(a) =>
          if a.Some? && a.value.status == Str(Complete) {
            if !activate.ActivateSkipped? {
              activation := Some(Activation(LoadedFlow(kind), a.value.createdSessionId));
            }
            if activate.ActivateThrew? {
              error := ClerkError.ErrorMessage(activate.err);
            }
          } else {
            error := Str(VerificationFailed);
          }
      }
      loading := false;
    }
  }
}
