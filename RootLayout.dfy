/**
 * The root stack: exactly one of the auth screens and the app screens is
 * reachable, chosen by the identity provider's sign-in status (undefined
 * while it is still loading).
 */
module RootLayout {
  import opened Wrappers

  const AuthGroup: string := "(auth)"
  const AppGroup: string := "(app)"

  /** `!isSignedIn`: undefined counts as signed out. */
  function AuthGuard(isSignedIn: Option<bool>): (enabled: bool)
    ensures enabled <==> isSignedIn != Some(true)
  {
    !isSignedIn.GetOr(false)
  }

  /** `!!isSignedIn`. */
  function AppGuard(isSignedIn: Option<bool>): (enabled: bool)
    ensures enabled <==> isSignedIn == Some(true)
  {
    isSignedIn.GetOr(false)
  }

  /** A stack screen with its header option. */
  datatype Screen = Screen(name: string, headerShown: bool)

  /** The screens whose guard is true, in declaration order, all sharing `headerShown: false`. */
  function ReachableScreens(isSignedIn: Option<bool>): (screens: seq<Screen>)
    ensures |screens| == 1
    ensures screens[0].name == (if isSignedIn == Some(true) then AppGroup else AuthGroup)
    ensures forall i :: 0 <= i < |screens| ==> !screens[i].headerShown
  {
    (if AuthGuard(isSignedIn) then [Screen(AuthGroup, false)] else []) +
    (if AppGuard(isSignedIn) then [Screen(AppGroup, false)] else [])
  }

  /** Exactly one group is enabled for every sign-in status. */
  lemma ExactlyOneGroup(isSignedIn: Option<bool>)
    ensures AuthGuard(isSignedIn) != AppGuard(isSignedIn)
  {
  }
}
