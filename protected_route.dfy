/** The route guard: who may see a protected page. */
module ProtectedRoute {
  import opened Wrappers
  import opened SafetyTypes

  datatype Decision = RedirectToSignIn | RedirectToDashboard | Render

  /**
   * The guard, from whether a user is signed in, their user type (`None`
   * while unknown) and the page's allowed types (`None` when the page names
   * none).
   */
  function Guard(signedIn: bool, userType: Option<UserType>, allowedTypes: Option<seq<UserType>>): Decision
  {
    if !signedIn then RedirectToSignIn
    else if allowedTypes.Some? && userType.Some? && userType.value !in allowedTypes.value then RedirectToDashboard
    else Render
  }

  /** The four rules of the guard. */
  lemma GuardRules(signedIn: bool, userType: Option<UserType>, allowedTypes: Option<seq<UserType>>)
    ensures !signedIn ==> Guard(signedIn, userType, allowedTypes) == RedirectToSignIn
    ensures Guard(signedIn, userType, allowedTypes) == RedirectToDashboard <==>
            signedIn && userType.Some? && allowedTypes.Some? && userType.value !in allowedTypes.value
    ensures signedIn && userType.None? ==> Guard(signedIn, userType, allowedTypes) == Render
    ensures signedIn && allowedTypes.None? ==> Guard(signedIn, userType, allowedTypes) == Render
  {
  }

  /** A page is only ever rendered for a signed-in user whose known type, if any, is allowed. */
  lemma RenderedOnlyForAllowed(signedIn: bool, userType: Option<UserType>, allowedTypes: Option<seq<UserType>>)
    requires Guard(signedIn, userType, allowedTypes) == Render
    ensures signedIn
    ensures userType.Some? && allowedTypes.Some? ==> userType.value in allowedTypes.value
  {
  }
}
