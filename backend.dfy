/**
 * What the application sees of its hosted identity backend: the answers of
 * the backend calls, which every gate and page below takes as parameters, and
 * the route paths the application navigates between.
 */
module Backend {
  import opened Wrappers

  const LoginPath := "/login"
  const MfaVerifyPath := "/mfa/verify"
  const HomePath := "/"

  /** The signed-in principal as `getUser()` returns it; only its id is used. */
  datatype User = User(id: string)

  /** Authenticator assurance level: password only, or password plus second factor. */
  datatype Level = Aal1 | Aal2

  /**
   * The data of `getAuthenticatorAssuranceLevel()`. Either level may be
   * missing; the whole record is missing (None) when the call fails.
   */
  datatype AssuranceLevels = AssuranceLevels(currentLevel: Option<Level>, nextLevel: Option<Level>)

  /** The backend's view of one browser session, as the gates may query it. */
  datatype Session = Session(user: Option<User>, levels: Option<AssuranceLevels>)

  /** The optional-chaining test `data?.currentLevel === "aal2"`. */
  predicate AtAal2(levels: Option<AssuranceLevels>)
  {
    levels.Some? && levels.value.currentLevel == Some(Aal2)
  }
}
