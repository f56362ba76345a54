/**
 * The sign-in page (app/login/page.js): its `error` and `loading` state, the
 * submit handler, and the choice between the second-factor page and `/`.
 */
module Login {
  import opened Wrappers
  import opened Backend

  /** The account requires a second factor the session has not presented yet. */
  predicate NeedsMfa(levels: Option<AssuranceLevels>)
  {
    levels.Some? && levels.value.nextLevel == Some(Aal2) && levels.value.currentLevel != Some(Aal2)
  }

  /** Where a successful sign-in goes. */
  function SignInTarget(levels: Option<AssuranceLevels>): (path: string)
    ensures path == MfaVerifyPath || path == HomePath
    ensures path == MfaVerifyPath <==> NeedsMfa(levels)
  {
    if NeedsMfa(levels) then MfaVerifyPath else HomePath
  }

  /** Missing assurance data never asks for a second factor. */
  lemma MissingLevelsGoHome()
    ensures SignInTarget(None) == HomePath
    ensures SignInTarget(Some(AssuranceLevels(None, None))) == HomePath
  {
  }

  /** A session already at aal2 goes to `/`, whatever the next level is. */
  lemma ElevatedGoesHome(levels: Option<AssuranceLevels>)
    requires AtAal2(levels)
    ensures SignInTarget(levels) == HomePath
  {
  }

  /** Only an aal2 requirement not yet met leads to the second-factor page. */
  lemma MfaOnlyWhenRequired(current: Option<Level>, next: Option<Level>)
    ensures SignInTarget(Some(AssuranceLevels(current, next))) == MfaVerifyPath
      <==> next == Some(Aal2) && current != Some(Aal2)
  {
  }

  /** What the page does, in order: state setter calls, backend calls, router calls. */
  datatype Effect =
    | SetError(error: Option<string>)
    | SetLoading(loading: bool)
    | SignInWithPassword(email: string, password: string)
    | GetAssuranceLevel
    | Push(path: string)
    | Refresh

  /** An error shown to the user or a navigation. */
  predicate IsOutcome(e: Effect)
  {
    e.Push? || (e.SetError? && e.error.Some?)
  }

  /** Before position `i`, the last `loading` write set it to false. */
  predicate LoadingOffAt(es: seq<Effect>, i: int)
  {
    exists j :: 0 <= j < i <= |es| && es[j] == SetLoading(false)
      && forall k :: j < k < i ==> !es[k].SetLoading?
  }

  /**
   * One run of `handleSubmit`, given the backend's answers: the sign-in error
   * message, if any, and the assurance data it would report.
   */
  function SubmitEffects(email: string, password: string, signInError: Option<string>,
                         levels: Option<AssuranceLevels>): seq<Effect>
  {
    [SetError(None), SetLoading(true), SignInWithPassword(email, password), SetLoading(false)]
    + if signInError.Some? then [SetError(signInError)]
      else [GetAssuranceLevel, Push(SignInTarget(levels)), Refresh]
  }

  /** A sign-in error is shown and ends the run: no assurance query, no navigation. */
  lemma SignInFailureStops(email: string, password: string, message: string,
                           levels: Option<AssuranceLevels>)
    ensures var es := SubmitEffects(email, password, Some(message), levels);
      GetAssuranceLevel !in es && (forall i :: 0 <= i < |es| ==> !es[i].Push?)
      && es[|es| - 1] == SetError(Some(message))
  {
  }

  /** A successful sign-in navigates exactly once, to the target the assurance data selects, then refreshes. */
  lemma {:induction false} SignInSuccessNavigatesOnce(email: string, password: string,
                                                      levels: Option<AssuranceLevels>)
    ensures var es := SubmitEffects(email, password, None, levels);
      Push(SignInTarget(levels)) in es && es[|es| - 1] == Refresh
      && (forall i, j :: 0 <= i < |es| && 0 <= j < |es| && es[i].Push? && es[j].Push? ==> i == j)
  {
    var es := SubmitEffects(email, password, None, levels);
    assert es[5] == Push(SignInTarget(levels));
    assert forall i :: 0 <= i < |es| && es[i].Push? ==> i == 5;
  }

  /**
   * A run first clears the error and shows the spinner, keeps it on while
   * signing in, and turns it off before any error or navigation is shown.
   */
  lemma {:induction false} LoadingClearedBeforeOutcome(email: string, password: string,
                                                       signInError: Option<string>,
                                                       levels: Option<AssuranceLevels>)
    ensures var es := SubmitEffects(email, password, signInError, levels);
      es[..3] == [SetError(None), SetLoading(true), SignInWithPassword(email, password)]
      && forall i :: 0 <= i < |es| && IsOutcome(es[i]) ==> LoadingOffAt(es, i)
  {
    var es := SubmitEffects(email, password, signInError, levels);
    forall i | 0 <= i < |es| && IsOutcome(es[i]) ensures LoadingOffAt(es, i) {
      assert es[3] == SetLoading(false);
      assert forall k :: 3 < k < |es| ==> !es[k].SetLoading?;
    }
  }

  /** The page component's state and what it has done so far. */
  class LoginPage {
    var email: string
    var password: string
    var error: Option<string>
    var loading: bool
    var effects: seq<Effect>

    constructor ()
      ensures email == "" && password == "" && error == None && !loading && effects == []
    {
      email, password, error, loading, effects := "", "", None, false, [];
    }

    method HandleEmailChange(value: string)
      modifies this`email
      ensures email == value
    {
      email := value;
    }

    method HandlePasswordChange(value: string)
      modifies this`password
      ensures password == value
    {
      password := value;
    }

    /** `setError`. */
    method WriteError(err: Option<string>)
      modifies this`error, this`effects
      ensures error == err && effects == old(effects) + [SetError(err)]
    {
      error := err;
      effects := effects + [SetError(err)];
    }

    /** `setLoading`. */
    method WriteLoading(b: bool)
      modifies this`loading, this`effects
      ensures loading == b && effects == old(effects) + [SetLoading(b)]
    {
      loading := b;
      effects := effects + [SetLoading(b)];
    }

    /** A backend or router call. */
    method Emit(e: Effect)
      requires !e.SetError? && !e.SetLoading?
      modifies this`effects
      ensures effects == old(effects) + [e]
    {
      effects := effects + [e];
    }

    /** `handleSubmit`, with the backend's answers as parameters. */
    method HandleSubmit(signInError: Option<string>, levels: Option<AssuranceLevels>)
      modifies this`error, this`loading, this`effects
      ensures effects == old(effects) + SubmitEffects(old(email), old(password), signInError, levels)
      ensures error == signInError && !loading
    {
      WriteError(None);
      WriteLoading(true);
      Emit(SignInWithPassword(email, password));
      WriteLoading(false);
      if signInError.Some? {
        WriteError(signInError);
        return;
      }
      Emit(GetAssuranceLevel);
      var needsMfa := NeedsMfa(levels);
      if needsMfa {
        Emit(Push(MfaVerifyPath));
      } else {
        Emit(Push(HomePath));
      }
      Emit(Refresh);
    }
  }
}
