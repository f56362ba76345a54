/**
 * The second-factor page (app/mfa/verify/page.js): the mount-time redirect
 * for sessions already at aal2, the code input filter, the submit button's
 * enabling rule, and the submit handler's list-factors / challenge / verify
 * sequence.
 */
module MfaVerify {
  import opened Wrappers
  import opened Backend
  import opened Text

  const CodeLength := 6
  const NoFactorMessage := "No authenticator app is set up. Please contact support."
  const DefaultVerifyMessage := "Invalid or expired code. Please try again with the latest code from your authenticator app."

  /** Where the page sends the browser on load, if anywhere: `/` once the session is at aal2. */
  function MountRedirect(levels: Option<AssuranceLevels>): (target: Option<string>)
    ensures target.Some? <==> AtAal2(levels)
    ensures target.Some? ==> target.value == HomePath
  {
    if AtAal2(levels) then Some(HomePath) else None
  }

  /** The input filter `replace(/\D/g, "").slice(0, 6)`. */
  function FilterCode(value: string): (code: string)
    ensures AllDigits(code) && |code| <= CodeLength
    ensures AllDigits(value) && |value| <= CodeLength ==> code == value
  {
    var digits := DigitsOnly(value);
    if |digits| <= CodeLength then digits else digits[..CodeLength]
  }

  /** Filtering a filtered code changes nothing. */
  lemma FilterIdempotent(value: string)
    ensures FilterCode(FilterCode(value)) == FilterCode(value)
  {
  }

  /** Typing one character after a filtered code: a digit is appended while there is room; anything else is dropped. */
  lemma {:induction false} FilterKeystroke(code: string, c: char)
    requires AllDigits(code) && |code| <= CodeLength
    ensures FilterCode(code + [c]) == if IsDigit(c) && |code| < CodeLength then code + [c] else code
  {
    DigitsOnlyAppend(code, [c]);
    assert DigitsOnly([c]) == if IsDigit(c) then [c] else [] by {
      assert [c][1..] == [];
    }
    if IsDigit(c) && |code| == CodeLength {
      assert (code + [c])[..CodeLength] == code;
    }
  }

  /** Characters that are not digits never reach the code. */
  lemma NonDigitsGiveEmptyCode(value: string)
    requires forall i :: 0 <= i < |value| ==> !IsDigit(value[i])
    ensures FilterCode(value) == ""
  {
    DigitsOnlyOfNonDigits(value);
  }

  /** The submit button is enabled: not loading and exactly six characters. */
  predicate CanSubmit(loading: bool, code: string)
  {
    !loading && |code| == CodeLength
  }

  /** Through the filter, submitting becomes possible exactly when the input held at least six digits. */
  lemma SubmitNeedsSixDigits(value: string)
    ensures CanSubmit(false, FilterCode(value)) <==> |DigitsOnly(value)| >= CodeLength
    ensures CanSubmit(false, FilterCode(value)) ==> FilterCode(value) == DigitsOnly(value)[..CodeLength]
  {
  }

  datatype Factor = Factor(id: string)

  /** The answer of `listFactors()`: an error message, or the TOTP list (missing when absent from the data). */
  datatype ListFactorsAnswer = ListFailed(message: string) | Listed(totp: Option<seq<Factor>>)

  /** The answer of `challenge({factorId})`: an error message, or the new challenge's id. */
  datatype ChallengeAnswer = ChallengeFailed(message: string) | Challenged(id: string)

  /** `factorsData?.totp ?? []`. */
  function TotpFactors(list: ListFactorsAnswer): seq<Factor>
  {
    if list.Listed? && list.totp.Some? then list.totp.value else []
  }

  /** The run gets as far as the verify call. */
  predicate ReachesVerify(list: ListFactorsAnswer, challenge: ChallengeAnswer)
  {
    list.Listed? && |TotpFactors(list)| > 0 && challenge.Challenged?
  }

  /** `verifyError.message || default`. */
  function VerifyErrorText(message: string): (text: string)
    ensures text != ""
    ensures message != "" ==> text == message
    ensures message == "" ==> text == DefaultVerifyMessage
  {
    if message == "" then DefaultVerifyMessage else message
  }

  /** What the page does, in order: state setter calls, backend calls, router calls. */
  datatype Effect =
    | SetError(error: Option<string>)
    | SetLoading(loading: bool)
    | SetCode(code: string)
    | GetAssuranceLevel
    | ListFactors
    | Challenge(factorId: string)
    | Verify(factorId: string, challengeId: string, code: string)
    | Push(path: string)
    | Replace(path: string)
    | Refresh

  predicate IsOutcome(e: Effect)
  {
    e.Push? || (e.SetError? && e.error.Some?)
  }

  /** Before position `i`, the last `loading` write set it to false. */
  predicate LoadingOffAt(es: seq<Effect>, i: int)
  {
    exists j :: 0 <= j < i <= |es| && es[j] == SetLoading(false)
      && forall k :: j < k < i ==> !es[k].SetLoading?
  }

  /** What the mount effect does. */
  function MountEffects(levels: Option<AssuranceLevels>): seq<Effect>
  {
    [GetAssuranceLevel] + match MountRedirect(levels)
      case None => []
      case Some(target) => [Replace(target)]
  }

  /** Show an error message and stop the spinner. */
  function FailWith(message: string): seq<Effect>
  {
    [SetError(Some(message)), SetLoading(false)]
  }

  /** From the verify call on. */
  function VerifyEffects(factorId: string, challengeId: string, code: string,
                         verifyError: Option<string>): seq<Effect>
  {
    [Verify(factorId, challengeId, Trim(code)), SetLoading(false)]
    + if verifyError.Some? then [SetError(Some(VerifyErrorText(verifyError.value))), SetCode("")]
      else [Push(HomePath), Refresh]
  }

  /** From the challenge call on. */
  function ChallengeEffects(factorId: string, code: string, challenge: ChallengeAnswer,
                            verifyError: Option<string>): seq<Effect>
  {
    [Challenge(factorId)]
    + match challenge
      case ChallengeFailed(m) => FailWith(m)
      case Challenged(challengeId) => VerifyEffects(factorId, challengeId, code, verifyError)
  }

  /**
   * One run of `handleSubmit` for the current `code`, given the backend's
   * answers. The challenge and verify answers are used only if the run gets
   * that far.
   */
  function SubmitEffects(code: string, list: ListFactorsAnswer, challenge: ChallengeAnswer,
                         verifyError: Option<string>): seq<Effect>
  {
    [SetError(None), SetLoading(true), ListFactors]
    + match list
      case ListFailed(m) => FailWith(m)
      case Listed(_) =>
        if |TotpFactors(list)| == 0 then FailWith(NoFactorMessage)
        else ChallengeEffects(TotpFactors(list)[0].id, code, challenge, verifyError)
  }

  /** The error the page shows when the run ends. */
  function SubmitError(list: ListFactorsAnswer, challenge: ChallengeAnswer,
                       verifyError: Option<string>): (error: Option<string>)
    ensures error.None? <==> ReachesVerify(list, challenge) && verifyError.None?
  {
    match list
    case ListFailed(m) => Some(m)
    case Listed(_) =>
      if |TotpFactors(list)| == 0 then Some(NoFactorMessage)
      else match challenge
        case ChallengeFailed(m) => Some(m)
        case Challenged(_) => if verifyError.Some? then Some(VerifyErrorText(verifyError.value)) else None
  }

  /** A list-factors error is shown and ends the run: no challenge, no verify, the code is kept. */
  lemma ListFailureStops(code: string, message: string, challenge: ChallengeAnswer, verifyError: Option<string>)
    ensures var es := SubmitEffects(code, ListFailed(message), challenge, verifyError);
      es[3..] == [SetError(Some(message)), SetLoading(false)]
      && forall i :: 0 <= i < |es| ==> !es[i].Challenge? && !es[i].Verify? && !es[i].SetCode?
  {
  }

  /** Without a TOTP factor the fixed message is shown and no challenge is requested. */
  lemma NoFactorStops(code: string, totp: Option<seq<Factor>>, challenge: ChallengeAnswer, verifyError: Option<string>)
    requires totp.None? || totp.value == []
    ensures var es := SubmitEffects(code, Listed(totp), challenge, verifyError);
      es[3..] == [SetError(Some(NoFactorMessage)), SetLoading(false)]
      && forall i :: 0 <= i < |es| ==> !es[i].Challenge? && !es[i].Verify? && !es[i].SetCode?
  {
  }

  /**
   * The first TOTP factor is the one challenged and verified, and every
   * verify is preceded in the same run by a challenge for that factor whose
   * answer supplies the challenge id. Each run issues at most one of each.
   */
  lemma {:induction false} VerifyUsesFreshChallenge(code: string, list: ListFactorsAnswer,
                                                    challenge: ChallengeAnswer, verifyError: Option<string>)
    ensures var es := SubmitEffects(code, list, challenge, verifyError);
      (forall i :: 0 <= i < |es| && es[i].Challenge? ==> i == 3 && es[i].factorId == TotpFactors(list)[0].id)
      && (forall i :: 0 <= i < |es| && es[i].Verify? ==>
            i == 4 && es[3] == Challenge(es[i].factorId)
            && challenge == Challenged(es[i].challengeId) && es[i].code == Trim(code))
  {
    var es := SubmitEffects(code, list, challenge, verifyError);
    if list.Listed? && |TotpFactors(list)| > 0 {
      assert es[3] == Challenge(TotpFactors(list)[0].id);
      assert forall i :: 4 < i < |es| ==> !es[i].Challenge? && !es[i].Verify?;
    }
  }

  /**
   * Only a failed verify clears the code, and its message is the backend's or
   * the default text when that is empty; success goes to `/`.
   */
  lemma {:induction false} CodeClearedOnlyOnVerifyFailure(code: string, list: ListFactorsAnswer,
                                                          challenge: ChallengeAnswer, verifyError: Option<string>)
    ensures var es := SubmitEffects(code, list, challenge, verifyError);
      (SetCode("") in es <==> ReachesVerify(list, challenge) && verifyError.Some?)
      && (forall i :: 0 <= i < |es| && es[i].SetCode? ==> es[i].code == "")
      && (Push(HomePath) in es <==> ReachesVerify(list, challenge) && verifyError.None?)
      && (ReachesVerify(list, challenge) && verifyError.Some? ==>
            SetError(Some(VerifyErrorText(verifyError.value))) in es)
  {
    var es := SubmitEffects(code, list, challenge, verifyError);
    if ReachesVerify(list, challenge) {
      assert es[5] == SetLoading(false);
      if verifyError.Some? {
        assert es[7] == SetCode("") && es[6] == SetError(Some(VerifyErrorText(verifyError.value)));
      } else {
        assert es[6] == Push(HomePath);
      }
    }
  }

  /** Every run ends with the spinner off, and the last error written is `SubmitError`. */
  lemma {:induction false} LoadingOffOnEveryExit(code: string, list: ListFactorsAnswer,
                                                 challenge: ChallengeAnswer, verifyError: Option<string>)
    ensures var es := SubmitEffects(code, list, challenge, verifyError);
      LoadingOffAt(es, |es|)
      && exists j :: 0 <= j < |es| && es[j] == SetError(SubmitError(list, challenge, verifyError))
           && forall k :: j < k < |es| ==> !es[k].SetError?
  {
    var es := SubmitEffects(code, list, challenge, verifyError);
    var stopsEarly := list.ListFailed? || |TotpFactors(list)| == 0;
    var off := if stopsEarly then 4 else 5;
    var shown := if ReachesVerify(list, challenge) && verifyError.Some? then 6 else off - 1;
    assert es[off] == SetLoading(false);
    assert forall k :: off < k < |es| ==> !es[k].SetLoading?;
    if ReachesVerify(list, challenge) && verifyError.None? {
      assert es[0] == SetError(None);
      assert forall k :: 0 < k < |es| ==> !es[k].SetError?;
    } else {
      assert es[shown] == SetError(SubmitError(list, challenge, verifyError));
      assert forall k :: shown < k < |es| ==> !es[k].SetError?;
    }
  }

  /** The page component's state and what it has done so far. */
  class MfaVerifyPage {
    var code: string
    var error: Option<string>
    var loading: bool
    var effects: seq<Effect>

    constructor ()
      ensures code == "" && error == None && !loading && effects == []
    {
      code, error, loading, effects := "", None, false, [];
    }

    /** The submit button's `disabled` attribute, negated. */
    function SubmitEnabled(): bool
      reads this
    {
      CanSubmit(loading, code)
    }

    /** `setCode`. */
    method WriteCode(c: string)
      modifies this`code, this`effects
      ensures code == c && effects == old(effects) + [SetCode(c)]
    {
      code := c;
      effects := effects + [SetCode(c)];
    }

    /** `setError`. */
    method WriteError(err: Option<string>)
      modifies this`error, this`effects
      ensures error == err && effects == old(effects) + [SetError(err)]
    {
      error := err;
      effects := effects + [SetError(err)];
    }

    /** `setLoading`. */
    method WriteLoading(b: bool)
      modifies this`loading, this`effects
      ensures loading == b && effects == old(effects) + [SetLoading(b)]
    {
      loading := b;
      effects := effects + [SetLoading(b)];
    }

    /** A backend or router call. */
    method Emit(e: Effect)
      requires !e.SetCode? && !e.SetError? && !e.SetLoading?
      modifies this`effects
      ensures effects == old(effects) + [e]
    {
      effects := effects + [e];
    }

    /** The mount effect, with the assurance data as a parameter. */
    method Mount(levels: Option<AssuranceLevels>)
      modifies this`effects
      ensures effects == old(effects) + MountEffects(levels)
    {
      effects := effects + [GetAssuranceLevel];
      var target := MountRedirect(levels);
      if target.Some? {
        effects := effects + [Replace(target.value)];
      }
    }

    /** The input's `onChange`. */
    method HandleCodeChange(value: string)
      modifies this`code, this`effects
      ensures code == FilterCode(value)
      ensures effects == old(effects) + [SetCode(FilterCode(value))]
    {
      var v := FilterCode(value);
      code := v;
      effects := effects + [SetCode(v)];
    }

    /** `handleSubmit`, with the backend's answers as parameters. */
    method HandleSubmit(list: ListFactorsAnswer, challenge: ChallengeAnswer, verifyError: Option<string>)
      modifies this`code, this`error, this`loading, this`effects
      ensures effects == old(effects) + SubmitEffects(old(code), list, challenge, verifyError)
      ensures error == SubmitError(list, challenge, verifyError) && !loading
      ensures code == if ReachesVerify(list, challenge) && verifyError.Some? then "" else old(code)
    {
      ghost var before := effects;
      WriteError(None);
      WriteLoading(true);
      Emit(ListFactors);
      ghost var started := effects;
      assert started == before + [SetError(None), SetLoading(true), ListFactors];
      if list.ListFailed? {
        WriteError(Some(list.message));
        WriteLoading(false);
        assert effects == started + FailWith(list.message);
        return;
      }
      var totpFactors := if list.totp.Some? then list.totp.value else [];
      if |totpFactors| == 0 {
        WriteError(Some(NoFactorMessage));
        WriteLoading(false);
        assert effects == started + FailWith(NoFactorMessage);
        return;
      }
      ChallengeAndVerify(totpFactors[0].id, challenge, verifyError);
    }

    /** The rest of `handleSubmit` once the first TOTP factor is known. */
    method ChallengeAndVerify(factorId: string, challenge: ChallengeAnswer, verifyError: Option<string>)
      modifies this`code, this`error, this`loading, this`effects
      ensures effects == old(effects) + ChallengeEffects(factorId, old(code), challenge, verifyError)
      ensures !loading
      ensures error == if challenge.ChallengeFailed? then Some(challenge.message)
        else if verifyError.Some? then Some(VerifyErrorText(verifyError.value)) else old(error)
      ensures code == if challenge.Challenged? && verifyError.Some? then "" else old(code)
    {
      Emit(Challenge(factorId));
      ghost var challenged := effects;
      if challenge.ChallengeFailed? {
        WriteError(Some(challenge.message));
        WriteLoading(false);
        assert effects == challenged + FailWith(challenge.message);
        return;
      }
      ghost var submitted := code;
      Emit(Verify(factorId, challenge.id, Trim(code)));
      WriteLoading(false);
      if verifyError.Some? {
        WriteError(Some(VerifyErrorText(verifyError.value)));
        WriteCode("");
      } else {
        Emit(Push(HomePath));
        Emit(Refresh);
      }
      assert effects == challenged + VerifyEffects(factorId, challenge.id, submitted, verifyError);
    }
  }

  /** A code typed through the filter reaches the verify call unchanged by `trim()`. */
  lemma FilteredCodeSurvivesTrim(value: string)
    ensures Trim(FilterCode(value)) == FilterCode(value)
  {
    TrimClean(FilterCode(value));
  }
}
