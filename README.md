# authent_repo: a Dafny model of the gating and form logic

The application is a small Next.js front end over a hosted Supabase backend.
People sign in with email and password. They may then be asked for a TOTP
second factor. After that they use a two-field equipment form whose entries
are inserted into the `equipment_entries` table. The backend does the real work.
This model covers the logic the repository writes itself:

- the request gate in `proxy.js`: a public-prefix allow-list, then a redirect to `/login` when there is no user (module `Proxy`);
- the post-sign-in routing in `app/login/page.js`: the "needs MFA" test and the choice between `/mfa/verify` and `/` (module `Login`);
- the second-factor page in `app/mfa/verify/page.js` (module `MfaVerify`):
  - the redirect on load for sessions already at `aal2`;
  - the digit filter on the code input;
  - the rule that enables the submit button;
  - the list-factors → challenge → verify sequence;
- the presence check of `app/mfa/layout.js` (module `MfaLayout`);
- the equipment form of `app/MainScreen.js` and `app/page.js` (modules `EquipmentForm`, `MainScreen`, `RootPage`):
  - the length guard and the signed-integer guard;
  - the derivation of minutes;
  - the record a save inserts;
- the cookie adapter of `lib/supabase/client.js` (module `SupabaseClient`).

The model uses these conventions:

- **Backend answers are parameters.** Every backend answer is passed in as a value: the user (`Option<User>`), the assurance levels, the factor list, the challenge result, and the sign-in, verify and insert errors (`Backend`, and the answer datatypes in each module).
- **Pages are classes.** Each React component with state is a `class`. Its fields are the `useState` variables. Its handler methods change those fields step by step, as the JavaScript does.
- **Effects are logged.** `LoginPage`, `MfaVerifyPage` and `MainScreen` also have an `effects` log. It records, in order, what the sign-in submit, code submit, code input, mount, save and sign-out handlers do: their state-setter calls, backend calls and router calls (`push`, `replace`, `refresh`). A pure function (`SubmitEffects`, `SaveEffects`, `MountEffects`) states what one run of a handler appends to the log, and each handler method is proved to append exactly that. The ordering properties are lemmas about those functions. Examples: no challenge after a failed factor list, every verify preceded by a challenge, and, on the sign-in page, `loading` turned off before an error is shown.
- **Plain field updates are not logged.** The email and password inputs, and the two guarded equipment-form inputs, only assign their field. `RootPage.AuthentPage` has no log at all. Their methods state the new field value directly.
- **JavaScript built-ins are modelled exactly.**
  - `Text` covers `\d`, `trim()` with ECMAScript's white-space set, `indexOf`, `split` with a string separator, and `join`. It proves that `split` inverts `join`.
  - `JsNumber` covers `parseInt(s, 10)` with NaN as `None`, and `String(n)`. It proves `parseInt(String(n)) == n`.

Two points about what the code checks:

- `proxy.js` checks only that a user is present (`Proxy.GateReadsOnlyUserPresence`, `Proxy.Aal1UserReachesHome`). Nothing on `/` checks `aal2`: `app/page.js` has no assurance check of its own.
- On the code page only a failed verify clears the entered code. A failed factor listing, a missing factor or a failed challenge keep it (`MfaVerify.CodeClearedOnlyOnVerifyFailure`).

## Model

| member | source | states |
|---|---|---|
| Proxy.Gate | proxy.js:4-43 | redirects exactly when the path is not public and there is no user; the redirect target is the request URL with only its pathname set to `/login` |
| Proxy.PublicPathIgnoresSession | proxy.js:8-15 | a path starting with `/login`, `/mfa`, `/_next` or `/favicon.ico` passes for every session, so the user lookup's answer is never used |
| Proxy.GateReadsOnlyUserPresence | proxy.js:31-42 | two sessions that agree on whether a user is present get the same decision; assurance levels are never consulted |
| Proxy.Aal1UserReachesHome | proxy.js:36-42 | a signed-in user at aal1 whose next level is aal2 gets Continue on `/` |
| Proxy.RedirectKeepsUrl | proxy.js:37-39 | the redirect keeps protocol, host, query and fragment and sets the pathname to `/login` |
| Proxy.RedirectTargetPasses | proxy.js:8-40 | no redirect loop: the redirect target passes the gate for any later session |
| Proxy.PrefixMatchingIsRaw | proxy.js:9-12 | matching is raw and case-sensitive: `/loginx`, `/mfa-x`, `/mfa/verify` are public; `/Login`, `/`, `/settings/security` are not |
| Login.SignInTarget | app/login/page.js:32-40 | the target is `/mfa/verify` exactly when the next level is aal2 and the current level is not, and `/` otherwise |
| Login.MissingLevelsGoHome | app/login/page.js:32-34 | missing assurance data, or missing levels, lead to `/` |
| Login.ElevatedGoesHome | app/login/page.js:33-34 | a session already at aal2 goes to `/` whatever the next level is |
| Login.MfaOnlyWhenRequired | app/login/page.js:33-34 | both directions: `/mfa/verify` iff next level aal2 and current level not aal2 |
| Login.SignInFailureStops | app/login/page.js:27-30 | after a sign-in error the run queries no assurance level, navigates nowhere, and ends by showing the error message |
| Login.SignInSuccessNavigatesOnce | app/login/page.js:32-41 | after a successful sign-in exactly one push happens, to `SignInTarget`, followed by a refresh |
| Login.LoadingClearedBeforeOutcome | app/login/page.js:16-41 | a run first clears the error and turns `loading` on before signing in; `loading` is off before any error is shown or navigation pushed |
| Login.LoginPage.constructor | app/login/page.js:9-12 | empty email and password, no error, not loading |
| Login.LoginPage.HandleEmailChange | app/login/page.js:80 | the email field takes the input's value |
| Login.LoginPage.HandlePasswordChange | app/login/page.js:99 | the password field takes the input's value |
| Login.LoginPage.HandleSubmit | app/login/page.js:14-42 | appends exactly `SubmitEffects` for the current email and password; ends with `error` equal to the sign-in error (or none) and `loading` false |
| MfaVerify.MountRedirect | app/mfa/verify/page.js:13-20 | on load the page replaces the location with `/` exactly when the current level is aal2, and does nothing otherwise |
| MfaVerify.MfaVerifyPage.Mount | app/mfa/verify/page.js:13-20 | appends the assurance query and, only at aal2, `replace("/")` |
| MfaVerify.FilterCode | app/mfa/verify/page.js:115 | the code holds only digits and at most 6 of them; an all-digit input of at most 6 characters is kept unchanged |
| MfaVerify.FilterIdempotent | app/mfa/verify/page.js:115 | filtering a filtered code changes nothing |
| MfaVerify.FilterKeystroke | app/mfa/verify/page.js:114-117 | typing one character after a code appends it if it is a digit and fewer than 6 are present, and drops it otherwise |
| MfaVerify.NonDigitsGiveEmptyCode | app/mfa/verify/page.js:115 | input made only of non-digits yields the empty code |
| MfaVerify.SubmitNeedsSixDigits | app/mfa/verify/page.js:115-127 | through the filter, submit (not loading, length exactly 6) is enabled iff the input held at least six digits, and then the code is the first six |
| MfaVerify.MfaVerifyPage.HandleCodeChange | app/mfa/verify/page.js:114-117 | the code field becomes `FilterCode` of the input |
| MfaVerify.VerifyErrorText | app/mfa/verify/page.js:64-67 | the shown verify error is the backend's message when that is non-empty, and exactly the default "Invalid or expired code…" text when it is empty |
| MfaVerify.SubmitError | app/mfa/verify/page.js:31-70 | the error left after a run is absent exactly when the run reaches verify and verify succeeds |
| MfaVerify.ListFailureStops | app/mfa/verify/page.js:31-35 | a list-factors error is shown then `loading` cleared; no challenge, no verify, and the code is not touched |
| MfaVerify.NoFactorStops | app/mfa/verify/page.js:37-44 | with no TOTP factor (missing or empty list) the fixed message is shown, and no challenge or verify is issued |
| MfaVerify.VerifyUsesFreshChallenge | app/mfa/verify/page.js:38-59 | at most one challenge per run, for the first TOTP factor; a verify happens only right after it, with the same factor id, the id of that run's challenge answer, and the trimmed code |
| MfaVerify.CodeClearedOnlyOnVerifyFailure | app/mfa/verify/page.js:61-73 | the code is cleared iff verify is reached and fails, and the shown message is then `VerifyErrorText`; `/` is pushed iff verify succeeds |
| MfaVerify.LoadingOffOnEveryExit | app/mfa/verify/page.js:31-72 | every run ends with `loading` off, and the last error written is `SubmitError` |
| MfaVerify.MfaVerifyPage.constructor | app/mfa/verify/page.js:9-11 | empty code, no error, not loading |
| MfaVerify.MfaVerifyPage.HandleSubmit | app/mfa/verify/page.js:22-74 | appends exactly `SubmitEffects` for the current code; ends with `error == SubmitError`, `loading` false, and the code cleared only when verify was reached and failed |
| MfaVerify.MfaVerifyPage.ChallengeAndVerify | app/mfa/verify/page.js:46-73 | from the challenge on: appends `ChallengeEffects`, ends with `loading` off, sets the error only on failure, clears the code only on verify failure |
| MfaVerify.FilteredCodeSurvivesTrim | app/mfa/verify/page.js:58 | a filtered code is unchanged by `trim()` before it is sent to verify |
| MfaLayout.Layout | app/mfa/layout.js:4-15 | redirects to `/login` exactly when there is no user, and renders the children unchanged exactly when there is one |
| MfaLayout.Aal1SessionReachesVerifyPage | app/mfa/layout.js:5-14 | the layout reads no assurance level: a signed-in aal1 session is rendered |
| MfaLayout.LayoutIsOnlyMfaPresenceCheck | app/mfa/layout.js:10-12 | on `/mfa` paths the request gate always passes (proxy.js line 10), so the layout alone decides: `/login` iff no user |
| EquipmentForm.SignedIntegerShape | app/MainScreen.js:26 | `^-?\d+$` holds iff the text is a non-empty digit string, optionally preceded by one `-` |
| EquipmentForm.MinutesOfAccepted | app/MainScreen.js:50-53 | on text the guard accepted, the value is never `"-"` (that test is dead) and never NaN: `""` gives null, anything else its signed decimal value |
| EquipmentForm.MinutesOfIntString | app/MainScreen.js:24-29 | every integer's decimal form passes the minutes guard and derives back to that integer |
| EquipmentForm.NewEntry | app/MainScreen.js:54-59 | the record has the user's id, `IsActive` true, the derived minutes, and as equipment type null exactly when the text is all white space, otherwise exactly `Trim` of the text (non-empty, no white space at either end) |
| EquipmentForm.EntryOfValidForm | app/MainScreen.js:50-59 | from guarded fields the inserted equipment type has at most 100 characters and the minutes are never NaN |
| MainScreen.SaveResult | app/MainScreen.js:45-65 | a save ends in success exactly when a user is present and the insert reports no error |
| MainScreen.SaveWithoutUser | app/MainScreen.js:45-49 | with no user the status becomes "Not signed in.", `saving` is cleared, and nothing is inserted |
| MainScreen.SaveInsertsOnce | app/MainScreen.js:40-59 | with a user exactly one insert into `equipment_entries` happens, of `NewEntry`, while `saving` is on |
| MainScreen.SaveEndsSettled | app/MainScreen.js:38-66 | a save first clears the status and sets `saving`; it ends with `saving` off and a final status of exactly one of error or success |
| MainScreen.MainScreen.constructor | app/MainScreen.js:12-15 | empty fields, no status, not saving; the form invariant holds |
| MainScreen.MainScreen.ServiceMinutesNum | app/MainScreen.js:68-71 | under the form invariant the derived minutes are never NaN, null exactly for the empty field, and a non-empty field gives its signed value |
| MainScreen.MainScreen.HandleEquipmentTypeChange | app/MainScreen.js:17-22 | the value is taken iff it has at most 100 characters, otherwise nothing changes; the invariant is kept |
| MainScreen.MainScreen.HandleServiceMinutesChange | app/MainScreen.js:24-29 | the value is taken iff it is empty or matches `^-?\d+$`, otherwise nothing changes; the invariant is kept |
| MainScreen.MainScreen.HandleSignOut | app/MainScreen.js:31-36 | signs out, pushes `/login`, refreshes |
| MainScreen.MainScreen.HandleSave | app/MainScreen.js:38-66 | appends exactly `SaveEffects` for the current fields; ends with the status `SaveResult` and `saving` false |
| RootPage.AuthentPage.constructor | app/page.js:8-9 | empty fields; the form invariant holds |
| RootPage.AuthentPage.ServiceMinutesNum | app/page.js:25-28 | under the invariant: null exactly for the empty field, otherwise its signed integer value, never NaN |
| RootPage.AuthentPage.HandleEquipmentTypeChange | app/page.js:11-16 | taken iff at most 100 characters; the minutes field is untouched; the invariant is kept |
| RootPage.AuthentPage.HandleServiceMinutesChange | app/page.js:18-23 | taken iff empty or `^-?\d+$`; the equipment type is untouched; the invariant is kept |
| Text.Split | lib/supabase/client.js:10-13 | `split` returns at least one piece, at least two when the separator occurs, none containing the separator, and joining them gives back the string |
| Text.SplitJoin | lib/supabase/client.js:10-13 | splitting undoes joining when no part contains the separator's first character |
| Text.DigitsOnly | app/mfa/verify/page.js:115 | `replace(/\D/g, "")` leaves only digits, is no longer than its input, and leaves a digit string unchanged |
| Text.DigitsOnlyAppend | app/mfa/verify/page.js:115 | removing non-digits works piece by piece |
| Text.TrimIsMiddle | app/MainScreen.js:56 | `trim()` returns a middle slice with only white space cut away; it is empty iff the text is all white space, and otherwise does not start or end with white space |
| Text.TrimIdempotent | app/MainScreen.js:56 | trimming twice is trimming once |
| JsNumber.ParseIntString | app/MainScreen.js:53 | `parseInt(String(n), 10) == n` for every integer |
| JsNumber.ParseDigits | app/MainScreen.js:53 | `parseInt` of a digit string is its decimal value |
| JsNumber.ParseNegatedDigits | app/MainScreen.js:53 | `parseInt` of `-` followed by a digit string is the negated value |
| SupabaseClient.FindRow | lib/supabase/client.js:12 | `find` returns the first row starting with the prefix, and undefined iff no row does |
| SupabaseClient.Get | lib/supabase/client.js:9-15 | `get` returns undefined exactly when no `"; "`-separated row starts with `name=` |
| SupabaseClient.GetFromEntries | lib/supabase/client.js:10-14 | over rows `n=v` with no `;` or `=` in names and values, `get` returns the value of the first row with exactly that name, and undefined when no row has it |
| SupabaseClient.RowMatchesExactName | lib/supabase/client.js:12 | a row `n=v` matches `name` iff `n == name`: `ab=1` does not match `a` |
| SupabaseClient.ValueAfterName | lib/supabase/client.js:13 | the second `=`-piece of a plain row `name=value` is `value` |
| SupabaseClient.ValueEndsAtNextEquals | lib/supabase/client.js:12-13 | `a=b=c` yields `b`, `a=` yields the empty string, and `ab=1` gives undefined for `a` |
| SupabaseClient.SetIgnoresOptions | lib/supabase/client.js:16-18 | the string `set` writes does not depend on its options |
| SupabaseClient.SetStringReadsBack | lib/supabase/client.js:16-18 | the string `set` assigns splits at `"; "` into exactly `name=value` and `path=/`; `get` applied to that string itself would yield `value` (what the browser's getter returns is not modelled) |
| SupabaseClient.RemoveStringReadsEmpty | lib/supabase/client.js:19-21 | the string `remove` assigns splits at `"; "` into exactly `name=`, `Max-Age=0` and `path=/`; `get` applied to that string itself would yield the empty value (the browser deletes the cookie instead) |
| SupabaseClient.CookieDocument.Set | lib/supabase/client.js:16-18 | assigns exactly `name=value; path=/` to `document.cookie` |
| SupabaseClient.CookieDocument.Remove | lib/supabase/client.js:19-21 | assigns exactly `name=; Max-Age=0; path=/` to `document.cookie` |

## Left out

- Supabase calls (`signInWithPassword`, `getUser`, `getAuthenticatorAssuranceLevel`, `mfa.listFactors`, `mfa.challenge`, `mfa.verify`, `from().insert()`, `signOut`) are foreign library calls. Only their answers are modelled, as parameters, and the calls appear as entries in the effects log.
- Checking TOTP codes and expiring challenges (RFC 6238) happens in the backend, so it is not modelled.
- Rendering, styling and JSX are not modelled. `router.push`, `replace` and `refresh` are entries in the log, and the Next.js `redirect()` of the layout is a returned value.
- Async ordering between awaits, double submissions and the advisory `disabled` buttons are concurrency concerns. Each handler run is modelled as one uninterrupted sequence.
- `document.cookie` is modelled as the log of strings assigned to it. How the browser turns those assignments into the string the getter returns (the cookie jar) is browser behaviour, not repository code. `get` therefore takes that string as a parameter. After `remove` the browser drops the cookie, so a later real `get` returns undefined; `SupabaseClient.RemoveStringReadsEmpty` speaks only of the assigned string.
- JavaScript number semantics are not modelled: minutes are mathematical integers. `parseInt` on digit strings longer than about 15 digits rounds to a float in the source, and the model does not capture this. `parseInt("-0")` is `-0` in the source and 0 here.
- String lengths count characters. JavaScript counts UTF-16 code units, so the 100-character limit may differ for characters outside the Basic Multilingual Plane.
- Assurance levels are an enumeration (`aal1` | `aal2`, possibly missing), not arbitrary strings.
- lib/profile.js, app/layout.js, app/(protected)/layout.js and app/(protected)/settings/security/page.js are not part of this model. They are a thin query wrapper, static metadata, a route group outside the pages modelled here, and the factor-enrolment screen.
- lib/supabase/server.js is not part of this model. Its code is not available; only its import is.
