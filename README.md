# Skill-to-income mapper: session, forms, skill editor and routes

A Dafny model of the logic in the client of a "skill-to-income mapping"
web app. The rest of the app is presentation. The model has four parts:

- **The session.** A store holds the signed-in user, the token, the
  authentication flag and the loading flag. A façade (`useAuth`) wraps the
  gateway's sign-in and sign-up calls with loading bookkeeping and turns
  every failure into a `{ success: false, error }` result. The mock
  gateway (`authService`) builds a fixed response from the request. It
  takes the display name from the part of the email before the first
  `@`.
- **The skill list editor.** It trims an entry and refuses blank and
  duplicate entries. It appends accepted entries and removes entries by
  value. It also derives the suggestion-chip, generate-button and preview
  states.
- **The two auth forms.** Each has validation rules, a redirect target and
  a submit handler. The handler turns the façade's result into a
  navigation or an error message.
- **The route table.** It maps a pathname and the authentication flag to
  a page or a redirect. A guard covers three of the routes, and a
  catch-all sends unknown paths to the landing page.

Modules: `Types` (the record types), `JsText` (the JavaScript string
built-ins the code relies on), `AuthService`, `Session` (store class and
façade methods), `SkillInput` (list functions and the page class),
`FormRules` (the Yup rules both forms use), `SignUpForm`, `SignInForm`,
`Routes`.

Modelling choices:
- The gateway is a parameter of the façade, of type
  `SignInData -> GatewayOutcome`. It either resolves with a response or
  rejects with a thrown value: an `Error` with a message, or something
  else. The mock gateway is one such function (`Session.MockSignIn`).
- The clock reading behind `createdAt` is the parameter `now`.
- `src/stores/auth.store` is not part of this model. The store class
  assumes its semantics:
  - `login` sets the user and the token and marks the session
    authenticated;
  - `logout` clears the user and the token;
  - `setLoading` sets the loading flag.

  A ghost log of the store calls lets the façade's call order be stated.
- Yup's `min` compares JavaScript `length`, which counts UTF-16 code
  units. The model counts the same way (`JsText.Utf16Length`). So a
  one-character name from outside the Basic Multilingual Plane passes the
  two-character minimum.
- `setTimeout` in the skill editor is a counter of pending timers. Each
  timer firing is a separate event. Any timer that fires clears the
  analyzing flag, even when a later analysis is still pending
  (`SkillInput.TwoAddsOneTimer`).
- The guard's `<Navigate to="/signin" />` carries no location state, so
  the sign-in page always falls back to `/dashboard`. After a redirected
  sign-in, the user lands on the dashboard, not on the page first
  requested (`Routes.GuardedVisitLandsOnDashboard`).
- The forms' `catch` branches are in the model (`Settled.Threw`), but the
  submit methods never reach them, because the façade always returns a
  result.

## Model

| member | source | states |
|---|---|---|
| `JsText.Trim` | src/pages/SkillInput.tsx:26 | `trim()` returns the input with a run of white space cut off each end and the middle kept as it is. The result has no white space at either end. An already-trimmed string comes back unchanged. The result is empty exactly when the input is all white space. |
| `JsText.TrimIdempotent` | src/pages/SkillInput.tsx:26 | Trimming twice equals trimming once. |
| `JsText.Split` | src/services/auth.service.ts:14 | `split('@')` gives at least one part, and no part contains the separator. The first part is a prefix of the input, followed by the separator unless it is the whole input. |
| `JsText.JoinSplit` | src/services/auth.service.ts:14 | Joining the parts of a split gives back the input. |
| `JsText.SplitJoin` | src/services/auth.service.ts:14 | Splitting a join of separator-free parts gives back the parts. |
| `JsText.Utf16Length` | src/components/auth/SignUp.tsx:29 | The length Yup's `min` compares counts UTF-16 code units: the character count plus the number of characters outside the Basic Multilingual Plane. So it lies between the character count and twice that, and equals the character count exactly when every character is in that plane. |
| `AuthService.DisplayNameOf` | src/services/auth.service.ts:14 | `email.split('@')[0]`: the first part of the split. `AuthService.SignIn` and `AuthService.DisplayNameEdgeCases` state what that is. |
| `AuthService.SignIn` | src/services/auth.service.ts:9-19 | The response has the submitted email, id "1" and no skills. Its display name is the text before the first '@' of the email. The token is "mock-jwt-token" and `expiresIn` is 3600. |
| `AuthService.SignUp` | src/services/auth.service.ts:26-36 | The response has the submitted email and full name unchanged, id "2" and no skills. The token is "mock-jwt-token" and `expiresIn` is 3600. |
| `AuthService.DisplayNameEdgeCases` | src/services/auth.service.ts:14 | With no '@' the display name is the whole email. With a leading '@' it is empty. |
| `AuthService.SignInIgnoresSecrets` | src/services/auth.service.ts:9-19 | The password and the remember-me flag do not affect the sign-in response. |
| `AuthService.SignUpIgnoresPassword` | src/services/auth.service.ts:26-36 | The password does not affect the sign-up response. |
| `Session.AuthStore.constructor` | src/App.tsx:7 | Assumed: the store starts unauthenticated and idle, with no user and no token. |
| `Session.AuthStore.Login` | src/hooks/useAuth.ts:11 | Assumed: `login` sets user and token, marks the session authenticated and leaves loading alone. |
| `Session.AuthStore.Logout` | src/hooks/useAuth.ts:12 | Assumed: `logout` clears user and token, marks the session unauthenticated and leaves loading alone. |
| `Session.AuthStore.SetLoading` | src/hooks/useAuth.ts:13 | Assumed: `setLoading` sets only the loading flag. |
| `Session.FailureMessage` | src/hooks/useAuth.ts:25 | The catch block's `err instanceof Error ? err.message : fallback`. `Session.OutcomeRouting` states it for both cases. |
| `Session.SignIn` | src/hooks/useAuth.ts:16-30 | The store receives loading on, then `login` (on success only), then loading off. The result is `Success(response)`, or `Failure` with the `Error`'s message or "Sign in failed". Success leaves the response's user signed in. Failure leaves user, token and authentication as they were. Loading ends false, and nothing is thrown. |
| `Session.SignUp` | src/hooks/useAuth.ts:32-46 | Same as `signIn`, around the sign-up call, with fallback "Sign up failed". |
| `Session.SignOut` | src/hooks/useAuth.ts:48-51 | Only `logout` reaches the store. The session becomes empty and unauthenticated. The loading flag is kept. No gateway is involved. |
| `Session.CallOrder` | src/hooks/useAuth.ts:17-29 | Loading on is the first store call and loading off the last. On success `login` is called exactly once: the log holds one `login` entry, with the response's user and token. On failure it is never called. |
| `Session.OutcomeRouting` | src/hooks/useAuth.ts:19-26 | The result succeeds exactly when the gateway resolves, and then carries its response. A failure carries the `Error`'s message, or the fallback for a non-`Error`. Afterwards the session is idle, and on failure it is otherwise unchanged. |
| `Session.MockSignInFromStart` | src/hooks/useAuth.ts:16-30 | With the mock gateway and a fresh store, sign-in always succeeds. It leaves the submitted email signed in with the mock token, and loading off. |
| `Session.MockSignUpFromStart` | src/hooks/useAuth.ts:32-46 | With the mock gateway and a fresh store, sign-up always succeeds. It leaves the submitted email and full name signed in. |
| `Session.SignOutTwiceAfterSignIn` | src/hooks/useAuth.ts:48-51 | Signing out is idempotent: both sign-outs leave the empty idle session. |
| `Session.RejectedSignInFromStart` | src/hooks/useAuth.ts:22-29 | A rejected sign-in reports failure, with "Sign in failed" for a non-`Error`. The store stays signed out and idle. |
| `SkillInput.Accepts` | src/pages/SkillInput.tsx:27 | The guard of `handleAddSkill`: the trimmed text is non-empty and not listed yet. `SkillInput.WithSkill` states that the list changes exactly when it holds. |
| `SkillInput.WithSkill` | src/pages/SkillInput.tsx:25-32 | The list changes exactly when the trimmed text is non-empty and not yet listed. It then gains the trimmed text at the end, and earlier entries stay in place. |
| `SkillInput.Without` | src/pages/SkillInput.tsx:34-36 | `filter` removes every copy of the value and nothing else. |
| `SkillInput.WithoutConcat` | src/pages/SkillInput.tsx:35 | The filter distributes over concatenation, so the remaining entries keep their order. |
| `SkillInput.WithoutAbsent` | src/pages/SkillInput.tsx:35 | Removing an unlisted value changes nothing. |
| `SkillInput.AddThenRemove` | src/pages/SkillInput.tsx:25-36 | Adding a new skill and then removing it restores the original list. |
| `SkillInput.AddKeepsWellFormed` | src/pages/SkillInput.tsx:25-32 | Adding keeps the invariant: entries are distinct, non-empty and trimmed. |
| `SkillInput.RemoveKeepsWellFormed` | src/pages/SkillInput.tsx:34-36 | Removing keeps the same invariant. |
| `SkillInput.AddTwice` | src/pages/SkillInput.tsx:27 | Adding the same text twice changes the list once. |
| `SkillInput.SuggestionDisabled` | src/pages/SkillInput.tsx:113 | A chip is disabled when the suggestion is already listed. `SkillInput.SuggestionChip` relates it to the add guard. |
| `SkillInput.SuggestionChip` | src/pages/SkillInput.tsx:108-116 | A chip is disabled exactly when clicking it would not add. Clicking an enabled chip appends the suggestion unchanged. |
| `SkillInput.GenerateDisabled` | src/pages/SkillInput.tsx:124 | The generate button is disabled for a list of length 0. |
| `SkillInput.GenerateButton` | src/pages/SkillInput.tsx:124 | The generate button is disabled exactly for the empty list, so an accepted add enables it. |
| `SkillInput.Preview` | src/pages/SkillInput.tsx:148-158 | The preview shows "analyzing" exactly while analyzing. Otherwise it shows the empty state exactly for an empty list, and the opportunity list exactly for a non-empty one. |
| `SkillInput.SkillInputPage.constructor` | src/pages/SkillInput.tsx:18-20 | The page starts with an empty field, an empty list and no analysis. |
| `SkillInput.SkillInputPage.Type` | src/pages/SkillInput.tsx:65 | Typing sets the field's text only. |
| `SkillInput.SkillInputPage.HandleAddSkill` | src/pages/SkillInput.tsx:25-32 | The list becomes `WithSkill` of the old list. An accepted entry clears the field and starts an analysis. A blank or duplicate entry changes nothing. The list invariant is kept. |
| `SkillInput.SkillInputPage.RemoveSkill` | src/pages/SkillInput.tsx:34-36 | The list becomes `Without` of the old list. The invariant is kept. |
| `SkillInput.SkillInputPage.TriggerAIAnalysis` | src/pages/SkillInput.tsx:38-41 | The analyzing flag goes on and one more timer is pending. |
| `SkillInput.SkillInputPage.AnalysisTimerFires` | src/pages/SkillInput.tsx:40 | A firing timer clears the analyzing flag and one fewer timer is pending. |
| `SkillInput.TwoAddsOneTimer` | src/pages/SkillInput.tsx:38-41 | After two accepted adds and one timer firing, the preview shows opportunities while one timer is still pending. |
| `FormRules.Required` | src/components/auth/SignUp.tsx:30 | `.required()` rejects the empty string. |
| `FormRules.MinLength` | src/components/auth/SignUp.tsx:29 | `.min(n)` compares the UTF-16 length with `n`. |
| `FormRules.EmailValid` | src/components/auth/SignUp.tsx:31-33 | `.email().required()`: non-empty, and accepted by the email syntax check, which is a parameter. |
| `FormRules.HasLowercase` | src/components/auth/SignUp.tsx:36 | `.matches(/[a-z]/)`: some character is an ASCII lower-case letter. |
| `FormRules.HasUppercase` | src/components/auth/SignUp.tsx:37 | `.matches(/[A-Z]/)`: some character is an ASCII upper-case letter. |
| `FormRules.HasDigit` | src/components/auth/SignUp.tsx:38 | `.matches(/\d/)`: some character is an ASCII digit. |
| `FormRules.OrElse` | src/components/auth/SignUp.tsx:65 | `text \|\| fallback` on strings: the text unless it is empty, else the fallback. |
| `SignUpForm.FullNameValid` | src/components/auth/SignUp.tsx:28-30 | Any two characters are a valid name. A single character is valid exactly when it lies outside the Basic Multilingual Plane. The empty name is invalid. |
| `SignUpForm.PasswordValid` | src/components/auth/SignUp.tsx:34-39 | At least 8 UTF-16 code units, with a lower-case letter, an upper-case letter and a digit. `SignUpForm.SamplePasswordAccepted` and `SignUpForm.SamplePasswordsRejected` exercise it. |
| `SignUpForm.ConfirmValid` | src/components/auth/SignUp.tsx:40-42 | The confirmation is non-empty and equals the password. |
| `SignUpForm.ValuesValid` | src/components/auth/SignUp.tsx:27-43 | The whole sign-up schema, field by field. `SignUpForm.ConfirmationMatches` and `SignInForm.SignUpValuesAccepted` state what it implies. |
| `SignUpForm.Request` | src/components/auth/SignUp.tsx:56-60 | The request built from the form values. `SignUpForm.RequestDropsConfirmation` states its fields. |
| `SignUpForm.ConfirmationMatches` | src/components/auth/SignUp.tsx:40-42 | Accepted values have a confirmation equal to the password, so it meets the password rule itself. |
| `SignUpForm.RequestDropsConfirmation` | src/components/auth/SignUp.tsx:56-60 | The request has email, password and full name. The confirmation does not affect it. |
| `SignUpForm.SamplePasswordAccepted` | src/components/auth/SignUp.tsx:34-39 | "Passw0rd" meets the rule: at least 8 long, with a lower-case letter, an upper-case letter and a digit. |
| `SignUpForm.SamplePasswordsRejected` | src/components/auth/SignUp.tsx:34-39 | A password with no upper-case letter fails, as do one with no digit and one of 7 characters. |
| `SignUpForm.AfterSubmit` | src/components/auth/SignUp.tsx:62-69 | Success navigates to "/skills" with replace and shows no error. Otherwise nothing navigates and the error shown is non-empty: the result's error when it is non-empty, "Sign up failed" when it is empty, and "Connection failed. Please try again." when the call threw. |
| `SignUpForm.RejectionMessage` | src/components/auth/SignUp.tsx:65 | After a rejection the error shown is the `Error`'s message when non-empty, else "Sign up failed". |
| `SignUpForm.SignUpPage.constructor` | src/components/auth/SignUp.tsx:20 | The error starts empty. |
| `SignUpForm.SignUpPage.OnSubmit` | src/components/auth/SignUp.tsx:53-70 | The error is cleared, the façade's `signUp` runs on the request, and the shown error and navigation are `AfterSubmit` of its result. The catch branch is never taken. Loading ends false, so the submit button is enabled again. |
| `SignUpForm.MockSubmitFromStart` | src/components/auth/SignUp.tsx:53-70 | With the mock gateway, sign-up always ends on "/skills" with no error and the new user signed in. |
| `SignInForm.RedirectTarget` | src/components/auth/SignIn.tsx:27 | The target is the location state's pathname when present and non-empty, else "/dashboard". It is never empty. |
| `SignInForm.PasswordValid` | src/components/auth/SignIn.tsx:33 | `.min(6).required()` on the password. |
| `SignInForm.ValuesValid` | src/components/auth/SignIn.tsx:31-34 | The whole sign-in schema: a valid email and a valid password. |
| `SignInForm.Request` | src/components/auth/SignIn.tsx:38 | `signIn(values)`: the form values passed as they are. |
| `SignInForm.SignUpValuesAccepted` | src/components/auth/SignIn.tsx:31-34 | The email and password of any values the sign-up schema accepts pass the sign-in schema. |
| `SignInForm.SignUpPasswordsAccepted` | src/components/auth/SignIn.tsx:33 | Every password sign-up accepts is accepted at sign-in. |
| `SignInForm.WeakerThanSignUp` | src/components/auth/SignIn.tsx:33 | Six lower-case letters pass the sign-in rule but fail sign-up. "bad" fails the sign-in rule. |
| `SignInForm.AfterSubmit` | src/components/auth/SignIn.tsx:35-44 | Success navigates to the target with replace and shows no error. Otherwise nothing navigates and the error shown is non-empty: the result's error when it is non-empty, "Invalid credentials" when it is empty, and "Connection error" when the call threw. |
| `SignInForm.RejectionMessage` | src/components/auth/SignIn.tsx:40 | After a rejection the error shown is the `Error`'s message, or "Invalid credentials" when that is empty. A non-`Error` gives "Sign in failed". |
| `SignInForm.SignInPage.constructor` | src/components/auth/SignIn.tsx:27-30 | The values start as empty email, empty password and remember-me false. The target is computed once from the location state. |
| `SignInForm.SignInPage.EditEmail` | src/components/auth/SignIn.tsx:150-152 | Typing changes the email only. |
| `SignInForm.SignInPage.EditPassword` | src/components/auth/SignIn.tsx:162-165 | Typing changes the password only. |
| `SignInForm.SignInPage.ClickRememberMe` | src/components/auth/SignIn.tsx:186-189 | The checkbox is not wired to the form, so the values do not change. |
| `SignInForm.SignInPage.OnSubmit` | src/components/auth/SignIn.tsx:35-44 | The error is cleared, and the façade's `signIn` runs on the values with remember-me false. The shown error and navigation are `AfterSubmit` of its result, and the catch branch is never taken. Loading ends false. |
| `SignInForm.MockSubmitFromStart` | src/components/auth/SignIn.tsx:35-44 | With the mock gateway, sign-in always ends on the redirect target with no error and the typed email signed in. |
| `Routes.ProtectedRoute` | src/App.tsx:47-50 | The guard renders the guarded page inside the main layout exactly when authenticated, and otherwise redirects to "/signin". |
| `Routes.Resolve` | src/App.tsx:58-83 | A page renders exactly for a public path, or for a protected path when authenticated. The page rendered is the one the route table lists for that path. The main layout appears exactly for protected paths, and only when authenticated. Redirects go to "/signin" for protected paths and to "/" for everything else. |
| `Routes.PublicIgnoresAuth` | src/App.tsx:60-62 | "/", "/signin" and "/signup" render the same page whether or not the session is authenticated. |
| `Routes.GuardUniform` | src/App.tsx:47-50 | The guard depends only on the authentication flag. All protected paths behave alike. |
| `Routes.DashboardLinksFallBack` | src/App.tsx:82 | The "/opportunities" and "/insights" links redirect to "/". |
| `Routes.RedirectSettles` | src/App.tsx:47-83 | Following any redirect once reaches a page. |
| `Routes.GuardedVisitLandsOnDashboard` | src/App.tsx:49 | An unauthenticated visit to a protected path goes to "/signin". The sign-in target then falls back to "/dashboard", which renders once authenticated. |

## Left out

- `src/stores/auth.store` is not part of this model. Its `login`, `logout` and `setLoading` behaviour is assumed, as stated above. Persistence and subscriber notification are not modelled.
- Simulated delays (`setTimeout` in `authService`) are not modelled: the model keeps no time.
- The `createdAt` clock reading is the parameter `now`.
- `authService.signOut` and `authService.forgotPassword` are not modelled. They are delay-only stubs that nothing in the core calls.
- Overlapping sign-in or sign-up calls on one store are not modelled. The code defines no interleaving, and the model treats each call as atomic.
- Yup's email syntax check is the parameter `isEmail`, because Yup's rule is not part of this model.
- Yup's per-field error messages are not modelled, and neither is Formik's touched/blur state. Formik's rule that `onSubmit` runs only on values that pass the schema is not modelled either: the submit methods take any values. The `ValuesValid` predicates state the schema, and `SignInForm.SignUpValuesAccepted` relates the two forms' schemas.
- JavaScript strings that hold a lone surrogate cannot be represented as Dafny strings, whose elements are Unicode scalar values. `JsText.Utf16Length` covers only well-formed strings.
- React Router's path normalisation (case-insensitive matching, trailing slashes) is not modelled. Paths are compared exactly.
- `Navigate`'s push-versus-replace is not modelled: the guard's and the catch-all's redirects carry only their target.
- React's batching of state updates and stale closures are not modelled. Each event handler runs to completion on the current state.
- The landing, dashboard, income-map and layout pages are not modelled: they are presentation and fixed content.
- The dashboard greeting fallbacks are display strings and are not modelled.
- `SignUpForm.SignUpPage.OnSubmit` and `SignInForm.SignInPage.OnSubmit` model no "loading" button state during the call. The model keeps no intermediate state, so only the final `isLoading == false` is stated, and the store log records that loading was switched on.
