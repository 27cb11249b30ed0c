/** The sign-in form (src/components/auth/SignIn.tsx): where it sends the
    user after signing in, its validation schema, and what its submit
    handler does with the façade's result. */
module SignInForm {
  import opened Types
  import opened FormRules
  import Session
  import SignUpForm

  /** The form's values. `rememberMe` has no input wired to it. */
  datatype Values = Values(email: string, password: string, rememberMe: bool)

  const DefaultTarget: string := "/dashboard"
  const FailureFallback: string := "Invalid credentials"
  const ConnectionError: string := "Connection error"

  /** `location.state?.from?.pathname || '/dashboard'`, where `fromPathname`
      is the pathname the location state carries, if any: that pathname
      when it is non-empty, "/dashboard" otherwise; never empty. */
  function RedirectTarget(fromPathname: Option<string>): (target: string)
    ensures target != ""
    ensures fromPathname.Some? && fromPathname.value != "" ==> target == fromPathname.value
    ensures fromPathname.None? || fromPathname.value == "" ==> target == DefaultTarget
  {
    match fromPathname
    case Some(pathname) => OrElse(pathname, DefaultTarget)
    case None => DefaultTarget
  }

  predicate PasswordValid(password: string) {
    Required(password) && MinLength(password, 6)
  }

  /** The whole schema. */
  predicate ValuesValid(v: Values, isEmail: string -> bool) {
    EmailValid(v.email, isEmail) && PasswordValid(v.password)
  }

  /** The request the handler sends: the form values as they are. */
  function Request(v: Values): SignInData {
    SignInData(v.email, v.password, Some(v.rememberMe))
  }

  /** Every password the sign-up form accepts is accepted here too. */
  lemma SignUpPasswordsAccepted(password: string)
    requires SignUpForm.PasswordValid(password)
    ensures PasswordValid(password)
  {
  }

  /** Whoever signed up with values the sign-up schema accepts can type
      the same email and password into this form and have them accepted. */
  lemma SignUpValuesAccepted(v: SignUpForm.Values, isEmail: string -> bool, rememberMe: bool)
    requires SignUpForm.ValuesValid(v, isEmail)
    ensures ValuesValid(Values(v.email, v.password, rememberMe), isEmail)
  {
    SignUpPasswordsAccepted(v.password);
  }

  /** The rule here is strictly weaker: six lower-case letters pass here
      and fail at sign-up, and the three-letter "bad" fails here. */
  lemma WeakerThanSignUp()
    ensures PasswordValid("abcdef") && !SignUpForm.PasswordValid("abcdef")
    ensures !PasswordValid("bad")
  {
    var p := "abcdef";
    assert !HasUppercase(p) by {
      forall i | 0 <= i < |p| ensures !('A' <= p[i] <= 'Z') {
      }
    }
    var b := "bad";
    assert forall i :: 0 <= i < |b| ==> b[i] as int < 0x1_0000;
  }

  /** What the handler leaves behind for each way the façade call can end:
      exactly one of a navigation to `target` (replacing the history entry)
      or a non-empty error: the result's own error, "Invalid credentials"
      when that is empty, and "Connection error" when the call threw. */
  function AfterSubmit(target: string, s: Settled): (e: Effect)
    ensures e.navigation.Some? <==> s.Returned? && s.result.Success?
    ensures e.navigation.Some? ==> e.navigation.value == Navigation(target, true) && e.error == ""
    ensures e.navigation.None? ==> e.error != ""
    ensures s.Returned? && s.result.Failure? && s.result.error != "" ==> e.error == s.result.error
    ensures s.Returned? && s.result.Failure? && s.result.error == "" ==> e.error == FailureFallback
    ensures s.Threw? ==> e.error == ConnectionError
  {
    match s
    case Returned(Success(_)) => Effect("", Some(Navigation(target, true)))
    case Returned(Failure(message)) => Effect(OrElse(message, FailureFallback), None)
    case Threw => Effect(ConnectionError, None)
  }

  /** The error shown after a rejected sign-in: the thrown `Error`'s message
      when it has one, "Invalid credentials" when it is empty, and "Sign in
      failed" when something other than an `Error` was thrown. */
  lemma RejectionMessage(target: string, fault: Session.Fault)
    ensures AfterSubmit(target, Returned(Session.ResultFor(Session.Rejected(fault), Session.SignInFallback))).error
      == match fault
         case ErrorObject(message) => OrElse(message, FailureFallback)
         case OtherValue => Session.SignInFallback
  {
  }

  class SignInPage {
    var values: Values
    var error: string
    /** Where a successful sign-in goes, fixed when the page is rendered. */
    const target: string

    /** The remember-me value never leaves its initial `false`. */
    ghost predicate Valid()
      reads this
    {
      !values.rememberMe
    }

    constructor (fromPathname: Option<string>)
      ensures Valid()
      ensures values == Values("", "", false) && error == ""
      ensures target == RedirectTarget(fromPathname)
    {
      values := Values("", "", false);
      error := "";
      target := RedirectTarget(fromPathname);
    }

    method EditEmail(text: string)
      requires Valid()
      modifies this`values
      ensures Valid() && values == old(values).(email := text)
    {
      values := values.(email := text);
    }

    method EditPassword(text: string)
      requires Valid()
      modifies this`values
      ensures Valid() && values == old(values).(password := text)
    {
      values := values.(password := text);
    }

    /** Ticking "Keep me signed in": the checkbox has no change handler, so
        the form values stay as they are. */
    method ClickRememberMe()
      requires Valid()
      ensures Valid() && values == old(values)
    {
    }

    /** `onSubmit`: clears the error, calls the façade's `signIn` with the
        form values (remember-me always `false`), then navigates to the
        target or shows the error. The façade returns a result on every
        path, so the catch branch is never taken. */
    method OnSubmit(store: Session.AuthStore, gateway: SignInData -> Session.GatewayOutcome)
      returns (navigation: Option<Navigation>)
      requires Valid() && store.Valid()
      modifies this`error, store
      ensures Valid() && store.Valid() && !store.isLoading
      ensures var data := SignInData(values.email, values.password, Some(false));
        && store.calls == old(store.calls) + Session.CallsFor(gateway(data))
        && store.Read() == Session.SessionAfter(old(store.Read()), gateway(data))
        && Effect(error, navigation)
           == AfterSubmit(target, Returned(Session.ResultFor(gateway(data), Session.SignInFallback)))
    {
      error := "";
      var result := Session.SignIn(store, gateway, Request(values));
      var effect := AfterSubmit(target, Returned(result));
      if result.Success? {
        navigation := effect.navigation;
      } else {
        error := effect.error;
        navigation := None;
      }
    }
  }

  /** Signing in through the mock gateway from a fresh store always ends
      on the redirect target with no error shown and the typed email
      signed in. */
  method MockSubmitFromStart(fromPathname: Option<string>, email: string, password: string, now: string)
    returns (navigation: Option<Navigation>, shown: string, session: Session.Snapshot)
    ensures navigation == Some(Navigation(RedirectTarget(fromPathname), true)) && shown == ""
    ensures session.isAuthenticated && !session.isLoading
    ensures session.user.Some? && session.user.value.email == email
  {
    var store := new Session.AuthStore();
    var page := new SignInPage(fromPathname);
    page.EditEmail(email);
    page.EditPassword(password);
    page.ClickRememberMe();
    navigation := page.OnSubmit(store, Session.MockSignIn(now));
    shown := page.error;
    session := store.Read();
  }
}
