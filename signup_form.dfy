/** The sign-up form (src/components/auth/SignUp.tsx): its validation
    schema, and what its submit handler does with the façade's result. */
module SignUpForm {
  import opened Types
  import opened FormRules
  import Session

  /** The form's fields. */
  datatype Values = Values(fullName: string, email: string, password: string, confirmPassword: string)

  const SkillsPath: string := "/skills"
  const FailureFallback: string := "Sign up failed"
  const ConnectionFailed: string := "Connection failed. Please try again."

  /** `.min(2).required()` on the name. Yup counts UTF-16 code units, so
      any two characters pass, and a single character passes exactly when
      it lies outside the Basic Multilingual Plane. */
  predicate FullNameValid(fullName: string): (b: bool)
    ensures |fullName| >= 2 ==> b
    ensures |fullName| == 1 ==> (b <==> fullName[0] as int >= 0x1_0000)
    ensures fullName == [] ==> !b
  {
    Required(fullName) && MinLength(fullName, 2)
  }

  predicate PasswordValid(password: string) {
    && Required(password) && MinLength(password, 8)
    && HasLowercase(password) && HasUppercase(password) && HasDigit(password)
  }

  /** `.oneOf([Yup.ref('password')]).required()`. */
  predicate ConfirmValid(confirmPassword: string, password: string) {
    Required(confirmPassword) && confirmPassword == password
  }

  /** The whole schema. */
  predicate ValuesValid(v: Values, isEmail: string -> bool) {
    && FullNameValid(v.fullName)
    && EmailValid(v.email, isEmail)
    && PasswordValid(v.password)
    && ConfirmValid(v.confirmPassword, v.password)
  }

  /** The request the handler sends: the confirmation field is dropped. */
  function Request(v: Values): SignUpData {
    SignUpData(v.email, v.password, v.fullName)
  }

  /** Accepted values carry a confirmation that equals the password and so
      meets the password rule itself. */
  lemma ConfirmationMatches(v: Values, isEmail: string -> bool)
    requires ValuesValid(v, isEmail)
    ensures v.confirmPassword == v.password && PasswordValid(v.confirmPassword)
  {
  }

  /** The confirmation never reaches the gateway: values that differ only
      in it make the same request. */
  lemma RequestDropsConfirmation(a: Values, b: Values)
    requires a.(confirmPassword := b.confirmPassword) == b
    ensures Request(a) == Request(b)
    ensures Request(a) == SignUpData(a.email, a.password, a.fullName)
  {
  }

  /** "Passw0rd" meets the password rule. */
  lemma SamplePasswordAccepted()
    ensures PasswordValid("Passw0rd")
  {
    var p := "Passw0rd";
    assert 'a' <= p[1] <= 'z';
    assert 'A' <= p[0] <= 'Z';
    assert '0' <= p[5] <= '9';
  }

  /** Each missing ingredient fails the password rule: no upper-case
      letter, no digit, or only seven characters. */
  lemma SamplePasswordsRejected()
    ensures !PasswordValid("passw0rd")
    ensures !PasswordValid("Password")
    ensures !PasswordValid("Pass0rd")
  {
    var q := "passw0rd";
    assert !HasUppercase(q) by {
      forall i | 0 <= i < |q| ensures !('A' <= q[i] <= 'Z') {
      }
    }
    var r := "Password";
    assert !HasDigit(r) by {
      forall i | 0 <= i < |r| ensures !('0' <= r[i] <= '9') {
      }
    }
    var t := "Pass0rd";
    assert forall i :: 0 <= i < |t| ==> t[i] as int < 0x1_0000;
    assert !MinLength(t, 8);
  }

  /** What the handler leaves behind for each way the façade call can end:
      exactly one of a navigation to "/skills" (replacing the history entry)
      or a non-empty error: the result's own error, "Sign up failed" when
      that is empty, and the connection message when the call threw. */
  function AfterSubmit(s: Settled): (e: Effect)
    ensures e.navigation.Some? <==> s.Returned? && s.result.Success?
    ensures e.navigation.Some? ==> e.navigation.value == Navigation(SkillsPath, true) && e.error == ""
    ensures e.navigation.None? ==> e.error != ""
    ensures s.Returned? && s.result.Failure? && s.result.error != "" ==> e.error == s.result.error
    ensures s.Returned? && s.result.Failure? && s.result.error == "" ==> e.error == FailureFallback
    ensures s.Threw? ==> e.error == ConnectionFailed
  {
    match s
    case Returned(Success(_)) => Effect("", Some(Navigation(SkillsPath, true)))
    case Returned(Failure(message)) => Effect(OrElse(message, FailureFallback), None)
    case Threw => Effect(ConnectionFailed, None)
  }

  /** The error shown after a rejected sign-up: the thrown `Error`'s message
      when it has one, otherwise "Sign up failed". */
  lemma RejectionMessage(fault: Session.Fault)
    ensures AfterSubmit(Returned(Session.ResultFor(Session.Rejected(fault), Session.SignUpFallback))).error
      == if fault.ErrorObject? && fault.message != "" then fault.message else FailureFallback
  {
  }

  class SignUpPage {
    var error: string

    constructor ()
      ensures error == ""
    {
      error := "";
    }

    /** `onSubmit`: clears the error, calls the façade's `signUp` with the
        request, then navigates or shows the error. The façade returns a
        result on every path, so the catch branch is never taken. */
    method OnSubmit(store: Session.AuthStore, gateway: SignUpData -> Session.GatewayOutcome, values: Values)
      returns (navigation: Option<Navigation>)
      requires store.Valid()
      modifies this, store
      ensures store.Valid() && !store.isLoading
      ensures store.calls == old(store.calls) + Session.CallsFor(gateway(Request(values)))
      ensures store.Read() == Session.SessionAfter(old(store.Read()), gateway(Request(values)))
      ensures Effect(error, navigation)
        == AfterSubmit(Returned(Session.ResultFor(gateway(Request(values)), Session.SignUpFallback)))
    {
      error := "";
      var result := Session.SignUp(store, gateway, Request(values));
      var effect := AfterSubmit(Returned(result));
      if result.Success? {
        navigation := effect.navigation;
      } else {
        error := effect.error;
        navigation := None;
      }
    }
  }

  /** Submitting through the mock gateway from a fresh store always ends on
      "/skills" with no error shown and the new user signed in. */
  method MockSubmitFromStart(values: Values, now: string) returns (navigation: Option<Navigation>, shown: string, session: Session.Snapshot)
    ensures navigation == Some(Navigation(SkillsPath, true)) && shown == ""
    ensures session.isAuthenticated && session.user.Some?
    ensures session.user.value.email == values.email && session.user.value.fullName == values.fullName
  {
    var store := new Session.AuthStore();
    var page := new SignUpPage();
    navigation := page.OnSubmit(store, Session.MockSignUp(now), values);
    shown := page.error;
    session := store.Read();
  }
}
