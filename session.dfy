/** The session store and the session façade over it
    (src/hooks/useAuth.ts).

    The store module `src/stores/auth.store` is not part of this model.
    Its `login`, `logout` and `setLoading` are ASSUMED to do what their
    names say: `login` records the user and the token and marks the
    session authenticated, `logout` clears both and marks it
    unauthenticated, `setLoading` sets the loading flag. The store keeps a
    ghost log of the calls it receives, so that the order in which the
    façade drives it can be stated. */
module Session {
  import opened Types
  import AuthService

  /** A value thrown by the gateway: an `Error` with its message, or any
      other value. */
  datatype Fault = ErrorObject(message: string) | OtherValue

  /** How the awaited gateway call settles. */
  datatype GatewayOutcome = Resolved(response: AuthResponse) | Rejected(fault: Fault)

  /** The façade's normalized result, `{ success: true, data }` or
      `{ success: false, error }`. */
  datatype AuthResult = Success(data: AuthResponse) | Failure(error: string)

  /** One call into the store. */
  datatype StoreCall = LoadingSet(flag: bool) | LoggedIn(user: User, token: string) | LoggedOut

  /** What a reader of the store sees at one moment. */
  datatype Snapshot = Snapshot(
    user: Option<User>,
    token: Option<string>,
    isAuthenticated: bool,
    isLoading: bool)

  const SignInFallback: string := "Sign in failed"
  const SignUpFallback: string := "Sign up failed"

  class AuthStore {
    var user: Option<User>
    var token: Option<string>
    var isAuthenticated: bool
    var isLoading: bool
    /** Every call the store has received, oldest first. */
    ghost var calls: seq<StoreCall>

    /** The session is authenticated exactly when a user and a token are held. */
    ghost predicate Valid()
      reads this
    {
      isAuthenticated <==> user.Some? && token.Some?
    }

    function Read(): Snapshot
      reads this
    {
      Snapshot(user, token, isAuthenticated, isLoading)
    }

    /** The store starts unauthenticated and idle. */
    constructor ()
      ensures Valid() && calls == []
      ensures Read() == Snapshot(None, None, false, false)
    {
      user, token := None, None;
      isAuthenticated, isLoading := false, false;
      calls := [];
    }

    method Login(u: User, t: string)
      modifies this
      ensures Valid()
      ensures Read() == Snapshot(Some(u), Some(t), true, old(isLoading))
      ensures calls == old(calls) + [LoggedIn(u, t)]
    {
      user, token, isAuthenticated := Some(u), Some(t), true;
      calls := calls + [LoggedIn(u, t)];
    }

    method Logout()
      modifies this
      ensures Valid()
      ensures Read() == Snapshot(None, None, false, old(isLoading))
      ensures calls == old(calls) + [LoggedOut]
    {
      user, token, isAuthenticated := None, None, false;
      calls := calls + [LoggedOut];
    }

    method SetLoading(flag: bool)
      modifies this
      ensures user == old(user) && token == old(token)
      ensures isAuthenticated == old(isAuthenticated) && isLoading == flag
      ensures calls == old(calls) + [LoadingSet(flag)]
    {
      isLoading := flag;
      calls := calls + [LoadingSet(flag)];
    }
  }

  /** The catch block's message: the `Error`'s own message, otherwise the
      operation's fallback text. */
  function FailureMessage(fault: Fault, fallback: string): string
  {
    match fault
    case ErrorObject(message) => message
    case OtherValue => fallback
  }

  /** The store calls one sign-in or sign-up makes: loading on, `login` once
      on success only, loading off. */
  function CallsFor(outcome: GatewayOutcome): seq<StoreCall>
  {
    match outcome
    case Resolved(response) => [LoadingSet(true), LoggedIn(response.user, response.token), LoadingSet(false)]
    case Rejected(_) => [LoadingSet(true), LoadingSet(false)]
  }

  /** The result one sign-in or sign-up returns for a gateway outcome. */
  function ResultFor(outcome: GatewayOutcome, fallback: string): AuthResult
  {
    match outcome
    case Resolved(response) => Success(response)
    case Rejected(fault) => Failure(FailureMessage(fault, fallback))
  }

  /** The session one sign-in or sign-up leaves behind: logged in with the
      response on success, as before on failure, and idle either way. */
  function SessionAfter(before: Snapshot, outcome: GatewayOutcome): Snapshot
  {
    match outcome
    case Resolved(response) => Snapshot(Some(response.user), Some(response.token), true, false)
    case Rejected(_) => before.(isLoading := false)
  }

  /** `signIn`: turns on loading, awaits the gateway, logs in with the
      response on success, turns loading off on every path, and always
      returns a result rather than throwing. */
  method SignIn(store: AuthStore, gateway: SignInData -> GatewayOutcome, data: SignInData)
    returns (r: AuthResult)
    requires store.Valid()
    modifies store
    ensures store.Valid() && !store.isLoading
    ensures store.calls == old(store.calls) + CallsFor(gateway(data))
    ensures r == ResultFor(gateway(data), SignInFallback)
    ensures store.Read() == SessionAfter(old(store.Read()), gateway(data))
  {
    store.SetLoading(true);
    var outcome := gateway(data);
    match outcome {
      case Resolved(response) =>
        store.Login(response.user, response.token);
        r := Success(response);
      case Rejected(fault) =>
        r := Failure(FailureMessage(fault, SignInFallback));
    }
    store.SetLoading(false);
  }

  /** `signUp`: the same bookkeeping as `signIn`, around the sign-up call. */
  method SignUp(store: AuthStore, gateway: SignUpData -> GatewayOutcome, data: SignUpData)
    returns (r: AuthResult)
    requires store.Valid()
    modifies store
    ensures store.Valid() && !store.isLoading
    ensures store.calls == old(store.calls) + CallsFor(gateway(data))
    ensures r == ResultFor(gateway(data), SignUpFallback)
    ensures store.Read() == SessionAfter(old(store.Read()), gateway(data))
  {
    store.SetLoading(true);
    var outcome := gateway(data);
    match outcome {
      case Resolved(response) =>
        store.Login(response.user, response.token);
        r := Success(response);
      case Rejected(fault) =>
        r := Failure(FailureMessage(fault, SignUpFallback));
    }
    store.SetLoading(false);
  }

  /** Loading is switched on before anything else reaches the store and
      switched off last; `login` is called once on success and never on
      failure. */
  lemma CallOrder(outcome: GatewayOutcome)
    ensures CallsFor(outcome)[0] == LoadingSet(true)
    ensures CallsFor(outcome)[|CallsFor(outcome)| - 1] == LoadingSet(false)
    ensures outcome.Resolved? ==> multiset(CallsFor(outcome))[LoggedIn(outcome.response.user, outcome.response.token)] == 1
    ensures forall i, j :: 0 <= i < j < |CallsFor(outcome)| ==> !(CallsFor(outcome)[i].LoggedIn? && CallsFor(outcome)[j].LoggedIn?)
    ensures forall c :: c in CallsFor(outcome) && c.LoggedIn? ==> outcome.Resolved?
    ensures LoggedOut !in CallsFor(outcome)
  {
  }

  /** A success carries the gateway's response; a failure carries the thrown
      `Error`'s message, or the fallback text when something other than an
      `Error` was thrown. Either way the session ends idle, and a failure
      leaves user, token and authentication as they were. */
  lemma OutcomeRouting(before: Snapshot, outcome: GatewayOutcome, fallback: string)
    ensures ResultFor(outcome, fallback).Success? <==> outcome.Resolved?
    ensures outcome.Resolved? ==> ResultFor(outcome, fallback).data == outcome.response
    ensures outcome.Rejected? && outcome.fault.ErrorObject? ==>
      ResultFor(outcome, fallback).error == outcome.fault.message
    ensures outcome.Rejected? && outcome.fault.OtherValue? ==> ResultFor(outcome, fallback).error == fallback
    ensures !SessionAfter(before, outcome).isLoading
    ensures outcome.Rejected? ==> SessionAfter(before, outcome).(isLoading := before.isLoading) == before
    ensures outcome.Resolved? ==> SessionAfter(before, outcome).isAuthenticated
  {
  }

  /** `signOut`: only `logout`; the gateway is not involved and the loading
      flag is left alone. */
  method SignOut(store: AuthStore)
    modifies store
    ensures store.Valid()
    ensures store.Read() == Snapshot(None, None, false, old(store.isLoading))
    ensures store.calls == old(store.calls) + [LoggedOut]
  {
    store.Logout();
  }

  /** The mock gateway of src/services/auth.service.ts, with the clock
      reading `now`. */
  function MockSignIn(now: string): SignInData -> GatewayOutcome
  {
    data => Resolved(AuthService.SignIn(data, now))
  }

  function MockSignUp(now: string): SignUpData -> GatewayOutcome
  {
    data => Resolved(AuthService.SignUp(data, now))
  }

  /** Signing in through the mock gateway on a freshly started store always
      succeeds and leaves the submitted email signed in, with loading off. */
  method MockSignInFromStart(data: SignInData, now: string) returns (r: AuthResult, session: Snapshot)
    ensures r.Success? && r.data.user.email == data.email
    ensures session.isAuthenticated && !session.isLoading
    ensures session.user == Some(r.data.user) && session.token == Some(AuthService.MockToken)
  {
    var store := new AuthStore();
    r := SignIn(store, MockSignIn(now), data);
    session := store.Read();
  }

  /** Signing up through the mock gateway on a freshly started store always
      succeeds and leaves the submitted email and full name signed in. */
  method MockSignUpFromStart(data: SignUpData, now: string) returns (r: AuthResult, session: Snapshot)
    ensures r.Success?
    ensures session.isAuthenticated && !session.isLoading
    ensures session.user.Some?
    ensures session.user.value.email == data.email && session.user.value.fullName == data.fullName
  {
    var store := new AuthStore();
    r := SignUp(store, MockSignUp(now), data);
    session := store.Read();
  }

  /** Signing out after signing in, and once more after that, ends in the
      empty unauthenticated session each time. */
  method SignOutTwiceAfterSignIn(data: SignInData, now: string) returns (first: Snapshot, second: Snapshot)
    ensures first == second == Snapshot(None, None, false, false)
  {
    var store := new AuthStore();
    var _ := SignIn(store, MockSignIn(now), data);
    SignOut(store);
    first := store.Read();
    SignOut(store);
    second := store.Read();
  }

  /** A rejected sign-in from a fresh store reports a failure and leaves the
      store signed out and idle. */
  method RejectedSignInFromStart(data: SignInData, fault: Fault) returns (r: AuthResult, session: Snapshot)
    ensures r.Failure?
    ensures fault.OtherValue? ==> r.error == SignInFallback
    ensures session == Snapshot(None, None, false, false)
  {
    var store := new AuthStore();
    r := SignIn(store, _ => Rejected(fault), data);
    session := store.Read();
  }
}
