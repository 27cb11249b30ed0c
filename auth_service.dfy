/** The mock authentication gateway (src/services/auth.service.ts): each
    operation builds a fixed-shape response from the submitted request.
    The simulated delay is left out and the clock reading that fills
    `createdAt` is the parameter `now`. */
module AuthService {
  import opened Types
  import JsText

  const SignInUserId: string := "1"
  const SignUpUserId: string := "2"
  const MockToken: string := "mock-jwt-token"
  const TokenLifetime: int := 3600

  /** `data.email.split('@')[0]`: the part of the address before its first '@'. */
  function DisplayNameOf(email: string): string
  {
    JsText.Split(email, '@')[0]
  }

  /** `authService.signIn`: the user carries the submitted email, a display
      name cut from that email at its first '@', the fixed id "1" and no
      skills; the token and the lifetime are the fixed mock values. */
  function SignIn(data: SignInData, now: string): (r: AuthResponse)
    ensures r.user.id == SignInUserId && r.user.email == data.email
    ensures r.user.fullName <= data.email && '@' !in r.user.fullName
    ensures |r.user.fullName| < |data.email| ==> data.email[|r.user.fullName|] == '@'
    ensures r.user.skills == None && r.user.createdAt == now
    ensures r.token == MockToken && r.expiresIn == TokenLifetime
  {
    AuthResponse(
      User(SignInUserId, data.email, DisplayNameOf(data.email), None, now),
      MockToken,
      TokenLifetime)
  }

  /** `authService.signUp`: the user carries the submitted email and full
      name unchanged, the fixed id "2" and no skills; the token and the
      lifetime are the fixed mock values. */
  function SignUp(data: SignUpData, now: string): (r: AuthResponse)
    ensures r.user.id == SignUpUserId
    ensures r.user.email == data.email && r.user.fullName == data.fullName
    ensures r.user.skills == None && r.user.createdAt == now
    ensures r.token == MockToken && r.expiresIn == TokenLifetime
  {
    AuthResponse(User(SignUpUserId, data.email, data.fullName, None, now), MockToken, TokenLifetime)
  }

  /** The display name is the whole address when it has no '@', and empty
      when the address starts with one. */
  lemma DisplayNameEdgeCases(email: string)
    ensures '@' !in email ==> DisplayNameOf(email) == email
    ensures email != [] && email[0] == '@' ==> DisplayNameOf(email) == ""
  {
  }

  /** Only the email reaches the sign-in response: the password and the
      remember-me flag do not change it. */
  lemma SignInIgnoresSecrets(a: SignInData, b: SignInData, now: string)
    requires a.email == b.email
    ensures SignIn(a, now) == SignIn(b, now)
  {
  }

  /** Only the email and the full name reach the sign-up response. */
  lemma SignUpIgnoresPassword(a: SignUpData, b: SignUpData, now: string)
    requires a.email == b.email && a.fullName == b.fullName
    ensures SignUp(a, now) == SignUp(b, now)
  {
  }
}
