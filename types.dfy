/** The record types shared by the gateway, the session store and the forms
    (src/types/index.ts), plus the Option wrapper used for optional fields. */
module Types {

  datatype Option<+T> = None | Some(value: T)

  /** A signed-in identity. `skills` is optional; `createdAt` is an ISO-8601
      time stamp taken from the clock. */
  datatype User = User(
    id: string,
    email: string,
    fullName: string,
    skills: Option<seq<string>>,
    createdAt: string)

  /** What the gateway resolves with on success. */
  datatype AuthResponse = AuthResponse(user: User, token: string, expiresIn: int)

  datatype SignUpData = SignUpData(email: string, password: string, fullName: string)

  /** `rememberMe` is an optional field of the request. */
  datatype SignInData = SignInData(email: string, password: string, rememberMe: Option<bool>)

  /** A client-side navigation: `navigate(to, { replace })`. */
  datatype Navigation = Navigation(to: string, replace: bool)
}
