/** What the two auth forms share: the Yup string rules they use, stated
    over Dafny strings, and the shape of what a submission leaves behind.
    Yup's `min` compares JavaScript's `length`, which counts UTF-16 code
    units. Yup's email syntax check is not part of this model: it is the
    parameter `isEmail`. */
module FormRules {
  import opened Types
  import Session
  import JsText

  /** How the awaited façade call ends, as the form's try block sees it. */
  datatype Settled = Returned(result: Session.AuthResult) | Threw

  /** What a submission leaves behind: the error text shown above the
      form, and the navigation made, if any. */
  datatype Effect = Effect(error: string, navigation: Option<Navigation>)

  /** `.required()`: the empty string is rejected. */
  predicate Required(s: string) {
    s != ""
  }

  /** `.min(n)`. */
  predicate MinLength(s: string, n: nat) {
    JsText.Utf16Length(s) >= n
  }

  /** `.email().required()`, with the syntax check supplied by the caller. */
  predicate EmailValid(email: string, isEmail: string -> bool) {
    Required(email) && isEmail(email)
  }

  /** `.matches(/[a-z]/)`. */
  predicate HasLowercase(s: string) {
    exists i :: 0 <= i < |s| && 'a' <= s[i] <= 'z'
  }

  /** `.matches(/[A-Z]/)`. */
  predicate HasUppercase(s: string) {
    exists i :: 0 <= i < |s| && 'A' <= s[i] <= 'Z'
  }

  /** `.matches(/\d/)`: an ASCII digit. */
  predicate HasDigit(s: string) {
    exists i :: 0 <= i < |s| && '0' <= s[i] <= '9'
  }

  /** JavaScript's `text || fallback` on strings: the empty string is falsy. */
  function OrElse(text: string, fallback: string): string {
    if text != "" then text else fallback
  }
}
