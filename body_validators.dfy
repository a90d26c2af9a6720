/**
 * helpers/body-validators.js: the express-validator chains, as functions from a request
 * body to the list of error messages in the order `validationResult(req).array()` lists
 * them. A missing body field is the empty string, as express-validator reads it.
 * `normalizeEmail` and `isEmail` of the `validator` package are left abstract.
 */
module BodyValidators {
  import opened JsStrings

  datatype EmailLibrary = EmailLibrary(normalizeEmail: string -> string, isEmail: string -> bool)

  datatype SignupBody = SignupBody(name: string, email: string, password1: string, password2: string)

  const NameRequired := "Name is required."
  const NameLength := "Name must be between 4 to 32 characters."
  const NameAlphabet := "Name has to contain only alphabetical characters."
  const SignupEmailInvalid := "Invalid email address."
  const PasswordRequired := "Password is required."
  const PasswordLength := "Password must contain at least 6 characters."
  const ConfirmationRequired := "Password confirmation is required."
  const ConfirmationMismatch := "Password and password confirmation have to match."
  const EmailInvalid := "Must be a valid email address"
  const SigninPasswordRequired := "password is required"
  const SigninPasswordLength := "Password must contain at least 6 characters"
  const ResetPasswordEmpty := "Password can not be empty"
  const ResetPasswordLength := "Password must be at least  6 characters long"

  predicate IsAsciiLetter(c: char) {
    'A' <= c <= 'Z' || 'a' <= c <= 'z'
  }

  /** `/^[A-Za-z]+$/.test(s)` */
  predicate OnlyLetters(s: string) {
    s != [] && forall i :: 0 <= i < |s| ==> IsAsciiLetter(s[i])
  }

  /** What a signup name must be once trimmed. */
  predicate IsAcceptableName(s: string) {
    4 <= |s| <= 32 && forall i :: 0 <= i < |s| ==> IsAsciiLetter(s[i])
  }

  /**
   * The `name` chain: trim, then notEmpty, length 4-32 and the letters-only test, each
   * followed by `bail()`, so at most the first failing check reports.
   */
  function NameErrors(name: string): (errs: seq<string>)
    ensures "" !in errs
    ensures |errs| <= 1
    ensures errs == [] <==> IsAcceptableName(Trim(name))
  {
    var t := Trim(name);
    if t == "" then [NameRequired]
    else if !(4 <= |t| <= 32) then [NameLength]
    else if !OnlyLetters(t) then [NameAlphabet]
    else []
  }

  /** The single message names the first check that failed, in chain order. */
  lemma NameErrorOrder(name: string)
    ensures NameErrors(name) == [NameRequired] <==> Trim(name) == ""
    ensures NameErrors(name) == [NameLength] <==> Trim(name) != "" && !(4 <= |Trim(name)| <= 32)
    ensures NameErrors(name) == [NameAlphabet] <==>
      4 <= |Trim(name)| <= 32 && !OnlyLetters(Trim(name))
  {
  }

  /** `check('email').normalizeEmail().isEmail().withMessage(message)` */
  function EmailErrors(lib: EmailLibrary, email: string, message: string): (errs: seq<string>)
    ensures message != "" ==> "" !in errs
    ensures errs == [] <==> lib.isEmail(lib.normalizeEmail(email))
    ensures errs != [] ==> errs == [message]
  {
    if lib.isEmail(lib.normalizeEmail(email)) then [] else [message]
  }

  /** The `password1` chain: notEmpty, bail, length 6-100. */
  function Password1Errors(password1: string): (errs: seq<string>)
    ensures "" !in errs
    ensures |errs| <= 1
    ensures errs == [] <==> 6 <= |password1| <= 100
  {
    if password1 == "" then [PasswordRequired]
    else if !(6 <= |password1| <= 100) then [PasswordLength]
    else []
  }

  /** The `password2` chain: notEmpty, bail, equal to `password1`. */
  function Password2Errors(password1: string, password2: string): (errs: seq<string>)
    ensures "" !in errs
    ensures |errs| <= 1
    ensures errs == [] <==> password2 != "" && password2 == password1
  {
    if password2 == "" then [ConfirmationRequired]
    else if password2 != password1 then [ConfirmationMismatch]
    else []
  }

  /** `signupValidator`: the four chains in declaration order. */
  function SignupValidator(lib: EmailLibrary, body: SignupBody): (errs: seq<string>)
    ensures |errs| <= 4
    ensures errs == [] <==>
      && IsAcceptableName(Trim(body.name))
      && lib.isEmail(lib.normalizeEmail(body.email))
      && 6 <= |body.password1| <= 100
      && body.password2 == body.password1
    ensures "" !in errs
  {
    var name := NameErrors(body.name);
    var email := EmailErrors(lib, body.email, SignupEmailInvalid);
    var password1 := Password1Errors(body.password1);
    var password2 := Password2Errors(body.password1, body.password2);
    assert |name + email + password1 + password2| == |name| + |email| + |password1| + |password2|;
    name + email + password1 + password2
  }

  /**
   * `signinValidator`: the email chain, then two separate `password` chains with no
   * `bail()` between them.
   */
  function SigninValidator(lib: EmailLibrary, email: string, password: string): (errs: seq<string>)
    ensures errs == [] <==> lib.isEmail(lib.normalizeEmail(email)) && |password| >= 6
  {
    EmailErrors(lib, email, EmailInvalid)
      + (if password == "" then [SigninPasswordRequired] else [])
      + (if |password| < 6 then [SigninPasswordLength] else [])
  }

  /** Because nothing stops the second `password` chain, an empty password reports twice. */
  lemma SigninEmptyPasswordReportsTwice(lib: EmailLibrary, email: string)
    ensures SigninValidator(lib, email, "")[|SigninValidator(lib, email, "")| - 2..] ==
      [SigninPasswordRequired, SigninPasswordLength]
  {
  }

  /** `emailValidator` */
  function EmailValidator(lib: EmailLibrary, email: string): (errs: seq<string>)
    ensures errs == [] <==> lib.isEmail(lib.normalizeEmail(email))
  {
    EmailErrors(lib, email, EmailInvalid)
  }

  /**
   * `resetPasswordValidator`: not-empty and at least 6 characters, with no `bail()`
   * between the two checks.
   */
  function ResetPasswordValidator(password: string): (errs: seq<string>)
    ensures errs == [] <==> |password| >= 6
    ensures password == "" ==> errs == [ResetPasswordEmpty, ResetPasswordLength]
    ensures 0 < |password| < 6 ==> errs == [ResetPasswordLength]
  {
    (if password == "" then [ResetPasswordEmpty] else [])
      + (if |password| < 6 then [ResetPasswordLength] else [])
  }
}
