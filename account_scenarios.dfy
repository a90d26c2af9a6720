/**
 * Sequences of requests a client can send, each run against the same `Accounts`, and
 * what the handlers' contracts say about the later replies: the account state machine
 * (inactive, then active; reset link set, then cleared) and the guards on its steps.
 */
module AccountScenarios {
  import opened Wrappers
  import opened Crypto
  import opened Jwt
  import opened ErrorCodes
  import opened BodyValidators
  import opened UserModel
  import opened AccountControllers
  import opened App

  /** An activation link works once: whatever the first click did, a later second click is refused. */
  method ActivateTwice(accounts: Accounts, token: Token, now1: int, now2: int)
    returns (out1: Outcome, out2: Outcome)
    requires accounts.Valid() && now1 <= now2
    modifies accounts.users
    ensures accounts.Valid()
    ensures !out2.Ok?
    ensures out1.Ok? && token.Signed? && now2 < token.exp ==> out2 == Err(UserAlreadyActivated.ToHttpError())
  {
    out1 := accounts.Activate(token, now1);
    out2 := accounts.Activate(token, now2);
  }

  /** A reset link is single use: once it changed the password, replaying it is EXPIRED_TOKEN. */
  method ResetReplay(accounts: Accounts, token: Token, password1: string, password2: string,
                     random1: seq<byte>, random2: seq<byte>, now1: int, now2: int)
    returns (out1: Outcome, out2: Outcome)
    requires accounts.Valid() && |random1| == 16 && |random2| == 16
    modifies accounts.users
    ensures accounts.Valid()
    ensures out1.Ok? ==> out2 == Err(ExpiredToken.ToHttpError())
  {
    out1 := accounts.ResetPassword([], token, password1, random1, now1);
    out2 := accounts.ResetPassword([], token, password2, random2, now2);
  }

  /**
   * Asking for a reset twice, a second or more apart, supersedes the first link: only the
   * latest mailed link still changes the password.
   */
  method ForgotTwice(accounts: Accounts, email: string, password: string, random: seq<byte>,
                     now1: int, now2: int, now3: int)
    returns (mail1: Option<Mail>, mail2: Option<Mail>, out: Outcome)
    requires accounts.Valid() && |random| == 16 && now1 < now2
    modifies accounts.users
    ensures accounts.Valid()
    ensures mail1.Some? && mail2.Some? && mail1.value.ResetMail? ==> out == Err(ExpiredToken.ToHttpError())
  {
    var _, m1 := accounts.ForgotPassword([], email, true, now1);
    var _, m2 := accounts.ForgotPassword([], email, true, now2);
    mail1, mail2 := m1, m2;
    if m1.Some? && m2.Some? {
      var key := EmailSetter(email);
      SupersededLinkUnheld(accounts.users.docs, accounts.secrets.reset, key, m1.value.token);
      out := accounts.ResetPassword([], m1.value.token, password, random, now3);
    } else {
      out := NoResponse;
    }
  }

  /**
   * The happy path, with `signinValidator` on the sign-in route (it sanitizes the email
   * with `normalizeEmail`, as the signup route does) and the schema's `validPassword`: a
   * signup whose activation mail went out, the click on that mail within fifteen minutes,
   * then a sign-in with the address and password of the signup, which opens a session.
   */
  method SignupActivateSignin(accounts: Accounts, body: SignupBody, random: seq<byte>, now: int)
    returns (out1: Outcome, out2: Outcome, out3: Outcome)
    requires accounts.Valid() && |random| == 16
    modifies accounts.users
    ensures accounts.Valid()
    ensures out1.Ok? ==> out2.Ok? && out3.Ok? && out3.body.SignedIn?
  {
    var mail;
    out1, mail := accounts.Signup(body, random, true, now);
    if out1.Ok? && mail.Some? {
      out2 := accounts.Activate(mail.value.token, now + 1);
      var validation := SigninValidator(accounts.lib, body.email, body.password1);
      out3 := accounts.Signin(validation, accounts.lib.normalizeEmail(body.email), body.password1, true, now + 2);
    } else {
      out2, out3 := NoResponse, NoResponse;
    }
  }

  /**
   * The same requests as routed: `/signin` has no validator, so the handler looks up the
   * address as typed, while signup stored it as `normalizeEmail` returned it. Whenever
   * the two differ after the schema's setters (`normalizeEmail` drops the dots of a Gmail
   * address), the new account cannot sign in with the address it signed up with, even
   * with the intended password check.
   */
  method SignupActivateSigninAsRouted(accounts: Accounts, body: SignupBody, random: seq<byte>, now: int)
    returns (out1: Outcome, out2: Outcome, out3: Outcome)
    requires accounts.Valid() && |random| == 16
    modifies accounts.users
    ensures accounts.Valid()
    ensures var typed := EmailSetter(body.email);
      out1.Ok? && typed !in old(accounts.users.docs)
      && EmailSetter(accounts.lib.normalizeEmail(body.email)) != typed ==>
        out3 == Err(InvalidCredentials.ToHttpError())
  {
    var mail;
    out1, mail := accounts.Signup(body, random, true, now);
    if out1.Ok? && mail.Some? {
      out2 := accounts.Activate(mail.value.token, now + 1);
    } else {
      out2 := NoResponse;
    }
    out3 := accounts.Signin([], body.email, body.password1, true, now + 2);
  }

  /** An empty password never signs in, whatever account the address names. */
  method EmptyPasswordSignin(accounts: Accounts, email: string, now: int) returns (out: Outcome)
    requires accounts.Valid()
    ensures !out.Ok?
  {
    var key := EmailSetter(email);
    if key in accounts.users.docs {
      EmptyPasswordNeverValid(accounts.users.docs[key], accounts.pbkdf2);
    }
    out := accounts.Signin([], email, "", true, now);
  }

  /**
   * Sign-in as the source calls it: the document has no `validPasswords` method, so no
   * credentials ever open a session, and a correct password is answered with a 500.
   */
  method SigninAsWritten(accounts: Accounts, email: string, password: string, now: int) returns (out: Outcome)
    requires accounts.Valid()
    ensures !out.Ok?
    ensures var key := EmailSetter(email);
      key in accounts.users.docs && accounts.users.docs[key].isActive ==>
        out == Err(HttpError("", ServerError.StatusCode()))
  {
    out := accounts.Signin([], email, password, false, now);
  }

  /**
   * Sign-in with the schema's `validPassword`: a session opens exactly for an active
   * account whose password matches.
   */
  method SigninCorrected(accounts: Accounts, email: string, password: string, now: int) returns (out: Outcome)
    requires accounts.Valid()
    ensures var key := EmailSetter(email);
      out.Ok? <==> key in accounts.users.docs && accounts.users.docs[key].isActive
                   && accounts.users.docs[key].ValidPassword(accounts.pbkdf2, password)
  {
    out := accounts.Signin([], email, password, true, now);
  }

  /**
   * An account created by a federated sign-in has the address followed by the session
   * secret as its password, so with the schema's `validPassword` (as corrected) whoever
   * knows that secret signs in to it locally; as written that sign-in is a 500.
   */
  method FederatedThenLocal(accounts: Accounts, idToken: string, payload: GooglePayload,
                            random: seq<byte>, now: int)
    returns (out1: Outcome, out2: Outcome)
    requires accounts.Valid() && |random| == 16 && idToken != "" && payload.emailVerified && payload.email.Some?
    requires EmailSetter(accounts.lib.normalizeEmail(payload.email.value)) !in accounts.users.docs
    modifies accounts.users
    ensures accounts.Valid()
    ensures out1.Ok? ==> out2.Ok?
  {
    var email := accounts.lib.normalizeEmail(payload.email.value);
    out1 := accounts.SigninGoogle(idToken, Some(payload), random, now);
    out2 := accounts.Signin([], email, email + accounts.secrets.session, true, now);
  }

  /**
   * A reset with an empty password (the reset route attaches no validator) fails the save
   * with a 500 and writes nothing, so the link stays redeemable.
   */
  method EmptyPasswordReset(accounts: Accounts, token: Token, random: seq<byte>, now: int)
    returns (out: Outcome)
    requires accounts.Valid() && |random| == 16
    modifies accounts.users
    ensures accounts.Valid()
    ensures out.Err? && accounts.users.docs == old(accounts.users.docs)
    ensures Verify(token, accounts.secrets.reset, now).Success? && LinkHolder(accounts.users.docs, token).Some? ==>
      out.error.code == ServerError.StatusCode()
  {
    out := accounts.ResetPassword([], token, "", random, now);
  }

  /**
   * An address whose account was never activated is refused at signup until the nightly
   * purge, after which it can sign up afresh: only a failed save or a failed mail stops it.
   */
  method PurgeFreesInactiveEmail(accounts: Accounts, body: SignupBody, random: seq<byte>, now: int)
    returns (out1: Outcome, out2: Outcome)
    requires accounts.Valid() && |random| == 16 && SignupValidator(accounts.lib, body) == []
    requires var key := EmailSetter(accounts.lib.normalizeEmail(body.email));
      key in accounts.users.docs && !accounts.users.docs[key].isActive
    modifies accounts.users
    ensures accounts.Valid()
    ensures out1 == Err(UserInactive.ToHttpError())
    ensures out2.Err? ==> out2.error.code == ServerError.StatusCode()
  {
    ghost var key := EmailSetter(accounts.lib.normalizeEmail(body.email));
    var mail;
    out1, mail := accounts.Signup(body, random, true, now);
    NightlyPurge(accounts);
    assert key !in accounts.users.docs;
    out2, mail := accounts.Signup(body, random, true, now);
  }

  /**
   * Forgot-password as wired: the mailer it calls is not exported, so the call throws, the
   * handler returns without replying, and the new link is written all the same.
   */
  method ForgotPasswordAsWired(accounts: Accounts, email: string, now: int) returns (out: Outcome)
    requires accounts.Valid()
    modifies accounts.users
    ensures accounts.Valid()
    ensures !out.Ok?
    ensures var found := old(accounts.users.FindOne(email));
      found.Some? && found.value.isActive ==>
        && out == NoResponse
        && found.value.email in accounts.users.docs
        && accounts.users.docs[found.value.email].resetPasswordLink
           == Sign(Claims(found.value.id, None, found.value.email), accounts.secrets.reset, OneHour, now)
  {
    var mail;
    out, mail := accounts.ForgotPassword([], email, false, now);
  }
}
