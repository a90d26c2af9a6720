/**
 * controllers/account-controllers.js: the eight request handlers, as methods of one
 * `Accounts` object that owns the `users` collection, the three token secrets, the key
 * derivation and the email library. Each handler is one atomic step on the collection.
 *
 * What a handler cannot see is an input: `validation` is what `validationResult(req)`
 * lists, `random` the 16 bytes `crypto.randomBytes` returns for a new salt, `now` the
 * clock `jsonwebtoken` reads, `mailOk` whether the mailer's promise resolves, and the
 * replies of Google and Facebook. A mail a handler hands to the mailer is returned as
 * `mail`, whether or not its delivery succeeded.
 */
module AccountControllers {
  import opened Wrappers
  import opened JsStrings
  import opened Crypto
  import opened Jwt
  import opened ErrorCodes
  import opened MongoDbError
  import opened BodyValidators
  import opened UserModel

  /** The entries of helpers/codes/success-codes.js the handlers send back. */
  datatype SuccessCode =
    | SignupSuccess
    | SigninSuccess
    | ActivationSuccess
    | SendActivationEmailSuccess
    | SendResetPwdEmailSuccess
    | PwdChangedSuccess

  /** The `user` object of a sign-in reply. */
  datatype Profile = Profile(id: nat, name: string, email: string, role: string)

  /** What a successful reply carries besides `success: true` and its message. */
  datatype Body =
    | Plain
    | ActivatedUser(name: Option<string>, email: string)
    | SignedIn(user: Profile, token: Token)

  /**
   * How a request ends: a JSON reply, an error handed to `next`, or no reply at all
   * (a path that returns an `HttpError` instead of passing it to `next`, or throws
   * outside any `try`).
   */
  datatype Outcome =
    | Ok(status: int, message: SuccessCode, body: Body)
    | Err(error: HttpError)
    | NoResponse

  /** A message handed to the mailer. */
  datatype Mail =
    | ActivationMail(to: string, name: string, token: Token)
    | ResetMail(to: string, name: string, token: Token)

  /**
   * The payload of a Google ID token that `verifyIdToken` accepted; `email` is absent when
   * the token was issued without the email scope, `name` is "" when absent.
   */
  datatype GooglePayload = GooglePayload(emailVerified: bool, name: string, email: Option<string>)

  /** The Graph API reply; `email` is absent when the user did not grant it, `name` is "" when absent. */
  datatype FacebookReply = FacebookReply(email: Option<string>, name: string)

  /**
   * The 422 every validated handler raises: the first message, or INVALID_INPUT_DATA when
   * that message is empty.
   */
  function InvalidInput(validation: seq<string>): (e: HttpError)
    requires validation != []
    ensures e.code == InvalidInputData.StatusCode()
    ensures e.message != ""
    ensures validation[0] != "" ==> e.message == validation[0]
    ensures validation[0] == "" ==> e.message == InvalidInputData.Value()
  {
    HttpError(if validation[0] != "" then validation[0] else InvalidInputData.Value(), InvalidInputData.StatusCode())
  }

  /** `user.name || 'unknown user'`, the greeting of a mail. */
  function Greeting(name: string): (g: string)
    ensures g != ""
    ensures name != "" ==> g == name
    ensures name == "" ==> g == "unknown user"
  {
    if name != "" then name else "unknown user"
  }

  /** A reset link is either the default "" or a reset token naming its own account. */
  predicate LinkOwned(a: Account, resetSecret: string) {
    || a.resetPasswordLink == NoLink
    || (&& a.resetPasswordLink.Signed?
        && a.resetPasswordLink.secret == resetSecret
        && a.resetPasswordLink.claims.userId == a.id
        && a.resetPasswordLink.claims.email == a.email)
  }

  /** Every stored reset link is owned by the account holding it. */
  ghost predicate LinksOwned(docs: map<string, Account>, resetSecret: string) {
    forall e :: e in docs ==> LinkOwned(docs[e], resetSecret)
  }

  lemma LinksOwnedUpdate(docs: map<string, Account>, resetSecret: string, key: string, a: Account)
    requires LinksOwned(docs, resetSecret) && LinkOwned(a, resetSecret)
    ensures LinksOwned(docs[key := a], resetSecret)
  {
  }

  /**
   * A reset token other than "" is held by at most one account: it names its holder's id,
   * and ids are distinct.
   */
  lemma OneHolderPerLink(docs: map<string, Account>, resetSecret: string, k: string)
    requires LinksOwned(docs, resetSecret) && IdsDistinct(docs)
    requires k in docs && docs[k].resetPasswordLink != NoLink
    ensures forall e :: e in docs && e != k ==> docs[e].resetPasswordLink != docs[k].resetPasswordLink
  {
    forall e | e in docs && e != k
      ensures docs[e].resetPasswordLink != docs[k].resetPasswordLink
    {
      assert LinkOwned(docs[e], resetSecret) && LinkOwned(docs[k], resetSecret);
      assert docs[e].id != docs[k].id;
    }
  }

  /**
   * A reset token naming an account that no longer holds it is held by nobody: the other
   * accounts' links name other ids.
   */
  lemma SupersededLinkUnheld(docs: map<string, Account>, resetSecret: string, k: string, t: Token)
    requires LinksOwned(docs, resetSecret) && IdsDistinct(docs)
    requires k in docs && t.Signed? && t.claims.userId == docs[k].id && docs[k].resetPasswordLink != t
    ensures LinkHolder(docs, t).None?
  {
    forall e | e in docs
      ensures docs[e].resetPasswordLink != t
    {
      assert LinkOwned(docs[e], resetSecret);
      if e != k {
        assert docs[e].id != docs[k].id;
      }
    }
  }

  /** Replacing the holder of a reset token by an account with the default link leaves the token unheld. */
  lemma ClearedLinkUnheld(docs: map<string, Account>, resetSecret: string, k: string, b: Account)
    requires LinksOwned(docs, resetSecret) && IdsDistinct(docs)
    requires k in docs && docs[k].resetPasswordLink != NoLink && b.resetPasswordLink == NoLink
    ensures LinkHolder(docs[k := b], docs[k].resetPasswordLink).None?
  {
    OneHolderPerLink(docs, resetSecret, k);
  }

  class Accounts {
    const users: UserStore
    const secrets: Secrets
    const pbkdf2: Pbkdf2
    const lib: EmailLibrary

    ghost predicate Valid()
      reads this, users
    {
      && users.Valid()
      && secrets.Configured()
      && LinksOwned(users.docs, secrets.reset)
    }

    constructor (secrets: Secrets, pbkdf2: Pbkdf2, lib: EmailLibrary)
      requires secrets.Configured()
      ensures Valid() && fresh(users) && users.docs == map[]
      ensures this.secrets == secrets && this.pbkdf2 == pbkdf2 && this.lib == lib
    {
      users := new UserStore();
      this.secrets, this.pbkdf2, this.lib := secrets, pbkdf2, lib;
    }

    /** The reply of a successful sign-in: the profile and a one-hour session token. */
    function SessionReply(a: Account, now: int): (out: Outcome)
      reads this
      ensures out.Ok? && out.status == 200 && out.message == SigninSuccess
      ensures out.body.SignedIn? && out.body.user == Profile(a.id, a.name, a.email, a.role)
      ensures Verify(out.body.token, secrets.session, now) == Success(Claims(a.id, None, a.email))
      ensures forall key, at :: Verify(out.body.token, key, at).Success? <==> key == secrets.session && at < now + OneHour
    {
      Ok(200, SigninSuccess, SignedIn(Profile(a.id, a.name, a.email, a.role),
                                      Sign(Claims(a.id, None, a.email), secrets.session, OneHour, now)))
    }

    /** The error a failed `save()` reaches `next` with: `dbErrorHandler(err, 500)` of a validation error. */
    static function SaveFailed(errs: seq<FieldError>): (e: HttpError)
      ensures e.code == ServerError.StatusCode()
      ensures e.message == "" <==> forall i :: 0 <= i < |errs| ==> errs[i].message == ""
    {
      LastTruthyMessageIsLast(errs);
      HttpError(LastTruthyMessage(errs), ServerError.StatusCode())
    }

    /**
     * `new User({ name, email, password, isActive })` followed by `user.save()` and, when
     * the save rejects, `dbErrorHandler(err, 500)`: the new account is stored exactly when
     * it passes validation.
     */
    method Create(name: string, email: string, password: string, isActive: bool, random: seq<byte>)
      returns (r: Result<Account, HttpError>)
      requires Valid() && |random| == 16 && EmailSetter(email) !in users.docs
      modifies users
      ensures Valid()
      ensures var a := NewAccount(old(users.nextId), name, email, password, MakeSalt(random), isActive, pbkdf2);
        && (r.Success? <==> ValidationErrors(a, false) == [])
        && (r.Success? ==> r.value == a && users.docs == old(users.docs)[a.email := a] && users.nextId == old(users.nextId) + 1)
        && (r.Failure? ==> r.error == SaveFailed(ValidationErrors(a, false))
                           && users.docs == old(users.docs) && users.nextId == old(users.nextId))
    {
      var doc := new UserDocument(users.nextId, name, email, password, random, isActive, pbkdf2);
      EmailSetterNormalises(email);
      var saved := users.Save(doc);
      LinksOwnedUpdate(old(users.docs), secrets.reset, doc.email, doc.Snapshot());
      if saved.Failure? {
        var e := DbErrorHandler(saved.error, ServerError.StatusCode());
        return Failure(e);
      }
      r := Success(doc.Snapshot());
    }

    /**
     * `signupController`. The name reaches the handler trimmed and the email normalised by
     * the validator's sanitizers. A known email is refused without writing; a new one is
     * saved inactive, and its activation mail carries a fifteen-minute token with the
     * account's id, name and email. A failed mail still leaves the new account stored.
     */
    method Signup(body: SignupBody, random: seq<byte>, mailOk: bool, now: int)
      returns (out: Outcome, mail: Option<Mail>)
      requires Valid() && |random| == 16
      modifies users
      ensures Valid()
      ensures users.docs.Keys <= old(users.docs).Keys + {EmailSetter(lib.normalizeEmail(body.email))}
      ensures var errs := SignupValidator(lib, body);
        var name := Trim(body.name);
        var email := lib.normalizeEmail(body.email);
        var key := EmailSetter(email);
        var a := NewAccount(old(users.nextId), name, email, body.password1, MakeSalt(random), false, pbkdf2);
        if errs != [] then
          && out == Err(InvalidInput(errs)) && mail == None
          && users.docs == old(users.docs) && users.nextId == old(users.nextId)
        else if key in old(users.docs) then
          && out == Err(if old(users.docs)[key].isActive then UserAlreadyExists.ToHttpError()
                        else UserInactive.ToHttpError())
          && mail == None
          && users.docs == old(users.docs) && users.nextId == old(users.nextId)
        else if ValidationErrors(a, false) != [] then
          && out == Err(SaveFailed(ValidationErrors(a, false))) && mail == None
          && users.docs == old(users.docs) && users.nextId == old(users.nextId)
        else
          && users.docs == old(users.docs)[key := a] && users.nextId == old(users.nextId) + 1
          && mail == Some(ActivationMail(email, name,
               Sign(Claims(a.id, Some(name), email), secrets.activation, FifteenMinutes, now)))
          && out == (if mailOk then Ok(201, SignupSuccess, Plain) else Err(ServerError.ToHttpError()))
    {
      var errs := SignupValidator(lib, body);
      var name := Trim(body.name);
      var email := lib.normalizeEmail(body.email);
      mail := None;
      if errs != [] {
        out := Err(InvalidInput(errs));
      } else {
        var found := users.FindOne(email);
        if found.Some? {
          out := Err(if found.value.isActive then UserAlreadyExists.ToHttpError() else UserInactive.ToHttpError());
        } else {
          var created := Create(name, email, body.password1, false, random);
          if created.Failure? {
            out := Err(created.error);
          } else {
            var token := Sign(Claims(created.value.id, Some(name), email), secrets.activation, FifteenMinutes, now);
            mail := Some(ActivationMail(email, name, token));
            out := if mailOk then Ok(201, SignupSuccess, Plain) else Err(ServerError.ToHttpError());
          }
        }
      }
    }

    /**
     * `activateController`. The account is looked up by the token's email, not its id;
     * only an inactive account is written, and only its `isActive` changes.
     */
    method Activate(token: Token, now: int) returns (out: Outcome)
      requires Valid()
      modifies users
      ensures Valid() && users.nextId == old(users.nextId) && users.docs.Keys == old(users.docs).Keys
      ensures var v := Verify(token, secrets.activation, now);
        if v.Failure? then out == Err(ExpiredToken.ToHttpError()) && users.docs == old(users.docs)
        else
          var key := EmailSetter(v.value.email);
          if key !in old(users.docs) then
            out == Err(UserDoesntExist.ToHttpError()) && users.docs == old(users.docs)
          else if old(users.docs)[key].isActive then
            out == Err(UserAlreadyActivated.ToHttpError()) && users.docs == old(users.docs)
          else
            && out == Ok(200, ActivationSuccess, ActivatedUser(v.value.name, v.value.email))
            && users.docs == old(users.docs)[key := old(users.docs)[key].(isActive := true)]
    {
      var v := Verify(token, secrets.activation, now);
      if v.Failure? {
        return Err(ExpiredToken.ToHttpError());
      }
      var claims := v.value;
      var found := users.FindOne(claims.email);
      if found.None? {
        return Err(UserDoesntExist.ToHttpError());
      }
      if found.value.isActive {
        return Err(UserAlreadyActivated.ToHttpError());
      }
      MarkActive(found.value);
      out := Ok(200, ActivationSuccess, ActivatedUser(claims.name, claims.email));
    }

    /**
     * `user.isActive = true; await user.save()` on a stored account. The save cannot be
     * rejected: the account already passed validation and its email is its own.
     */
    method MarkActive(user: Account)
      requires Valid() && user.email in users.docs && users.docs[user.email] == user
      modifies users
      ensures Valid() && users.nextId == old(users.nextId) && users.docs.Keys == old(users.docs).Keys
      ensures users.docs == old(users.docs)[user.email := user.(isActive := true)]
    {
      var doc := new UserDocument.FromAccount(user, pbkdf2);
      doc.isActive := true;
      assert ValidationErrors(doc.Snapshot(), users.Taken(doc.email, doc.id)) == [];
      var saved := users.Save(doc);
      LinksOwnedUpdate(old(users.docs), secrets.reset, doc.email, doc.Snapshot());
    }

    /**
     * `sendActivationEmailController`: reads the collection and never writes it. A new
     * activation token goes out for an inactive account only; when the mail fails the
     * handler returns without replying.
     */
    method SendActivationEmail(validation: seq<string>, email: string, mailOk: bool, now: int)
      returns (out: Outcome, mail: Option<Mail>)
      requires Valid()
      ensures var found := users.FindOne(email);
        if validation != [] then out == Err(InvalidInput(validation)) && mail == None
        else if found.None? then out == Err(UserDoesntExist.ToHttpError()) && mail == None
        else if found.value.isActive then out == Err(UserAlreadyActivated.ToHttpError()) && mail == None
        else
          && mail == Some(ActivationMail(email, Greeting(found.value.name),
               Sign(Claims(found.value.id, Some(found.value.name), email), secrets.activation, FifteenMinutes, now)))
          && out == (if mailOk then Ok(200, SendActivationEmailSuccess, Plain) else NoResponse)
    {
      if validation != [] {
        return Err(InvalidInput(validation)), None;
      }
      var found := users.FindOne(email);
      if found.None? {
        return Err(UserDoesntExist.ToHttpError()), None;
      }
      var user := found.value;
      if user.isActive {
        return Err(UserAlreadyActivated.ToHttpError()), None;
      }
      var token := Sign(Claims(user.id, Some(user.name), email), secrets.activation, FifteenMinutes, now);
      mail := Some(ActivationMail(email, Greeting(user.name), token));
      out := if mailOk then Ok(200, SendActivationEmailSuccess, Plain) else NoResponse;
    }

    /**
     * `signinController`: reads the collection and never writes it. An inactive account
     * is refused before its password is looked at. `passwordCheckDefined` says whether the
     * method the handler calls exists on the document: the source calls `validPasswords`,
     * which the schema does not define, and the resulting TypeError reaches
     * `dbErrorHandler`, which makes it a 500 with an empty message.
     */
    method Signin(validation: seq<string>, email: string, password: string,
                  passwordCheckDefined: bool, now: int) returns (out: Outcome)
      requires Valid()
      ensures var found := users.FindOne(email);
        if validation != [] then out == Err(InvalidInput(validation))
        else if found.None? then out == Err(InvalidCredentials.ToHttpError())
        else if !found.value.isActive then out == Err(UserInactive.ToHttpError())
        else if !passwordCheckDefined then out == Err(HttpError("", ServerError.StatusCode()))
        else if !found.value.ValidPassword(pbkdf2, password) then out == Err(InvalidCredentials.ToHttpError())
        else out == SessionReply(found.value, now)
      ensures out.Ok? <==>
        && validation == [] && passwordCheckDefined
        && EmailSetter(email) in users.docs
        && users.docs[EmailSetter(email)].isActive
        && users.docs[EmailSetter(email)].ValidPassword(pbkdf2, password)
    {
      if validation != [] {
        return Err(InvalidInput(validation));
      }
      var found := users.FindOne(email);
      if found.None? {
        return Err(InvalidCredentials.ToHttpError());
      }
      var user := found.value;
      if !user.isActive {
        return Err(UserInactive.ToHttpError());
      }
      if !passwordCheckDefined {
        var e := DbErrorHandler(PlainError("user.validPasswords is not a function"), ServerError.StatusCode());
        return Err(e);
      }
      if !user.ValidPassword(pbkdf2, password) {
        return Err(InvalidCredentials.ToHttpError());
      }
      out := SessionReply(user, now);
    }

    /** The account `new User({ name, email, password, isActive: true })` builds for a federated sign-in. */
    function FederatedAccount(name: string, email: string, random: seq<byte>): (a: Account)
      reads this, users
      requires |random| == 16
      ensures a.isActive && a.id == users.nextId && a.email == EmailSetter(email)
      ensures a.ValidPassword(pbkdf2, email + secrets.session)
    {
      NewAccount(users.nextId, name, email, email + secrets.session, MakeSalt(random), true, pbkdf2)
    }

    /**
     * The create-or-reuse step Google and Facebook sign-in share: a known email gives its
     * account untouched, whether active or not; an unknown one is saved active, with the
     * email followed by the session secret as its password.
     */
    method FindOrCreate(name: string, email: string, random: seq<byte>) returns (r: Result<Account, HttpError>)
      requires Valid() && |random| == 16
      modifies users
      ensures Valid()
      ensures var key := EmailSetter(email);
        var a := old(FederatedAccount(name, email, random));
        if key in old(users.docs) then
          r == Success(old(users.docs)[key]) && users.docs == old(users.docs) && users.nextId == old(users.nextId)
        else if ValidationErrors(a, false) != [] then
          && r == Failure(SaveFailed(ValidationErrors(a, false)))
          && users.docs == old(users.docs) && users.nextId == old(users.nextId)
        else
          r == Success(a) && users.docs == old(users.docs)[key := a] && users.nextId == old(users.nextId) + 1
    {
      var found := users.FindOne(email);
      if found.Some? {
        return Success(found.value);
      }
      r := Create(name, email, email + secrets.session, true, random);
    }

    /**
     * `signinGoogleController`. `reply` is what `verifyIdToken` resolves to, `None` when it
     * throws. A missing `idToken` is a 422. A payload without an email makes
     * `normalizeEmail` throw outside any `try`, before the verified-email test, so no reply
     * is sent. An unverified email is a 500; otherwise the account is found or created and
     * a session is opened for it.
     */
    method SigninGoogle(idToken: string, reply: Option<GooglePayload>, random: seq<byte>, now: int)
      returns (out: Outcome)
      requires Valid() && |random| == 16
      modifies users
      ensures Valid()
      ensures idToken == "" ==>
        out == Err(InvalidInputData.ToHttpError()) && users.docs == old(users.docs) && users.nextId == old(users.nextId)
      ensures idToken != "" && reply.None? ==>
        out == Err(ServerError.ToHttpError()) && users.docs == old(users.docs) && users.nextId == old(users.nextId)
      ensures idToken != "" && reply.Some? && reply.value.email.None? ==>
        out == NoResponse && users.docs == old(users.docs) && users.nextId == old(users.nextId)
      ensures idToken != "" && reply.Some? && reply.value.email.Some? && !reply.value.emailVerified ==>
        out == Err(ServerError.ToHttpError()) && users.docs == old(users.docs) && users.nextId == old(users.nextId)
      ensures idToken != "" && reply.Some? && reply.value.email.Some? && reply.value.emailVerified ==>
        var email := lib.normalizeEmail(reply.value.email.value);
        var key := EmailSetter(email);
        var a := old(FederatedAccount(reply.value.name, email, random));
        if key in old(users.docs) then
          out == SessionReply(old(users.docs)[key], now) && users.docs == old(users.docs) && users.nextId == old(users.nextId)
        else if ValidationErrors(a, false) != [] then
          out == Err(SaveFailed(ValidationErrors(a, false))) && users.docs == old(users.docs) && users.nextId == old(users.nextId)
        else
          out == SessionReply(a, now) && users.docs == old(users.docs)[key := a] && users.nextId == old(users.nextId) + 1
    {
      if idToken == "" {
        return Err(InvalidInputData.ToHttpError());
      }
      if reply.None? {
        return Err(ServerError.ToHttpError());
      }
      if reply.value.email.None? {
        return NoResponse;
      }
      var email := lib.normalizeEmail(reply.value.email.value);
      if !reply.value.emailVerified {
        return Err(ServerError.ToHttpError());
      }
      var r := FindOrCreate(reply.value.name, email, random);
      if r.Failure? {
        return Err(r.error);
      }
      out := SessionReply(r.value, now);
    }

    /**
     * `signinFacebookController`. `reply` is the Graph API's answer, `None` when the fetch
     * throws. Without an email `normalizeEmail` throws outside any `try` and no reply is
     * sent; otherwise this is the Google flow without the verified-email check.
     */
    method SigninFacebook(reply: Option<FacebookReply>, random: seq<byte>, now: int) returns (out: Outcome)
      requires Valid() && |random| == 16
      modifies users
      ensures Valid()
      ensures reply.None? || reply.value.email.None? ==>
        && out == (if reply.None? then Err(ServerError.ToHttpError()) else NoResponse)
        && users.docs == old(users.docs) && users.nextId == old(users.nextId)
      ensures reply.Some? && reply.value.email.Some? ==>
        var email := lib.normalizeEmail(reply.value.email.value);
        var key := EmailSetter(email);
        var a := old(FederatedAccount(reply.value.name, email, random));
        if key in old(users.docs) then
          out == SessionReply(old(users.docs)[key], now) && users.docs == old(users.docs) && users.nextId == old(users.nextId)
        else if ValidationErrors(a, false) != [] then
          out == Err(SaveFailed(ValidationErrors(a, false))) && users.docs == old(users.docs) && users.nextId == old(users.nextId)
        else
          out == SessionReply(a, now) && users.docs == old(users.docs)[key := a] && users.nextId == old(users.nextId) + 1
    {
      if reply.None? {
        return Err(ServerError.ToHttpError());
      }
      if reply.value.email.None? {
        return NoResponse;
      }
      var email := lib.normalizeEmail(reply.value.email.value);
      var r := FindOrCreate(reply.value.name, email, random);
      if r.Failure? {
        return Err(r.error);
      }
      out := SessionReply(r.value, now);
    }

    /**
     * `forgotPasswordController`. Only an active account is found; it gets a new one-hour
     * reset token as its `resetPasswordLink`, replacing any earlier one, and the token is
     * mailed. When the mail fails the handler returns without replying, but the link
     * stays written.
     */
    method ForgotPassword(validation: seq<string>, email: string, mailOk: bool, now: int)
      returns (out: Outcome, mail: Option<Mail>)
      requires Valid()
      modifies users
      ensures Valid() && users.nextId == old(users.nextId)
      ensures var found := old(users.FindOne(email));
        if validation != [] then
          out == Err(InvalidInput(validation)) && mail == None && users.docs == old(users.docs)
        else if found.None? || !found.value.isActive then
          out == Err(UserDoesntExist.ToHttpError()) && mail == None && users.docs == old(users.docs)
        else
          var a := found.value;
          var t := Sign(Claims(a.id, None, a.email), secrets.reset, OneHour, now);
          && users.docs == old(users.docs)[a.email := a.(resetPasswordLink := t)]
          && mail == Some(ResetMail(email, Greeting(a.name), t))
          && out == (if mailOk then Ok(200, SendResetPwdEmailSuccess, Plain) else NoResponse)
    {
      if validation != [] {
        return Err(InvalidInput(validation)), None;
      }
      var found := users.FindOne(email);
      if found.None? || !found.value.isActive {
        return Err(UserDoesntExist.ToHttpError()), None;
      }
      var user := found.value;
      var token := Sign(Claims(user.id, None, user.email), secrets.reset, OneHour, now);
      users.UpdateResetPasswordLink(user.email, token);
      LinksOwnedUpdate(old(users.docs), secrets.reset, user.email, user.(resetPasswordLink := token));
      mail := Some(ResetMail(email, Greeting(user.name), token));
      out := if mailOk then Ok(200, SendResetPwdEmailSuccess, Plain) else NoResponse;
    }

    /**
     * `resetPasswordController`. The token must verify under the reset secret and be some
     * account's current link. That account gets a fresh salt, the hash of the new password
     * and the default link back; once saved, no account holds the token any more.
     */
    method ResetPassword(validation: seq<string>, token: Token, password: string, random: seq<byte>, now: int)
      returns (out: Outcome)
      requires Valid() && |random| == 16
      modifies users
      ensures Valid() && users.nextId == old(users.nextId)
      ensures validation != [] ==> out == Err(InvalidInput(validation)) && users.docs == old(users.docs)
      ensures validation == [] && (Verify(token, secrets.reset, now).Failure? || LinkHolder(old(users.docs), token).None?) ==>
        out == Err(ExpiredToken.ToHttpError()) && users.docs == old(users.docs)
      ensures validation == [] && Verify(token, secrets.reset, now).Success? && LinkHolder(old(users.docs), token).Some? ==>
        var key := LinkHolder(old(users.docs), token).value;
        var b := Rehashed(old(users.docs)[key], pbkdf2, MakeSalt(random), password).(resetPasswordLink := NoLink);
        if ValidationErrors(b, false) != [] then
          out == Err(SaveFailed(ValidationErrors(b, false))) && users.docs == old(users.docs)
        else
          && out == Ok(200, PwdChangedSuccess, Plain)
          && users.docs == old(users.docs)[key := b]
          && b.ValidPassword(pbkdf2, password)
          && LinkHolder(users.docs, token).None?
    {
      if validation != [] {
        return Err(InvalidInput(validation));
      }
      if Verify(token, secrets.reset, now).Failure? {
        return Err(ExpiredToken.ToHttpError());
      }
      var found := users.FindByResetLink(token);
      if found.None? {
        return Err(ExpiredToken.ToHttpError());
      }
      var user := found.value;
      OneHolderPerLink(users.docs, secrets.reset, user.email);
      assert LinkHolder(users.docs, token) == Some(user.email);
      out := Redeem(user, password, random);
    }

    /**
     * The update and save of a reset: the password setter runs on the account holding a
     * link, the link goes back to "", and the document is saved.
     */
    method Redeem(user: Account, password: string, random: seq<byte>) returns (out: Outcome)
      requires Valid() && |random| == 16
      requires user.email in users.docs && users.docs[user.email] == user && user.resetPasswordLink != NoLink
      modifies users
      ensures Valid() && users.nextId == old(users.nextId)
      ensures var b := Rehashed(user, pbkdf2, MakeSalt(random), password).(resetPasswordLink := NoLink);
        if ValidationErrors(b, false) != [] then
          out == Err(SaveFailed(ValidationErrors(b, false))) && users.docs == old(users.docs)
        else
          && out == Ok(200, PwdChangedSuccess, Plain)
          && users.docs == old(users.docs)[user.email := b]
          && LinkHolder(users.docs, user.resetPasswordLink).None?
    {
      var doc := new UserDocument.FromAccount(user, pbkdf2);
      doc.SetPassword(password, random);
      doc.resetPasswordLink := NoLink;
      ghost var b := doc.Snapshot();
      var saved := users.Save(doc);
      if saved.Failure? {
        var e := DbErrorHandler(saved.error, ServerError.StatusCode());
        return Err(e);
      }
      LinksOwnedUpdate(old(users.docs), secrets.reset, user.email, b);
      ClearedLinkUnheld(old(users.docs), secrets.reset, user.email, b);
      out := Ok(200, PwdChangedSuccess, Plain);
    }
  }
}
