/**
 * models/user-model.js: the `User` schema, its `password` virtual and its methods, and
 * the `users` collection the controllers query and write. A document is a class whose
 * fields the setters and the controllers assign; what the collection stores is an
 * `Account` value per document, keyed by its (normalised, unique) email.
 */
module UserModel {
  import opened Wrappers
  import opened JsStrings
  import opened Crypto
  import opened Jwt
  import opened MongoDbError

  /** The default `resetPasswordLink`, the empty string. */
  const NoLink: Token := Text("")

  /** The default `role`. */
  const DefaultRole: string := "user"

  /**
   * One stored user. `isActive` is not a path of the schema but the controllers read and
   * write it; it is modelled as a persisted field that defaults to false.
   */
  datatype Account = Account(
    id: nat,
    name: string,
    email: string,
    hashedPassword: string,
    salt: string,
    role: string,
    isActive: bool,
    resetPasswordLink: Token)
  {
    /**
     * `validPassword(password)`: the password encrypts, under this account's salt, to the
     * stored hash. Against a non-empty hash only a non-empty password whose derived key
     * has that hash as its hex form is accepted; against "" only the empty password or one
     * whose derivation throws or yields no bytes.
     */
    predicate ValidPassword(pbkdf2: Pbkdf2, password: string)
      ensures ValidPassword(pbkdf2, password) && hashedPassword != "" ==>
        password != "" && pbkdf2(password, salt).Some? && hashedPassword == HexEncode(pbkdf2(password, salt).value)
      ensures hashedPassword == "" ==>
        (ValidPassword(pbkdf2, password) <==>
           password == "" || pbkdf2(password, salt).None? || pbkdf2(password, salt).value == [])
    {
      EncryptPassword(pbkdf2, salt, password) == hashedPassword
    }
  }

  /** An email the setters leave alone: trimmed and lower-case. */
  predicate IsNormalEmail(s: string) {
    IsTrimmed(s) && IsLowerCase(s)
  }

  /** The setters always produce a normal email, and a normal email is their fixpoint. */
  lemma EmailSetterNormalises(email: string)
    ensures IsNormalEmail(EmailSetter(email))
    ensures IsNormalEmail(email) ==> EmailSetter(email) == email
  {
    ToLowerCaseNormalises(Trim(email));
    if IsNormalEmail(email) {
      TrimmedIsFixpoint(email);
      LowerCaseIsFixpoint(email);
    }
  }

  /** The setters of the `email` path, in schema order: trim, then lowercase. */
  function EmailSetter(email: string): string {
    ToLowerCase(Trim(email))
  }

  /**
   * `encryptPassword(password)` under `salt`: "" for an empty password or when
   * `pbkdf2Sync` throws, otherwise the hex form of the derived key.
   */
  function EncryptPassword(pbkdf2: Pbkdf2, salt: string, password: string): (h: string)
    ensures password == "" || pbkdf2(password, salt).None? ==> h == ""
    ensures password != "" && pbkdf2(password, salt).Some? ==>
      |h| == 2 * |pbkdf2(password, salt).value| &&
      (forall i :: 0 <= i < |h| ==> IsHexDigit(h[i])) &&
      HexDecode(h) == pbkdf2(password, salt).value
  {
    if password == "" then ""
    else match pbkdf2(password, salt)
      case None => ""
      case Some(key) => HexRoundTrip(key); HexEncode(key)
  }

  /**
   * The `match` of the `email` path, `/\S+@\S+\.\S+/`, unanchored: somewhere in `s` an `@`
   * preceded by a non-space, then one or more non-spaces, a `.`, and a non-space.
   */
  predicate MatchesEmailPattern(s: string)
    ensures MatchesEmailPattern(s) ==> |s| >= 5 && '@' in s && '.' in s
  {
    exists at, dot :: 0 <= at < dot < |s| && EmailShapeAt(s, at, dot)
  }

  /** `s[at]` is the `@` and `s[dot]` the `.` of a match of the email pattern. */
  predicate EmailShapeAt(s: string, at: int, dot: int)
    requires 0 <= at < dot < |s|
  {
    1 <= at && at + 2 <= dot && dot + 1 < |s| &&
    s[at] == '@' && s[dot] == '.' &&
    !IsWhitespace(s[at - 1]) && !IsWhitespace(s[dot + 1]) &&
    forall k :: at < k < dot ==> !IsWhitespace(s[k])
  }

  /** The schema's validators all pass (the unique index aside). */
  predicate Persistable(a: Account) {
    && a.name != ""
    && a.email != ""
    && MatchesEmailPattern(a.email)
    && |a.hashedPassword| >= 6
  }

  const Required := "is required"
  const Invalid := "is invalid"
  const AlreadyTaken := "is already taken."

  function MinLengthMessage(value: string): string {
    "Path `hashed_password` (`" + value + "`) is shorter than the minimum allowed length (6)."
  }

  /**
   * Mongoose validation of a document: per path, in schema order, the first failing
   * validator. `taken` says whether another document already has this email (the
   * mongoose-unique-validator plugin, which reports 'is already taken.').
   */
  function ValidationErrors(a: Account, taken: bool): (errs: seq<FieldError>)
    ensures errs == [] <==> Persistable(a) && !taken
    ensures forall e :: e in errs ==> e.message != ""
  {
    var name := NameFieldErrors(a.name);
    var email := EmailFieldErrors(a.email, taken);
    var hash := HashFieldErrors(a.hashedPassword);
    assert |name + email + hash| == |name| + |email| + |hash|;
    name + email + hash
  }

  /** `name`: required. */
  function NameFieldErrors(name: string): (errs: seq<FieldError>)
    ensures errs == [] <==> name != ""
    ensures forall e :: e in errs ==> e.message != ""
  {
    if name == "" then [FieldError("name", Required)] else []
  }

  /** `email`: required, then the pattern, then the unique-validator plugin. */
  function EmailFieldErrors(email: string, taken: bool): (errs: seq<FieldError>)
    ensures errs == [] <==> email != "" && MatchesEmailPattern(email) && !taken
    ensures forall e :: e in errs ==> e.message != ""
  {
    if email == "" then [FieldError("email", Required)]
    else if !MatchesEmailPattern(email) then [FieldError("email", Invalid)]
    else if taken then [FieldError("email", AlreadyTaken)]
    else []
  }

  /** `hashed_password`: required, then `minlength: 6`. */
  function HashFieldErrors(hash: string): (errs: seq<FieldError>)
    ensures errs == [] <==> |hash| >= 6
    ensures forall e :: e in errs ==> e.message != ""
  {
    if hash == "" then [FieldError("hashed_password", Required)]
    else if |hash| < 6 then [FieldError("hashed_password", MinLengthMessage(hash))]
    else []
  }

  /** The error `save()` rejects with when validation fails. */
  function ValidationFailed(errs: seq<FieldError>): DbError {
    DbError(0, "User validation failed", errs)
  }

  /** The account `new User({ name, email, password, isActive })` builds, with the salt `makeSalt` drew. */
  function NewAccount(id: nat, name: string, email: string, password: string, salt: string,
                      isActive: bool, pbkdf2: Pbkdf2): Account
  {
    Account(id, Trim(name), EmailSetter(email), EncryptPassword(pbkdf2, salt, password), salt,
            DefaultRole, isActive, NoLink)
  }

  /** An account after its `password` setter ran with a given salt: only the salt and the hash change. */
  function Rehashed(a: Account, pbkdf2: Pbkdf2, salt: string, password: string): (b: Account)
    ensures b.ValidPassword(pbkdf2, password)
    ensures b == a.(salt := salt, hashedPassword := b.hashedPassword)
  {
    a.(salt := salt, hashedPassword := EncryptPassword(pbkdf2, salt, password))
  }

  /** The form every stored account has: trimmed name, normalised email, all validators passed. */
  predicate InStoredForm(a: Account) {
    Persistable(a) && IsTrimmed(a.name) && IsNormalEmail(a.email)
  }

  /** An empty password never authenticates a persisted user: it encrypts to "", which is too short to be stored. */
  lemma EmptyPasswordNeverValid(a: Account, pbkdf2: Pbkdf2)
    requires Persistable(a)
    ensures !a.ValidPassword(pbkdf2, "")
  {
  }

  /**
   * If the key derivation does not collide on two passwords under an account's salt, the
   * account accepts at most one of them.
   */
  lemma OtherPasswordRejected(a: Account, pbkdf2: Pbkdf2, password: string, other: string)
    requires a.ValidPassword(pbkdf2, password) && a.hashedPassword != ""
    requires pbkdf2(other, a.salt) != pbkdf2(password, a.salt)
    ensures !a.ValidPassword(pbkdf2, other)
  {
  }

  /** A Mongoose `User` document in memory. */
  class UserDocument {
    var id: nat
    var name: string
    var email: string
    var hashedPassword: string
    var salt: string
    var role: string
    var isActive: bool
    var resetPasswordLink: Token
    /** `_password`, the value behind the `password` virtual; never persisted. */
    var password: string
    /** Mongoose's `isNew`: not saved yet. */
    var isNew: bool
    const pbkdf2: Pbkdf2

    /** The stored form of this document. */
    function Snapshot(): Account
      reads this
    {
      Account(id, name, email, hashedPassword, salt, role, isActive, resetPasswordLink)
    }

    /**
     * `new User({ name, email, password, isActive })`: defaults for role and link, the
     * trim and lowercase setters, then the `password` setter with a fresh salt.
     */
    constructor (id: nat, name: string, email: string, password: string, random: seq<byte>,
                 isActive: bool, pbkdf2: Pbkdf2)
      requires |random| == 16
      ensures Snapshot() == NewAccount(id, name, email, password, MakeSalt(random), isActive, pbkdf2)
      ensures this.password == password && isNew && this.pbkdf2 == pbkdf2
      ensures Snapshot().ValidPassword(pbkdf2, password)
    {
      var salt := MakeSalt(random);
      this.id, this.role, this.resetPasswordLink := id, DefaultRole, NoLink;
      this.name, this.email, this.isActive := Trim(name), EmailSetter(email), isActive;
      this.isNew, this.pbkdf2 := true, pbkdf2;
      // the `password` setter, as SetPassword below performs it
      this.password, this.salt := password, salt;
      this.hashedPassword := EncryptPassword(pbkdf2, salt, password);
    }

    /** The document `findOne` hands back for a stored account. */
    constructor FromAccount(a: Account, pbkdf2: Pbkdf2)
      ensures Snapshot() == a && !isNew && password == "" && this.pbkdf2 == pbkdf2
    {
      id, name, email, hashedPassword := a.id, a.name, a.email, a.hashedPassword;
      salt, role, isActive, resetPasswordLink := a.salt, a.role, a.isActive, a.resetPasswordLink;
      password, isNew, this.pbkdf2 := "", false, pbkdf2;
    }

    /**
     * The `password` setter: remembers the plain value, draws a fresh salt and replaces
     * the hash; setting a password and then checking it succeeds.
     */
    method SetPassword(password: string, random: seq<byte>)
      requires |random| == 16
      modifies this
      ensures this.password == password && isNew == old(isNew)
      ensures Snapshot() == Rehashed(old(Snapshot()), pbkdf2, MakeSalt(random), password)
      ensures Snapshot().ValidPassword(pbkdf2, password)
    {
      this.password := password;
      salt := MakeSalt(random);
      hashedPassword := EncryptPassword(pbkdf2, salt, password);
    }
  }

  /** Which key holds a given reset link, if any. */
  ghost function LinkHolder(docs: map<string, Account>, link: Token): (holder: Option<string>)
    ensures holder.Some? ==> holder.value in docs && docs[holder.value].resetPasswordLink == link
    ensures holder.None? ==> forall e :: e in docs ==> docs[e].resetPasswordLink != link
  {
    if exists e :: e in docs && docs[e].resetPasswordLink == link then
      Some(var e :| e in docs && docs[e].resetPasswordLink == link; e)
    else None
  }

  /** No two stored accounts share an object id. */
  ghost predicate IdsDistinct(docs: map<string, Account>) {
    forall e1, e2 :: e1 in docs && e2 in docs && e1 != e2 ==> docs[e1].id != docs[e2].id
  }

  /**
   * The collection's invariant: every account is stored under its own email, has an id
   * below `nextId` and is in stored form; ids are distinct.
   */
  ghost predicate StoreInvariant(docs: map<string, Account>, nextId: nat) {
    && (forall e :: e in docs ==> docs[e].email == e && docs[e].id < nextId && InStoredForm(docs[e]))
    && IdsDistinct(docs)
  }

  /** Writing an account in stored form under its email keeps the invariant, if its id is its own or new. */
  lemma StorePut(docs: map<string, Account>, nextId: nat, a: Account, nextId': nat)
    requires StoreInvariant(docs, nextId) && InStoredForm(a) && nextId <= nextId' && a.id < nextId'
    requires a.email in docs ==> docs[a.email].id == a.id
    requires a.email !in docs ==> a.id == nextId
    ensures StoreInvariant(docs[a.email := a], nextId')
  {
    var d := docs[a.email := a];
    forall e1, e2 | e1 in d && e2 in d && e1 != e2
      ensures d[e1].id != d[e2].id
    {
      if e1 != a.email && e2 != a.email {
        assert d[e1] == docs[e1] && d[e2] == docs[e2];
      }
    }
  }

  /** The `users` collection. */
  class UserStore {
    var docs: map<string, Account>
    /** The next object id to hand out; every stored id is below it. */
    var nextId: nat

    ghost predicate Valid()
      reads this
    {
      StoreInvariant(docs, nextId)
    }

    constructor ()
      ensures Valid() && docs == map[] && nextId == 0
    {
      docs, nextId := map[], 0;
    }

    /**
     * `User.findOne({ email })`. The query value goes through the path's setters first, so
     * a found account's email is the query's normalised form, and it is in stored form.
     */
    function FindOne(email: string): (r: Option<Account>)
      reads this
      ensures r.Some? <==> EmailSetter(email) in docs
      ensures r.Some? ==> r.value == docs[EmailSetter(email)]
      ensures Valid() && r.Some? ==> r.value.email == EmailSetter(email) && InStoredForm(r.value)
    {
      var key := EmailSetter(email);
      if key in docs then Some(docs[key]) else None
    }

    /** Another document already uses this email. */
    function Taken(email: string, id: nat): bool
      reads this
    {
      email in docs && docs[email].id != id
    }

    /**
     * `doc.save()`: validates, then inserts a new document or overwrites the stored one;
     * on a validation error nothing is written.
     */
    method Save(doc: UserDocument) returns (r: Result<(), DbError>)
      requires Valid()
      requires doc.isNew ==> doc.id == nextId
      requires !doc.isNew ==> doc.email in docs && docs[doc.email].id == doc.id
      requires IsTrimmed(doc.name) && IsNormalEmail(doc.email)
      modifies this, doc`isNew
      ensures Valid()
      ensures doc.Snapshot() == old(doc.Snapshot())
      ensures r.Success? <==> ValidationErrors(doc.Snapshot(), old(Taken(doc.email, doc.id))) == []
      ensures r.Success? ==>
        && docs == old(docs)[doc.email := doc.Snapshot()]
        && nextId == (if old(doc.isNew) then old(nextId) + 1 else old(nextId))
        && !doc.isNew
      ensures r.Failure? ==>
        && r.error == ValidationFailed(ValidationErrors(doc.Snapshot(), old(Taken(doc.email, doc.id))))
        && docs == old(docs) && nextId == old(nextId) && doc.isNew == old(doc.isNew)
    {
      var errs := ValidationErrors(doc.Snapshot(), Taken(doc.email, doc.id));
      if errs != [] {
        return Failure(ValidationFailed(errs));
      }
      var a := doc.Snapshot();
      StorePut(docs, nextId, a, if doc.isNew then nextId + 1 else nextId);
      docs := docs[doc.email := a];
      if doc.isNew {
        nextId := nextId + 1;
        doc.isNew := false;
      }
      r := Success(());
    }

    /** `user.updateOne({ resetPasswordLink: link })`: writes that one path, without validation. */
    method UpdateResetPasswordLink(email: string, link: Token)
      requires Valid() && email in docs
      modifies this
      ensures Valid() && nextId == old(nextId)
      ensures docs == old(docs)[email := old(docs)[email].(resetPasswordLink := link)]
    {
      var a := docs[email];
      var b := a.(resetPasswordLink := link);
      docs := docs[email := b];
    }

    /** `User.findOne({ resetPasswordLink: link })`: some account holding that link, if any. */
    method FindByResetLink(link: Token) returns (r: Option<Account>)
      requires Valid()
      ensures r.Some? ==> r.value.email in docs && docs[r.value.email] == r.value && r.value.resetPasswordLink == link
      ensures r.None? <==> LinkHolder(docs, link).None?
    {
      if e :| e in docs && docs[e].resetPasswordLink == link {
        r := Some(docs[e]);
      } else {
        r := None;
      }
    }

    /** `User.deleteMany({ isActive: active })`: removes exactly the accounts with that flag. */
    method DeleteMany(active: bool)
      requires Valid()
      modifies this
      ensures Valid() && nextId == old(nextId)
      ensures forall e :: e in docs <==> e in old(docs) && old(docs)[e].isActive != active
      ensures forall e :: e in docs ==> docs[e] == old(docs)[e]
    {
      docs := map e | e in docs && docs[e].isActive != active :: docs[e];
    }
  }
}
