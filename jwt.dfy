/**
 * A model of the `jsonwebtoken` calls the controllers make. A token is either one this
 * server signed (its secret, its claims and its `exp`, in seconds) or any other text a
 * client may send. Signing is `jwt.sign(claims, secret, { expiresIn })`; verification
 * succeeds exactly when the secret matches and the clock has not reached `exp`.
 */
module Jwt {
  import opened Wrappers

  /** The claims the controllers put in a token; `name` only in activation tokens. */
  datatype Claims = Claims(userId: nat, name: Option<string>, email: string)

  datatype Token =
    | Signed(secret: string, claims: Claims, exp: int)
    | Text(raw: string)

  /** Why `jwt.verify` throws. */
  datatype VerifyError = Malformed | InvalidSignature | TokenExpired

  /** `expiresIn: '15m'` and `expiresIn: '1h'`, in seconds. */
  const FifteenMinutes: int := 15 * 60
  const OneHour: int := 60 * 60

  /** The three secrets read from the environment. */
  datatype Secrets = Secrets(activation: string, session: string, reset: string) {
    /** Every secret is set (`jwt.sign` throws on an empty one). */
    predicate Configured() {
      activation != "" && session != "" && reset != ""
    }
    /** Each purpose has its own secret. */
    predicate Separated() {
      activation != session && activation != reset && session != reset
    }
  }

  /**
   * `jwt.sign(claims, secret, { expiresIn: ttl })` at time `now`: the token verifies, to
   * its claims, exactly under `secret` and exactly until `ttl` seconds have passed.
   */
  function Sign(claims: Claims, secret: string, ttl: int, now: int): (t: Token)
    ensures t.Signed? && t.exp == now + ttl
    ensures forall key, at :: Verify(t, key, at).Success? <==> key == secret && at < now + ttl
    ensures forall key, at :: Verify(t, key, at).Success? ==> Verify(t, key, at).value == claims
  {
    Signed(secret, claims, now + ttl)
  }

  /** `jwt.verify(token, secret)` at time `now`: the signature is checked before the expiry. */
  function Verify(token: Token, secret: string, now: int): (r: Result<Claims, VerifyError>)
    ensures r.Success? <==> token.Signed? && token.secret == secret && now < token.exp
    ensures r.Success? ==> r.value == token.claims
  {
    match token
    case Text(_) => Failure(Malformed)
    case Signed(s, claims, exp) =>
      if s != secret then Failure(InvalidSignature)
      else if exp <= now then Failure(TokenExpired)
      else Success(claims)
  }

  /**
   * A token verifies under the secret it was signed with, and returns its claims, until
   * `ttl` seconds have passed; under any other secret it never verifies.
   */
  lemma SignThenVerify(claims: Claims, secret: string, ttl: int, issued: int, key: string, now: int)
    ensures Verify(Sign(claims, secret, ttl, issued), key, now) ==
      if key != secret then Failure(InvalidSignature)
      else if now < issued + ttl then Success(claims)
      else Failure(TokenExpired)
  {
  }

  /** With separated secrets, a token minted for one purpose is refused for the other two. */
  lemma PurposesDoNotMix(secrets: Secrets, claims: Claims, ttl: int, issued: int, now: int)
    requires secrets.Separated()
    ensures Verify(Sign(claims, secrets.activation, ttl, issued), secrets.session, now).Failure?
    ensures Verify(Sign(claims, secrets.activation, ttl, issued), secrets.reset, now).Failure?
    ensures Verify(Sign(claims, secrets.reset, ttl, issued), secrets.activation, now).Failure?
    ensures Verify(Sign(claims, secrets.reset, ttl, issued), secrets.session, now).Failure?
    ensures Verify(Sign(claims, secrets.session, ttl, issued), secrets.activation, now).Failure?
    ensures Verify(Sign(claims, secrets.session, ttl, issued), secrets.reset, now).Failure?
  {
  }
}
