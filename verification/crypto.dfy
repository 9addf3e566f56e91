/** Token signing and password hashing, with the libraries (jsonwebtoken, ms, bcrypt) left abstract.

    The primitives are a value of `Primitives`, supplied from outside; `Lawful` states the only facts about
    them the backend relies on. Nothing else about the cryptography is assumed. */
module Crypto {
  import opened Outcomes

  /** A user document's id. Ids are handed out in insertion order, so their order is the store's natural order. */
  type UserId = nat
  /** A signed token, as the string jsonwebtoken produces. */
  type Token = string
  /** A signing secret; "" stands for an unset environment variable. */
  type Secret = string
  /** A bcrypt hash string. */
  type Hash = string
  /** The random salt bcrypt draws for each hash. */
  type Salt = nat

  /** The payload of every token: `{ id }`, plus the `iat` (issued at) and `exp` (expires at) seconds jsonwebtoken adds. */
  datatype Claims = Claims(id: UserId, iat: int, exp: int)

  /** What checking a token's signature yields. */
  datatype Verdict = Valid(claims: Claims) | Invalid(reason: string)

  datatype Primitives = Primitives(
    /** HMAC-sign a payload under a secret. */
    sign: (Secret, Claims) -> Token,
    /** Check a token's signature under a secret and decode its payload. */
    verify: (Secret, Token) -> Verdict,
    /** The `ms` reading of an `expiresIn` string, in seconds; `None` when the string is not a time span.
        A negative span ("-1h") is a valid reading: the token is signed already expired. */
    span: string -> Option<int>,
    /** `bcrypt.hash(password, salt)` */
    hash: (string, Salt) -> Hash,
    /** `bcrypt.compare(password, hash)` */
    compare: (string, Hash) -> bool)

  /** The laws the backend relies on. */
  ghost predicate Lawful(p: Primitives) {
    // a token verifies, under the secret it was signed with, to the payload it was signed with
    && (forall s, cl :: p.verify(s, p.sign(s, cl)) == Valid(cl))
    // ... and under no other secret
    && (forall s, s', cl :: s != s' ==> p.verify(s', p.sign(s, cl)).Invalid?)
    // a signed token is never the empty string
    && (forall s, cl :: p.sign(s, cl) != [])
    // a password matches every hash made from it
    && (forall pw, salt :: p.compare(pw, p.hash(pw, salt)))
    // a hash is never the empty string
    && (forall pw, salt :: p.hash(pw, salt) != [])
    // the default lifetimes: 15 minutes and 7 days
    && p.span("15m") == Some(900)
    && p.span("7d") == Some(7 * 24 * 3600)
  }

  /** `jwt.sign({ id }, secret, { expiresIn })` at time `now`; `None` where jsonwebtoken throws
      (no secret, or an `expiresIn` that is not a time span). */
  function Sign(p: Primitives, secret: Secret, id: UserId, expiresIn: string, now: int): (r: Option<Token>)
    ensures r.Some? <==> secret != "" && p.span(expiresIn).Some?
  {
    if secret == "" then None
    else match p.span(expiresIn)
      case None => None
      case Some(d) => Some(p.sign(secret, Claims(id, now, now + d)))
  }

  /** `jwt.verify(token, secret)` at time `now`: the signature must check and `now` must be before `exp`. */
  function Verify(p: Primitives, secret: Secret, token: Token, now: int): (v: Verdict)
    ensures v.Valid? ==> secret != "" && p.verify(secret, token) == v && now < v.claims.exp
  {
    if secret == "" then Invalid("secret or public key must be provided")
    else match p.verify(secret, token)
      case Invalid(reason) => Invalid(reason)
      case Valid(cl) => if now >= cl.exp then Invalid("jwt expired") else Valid(cl)
  }

  // ---------------------------------------------------------------------------
  // Properties

  /** A token verifies, until it expires, to the id it was signed for, with the issue and expiry times of its signing. */
  lemma SignVerifyRoundTrip(p: Primitives, secret: Secret, id: UserId, expiresIn: string, now: int, later: int)
    requires Lawful(p)
    requires Sign(p, secret, id, expiresIn, now).Some?
    requires later < now + p.span(expiresIn).value
    ensures Verify(p, secret, Sign(p, secret, id, expiresIn, now).value, later)
         == Valid(Claims(id, now, now + p.span(expiresIn).value))
  {
  }

  /** Once its lifetime has elapsed, a token no longer verifies. */
  lemma ExpiredTokenRejected(p: Primitives, secret: Secret, id: UserId, expiresIn: string, now: int, later: int)
    requires Lawful(p)
    requires Sign(p, secret, id, expiresIn, now).Some?
    requires later >= now + p.span(expiresIn).value
    ensures Verify(p, secret, Sign(p, secret, id, expiresIn, now).value, later).Invalid?
  {
  }

  /** A token signed under one secret never verifies under another. */
  lemma OtherSecretRejected(p: Primitives, secret: Secret, other: Secret, id: UserId, expiresIn: string, now: int, later: int)
    requires Lawful(p)
    requires secret != other
    requires Sign(p, secret, id, expiresIn, now).Some?
    ensures Verify(p, other, Sign(p, secret, id, expiresIn, now).value, later).Invalid?
  {
  }
}
