/** The session token and password hashing, kept abstract. `jwt.sign` /
    `jwt.verify` (a JSON Web Token, RFC 7519) and `bcrypt.hash` /
    `bcrypt.compare` are functions the model does not look inside; all it
    relies on is stated by the `Sound` predicates. */
module Tokens {
  import opened Json

  /** The claims the login route signs: `{ userId, username }`. A token signed
      elsewhere may lack either claim, which `None` stands for. */
  datatype Claims = Claims(userId: Option<string>, username: Option<string>)

  /** What `jwt.verify` hands back: the claims plus the registered `iat` and
      `exp` claims (section 4.1 of RFC 7519), both in seconds. */
  datatype Decoded = Decoded(claims: Claims, iat: nat, exp: nat)

  /** `expiresIn: "1h"` in seconds. */
  const TokenLifetimeSeconds: nat := 3600

  /** The cookie's `maxAge`, in milliseconds. */
  const CookieMaxAgeMs: nat := 3600000

  /** The clock is `Date.now()`, in milliseconds; JWT times are whole
      seconds, rounded down. */
  function Seconds(nowMs: nat): nat
  {
    nowMs / 1000
  }

  /** `sign(claims, secret, iatSeconds)` and `verify(token, secret, nowMs)`;
      `verify` answers `None` where the library throws. */
  datatype Jwt = Jwt(
    sign: (Claims, string, nat) -> string,
    verify: (string, string, nat) -> Option<Decoded>)

  /** The one property of the token library the routers depend on: a token
      signed with a secret verifies under that same secret to its claims,
      with `exp = iat + 3600`, until the clock reaches `exp`, and is refused
      from then on (the library's `exp <= now` check). A signed token is
      never the empty string. Tokens signed with another secret, or forged,
      are left unconstrained. */
  ghost predicate Sound(jwt: Jwt)
  {
    && (forall c: Claims, key: string, iat: nat {:trigger jwt.sign(c, key, iat)} :: jwt.sign(c, key, iat) != "")
    && forall c: Claims, key: string, iat: nat, nowMs: nat {:trigger jwt.verify(jwt.sign(c, key, iat), key, nowMs)} ::
      jwt.verify(jwt.sign(c, key, iat), key, nowMs)
        == if Seconds(nowMs) < iat + TokenLifetimeSeconds
           then Some(Decoded(c, iat, iat + TokenLifetimeSeconds))
           else None
  }

  /** `hash(password, salt)` and `compare(password, hash)`; the salt is the
      random part of `bcrypt.hash(password, 10)`. */
  datatype Bcrypt = Bcrypt(
    hash: (string, nat) -> string,
    compare: (string, string) -> bool)

  /** A stored hash always matches the password it was made from. */
  ghost predicate HashSound(bcrypt: Bcrypt)
  {
    forall password: string, salt: nat {:trigger bcrypt.hash(password, salt)} ::
      bcrypt.compare(password, bcrypt.hash(password, salt))
  }

  /** The instant (in ms) at which a token issued at `nowMs` stops verifying. */
  function TokenExpiryMs(nowMs: nat): (t: nat)
    ensures nowMs < t
  {
    (Seconds(nowMs) + TokenLifetimeSeconds) * 1000
  }

  /** The instant (in ms) at which the browser drops the cookie set at `nowMs`. */
  function CookieExpiryMs(nowMs: nat): nat
  {
    nowMs + CookieMaxAgeMs
  }

  /** "1h" and `maxAge: 3600000` are the same hour: the token dies no later
      than its cookie, and less than a second before it (the token's issue
      time is rounded down to the second). */
  lemma TokenAndCookieLifetimesAgree(nowMs: nat)
    ensures TokenLifetimeSeconds * 1000 == CookieMaxAgeMs
    ensures CookieExpiryMs(nowMs) - 1000 < TokenExpiryMs(nowMs) <= CookieExpiryMs(nowMs)
  {
  }
}
