/**
 * The signed access token the controller issues on a successful login: a
 * JSON Web Token (RFC 7519) signed with HMAC using SHA-256 (RFC 7518,
 * section 3.2). Serialisation and the MAC itself belong to a library and
 * are abstract here: the signature is a parameter function of the signing
 * key, the algorithm and the claims.
 */
module Jwt {
  import opened Wrappers

  /** Seconds in a day; times are counted in whole seconds. */
  const SecondsPerDay: int := 86400

  /** Days a token stays valid after it is issued. */
  const LifetimeDays: int := 7

  /** The validity window of a token, in seconds. */
  const Lifetime: int := LifetimeDays * SecondsPerDay

  /** The "alg" header value for HMAC-SHA-256 (RFC 7518, section 3.1). */
  const HmacSha256: string := "HS256"

  /** The two identity claims and the expiry ("exp") claim. */
  datatype Claims = Claims(nameIdentifier: string, name: string, expires: int)

  /** A signed token: header algorithm, claims and the signature over them. */
  datatype Token = Token(alg: string, claims: Claims, signature: seq<bv8>)

  /** The MAC over the encoded header and claims under a key. */
  type Signer = (string, string, Claims) -> seq<bv8>

  /** The `JwtSettings:Secret` configuration entry, absent or present. */
  datatype JwtSettings = JwtSettings(secret: Option<string>)

  /** Why a token could not be issued (an exception in the source). */
  datatype IssueError = MissingSecret | EmptyKey

  /** The key a token is signed with, when the configuration yields one. */
  predicate HasSigningKey(settings: JwtSettings)
  {
    settings.secret.Some? && settings.secret.value != ""
  }

  /** `token` carries the signature `sign` computes over it with `key`. */
  predicate IsSignedWith(token: Token, sign: Signer, key: string)
  {
    token.alg == HmacSha256 && token.signature == sign(key, token.alg, token.claims)
  }

  /**
   * A token has expired at time `at` once `at` is no longer before its
   * "exp" claim (RFC 7519, section 4.1.4).
   */
  predicate IsExpired(token: Token, at: int)
  {
    at >= token.claims.expires
  }

  /**
   * A token that expires `Lifetime` seconds after `issuedAt` is live at
   * every moment of its window and expired from its end on; in particular
   * it is expired one second after the seven days.
   */
  lemma LifetimeWindow(token: Token, issuedAt: int, at: int)
    requires token.claims.expires == issuedAt + Lifetime
    ensures !IsExpired(token, at) <==> at < issuedAt + 7 * 86400
    ensures IsExpired(token, issuedAt + Lifetime + 1)
  {
  }

  /**
   * Changing a signed token's claims without recomputing the signature
   * leaves it signed only if the MAC collides on the two claim sets.
   */
  lemma TamperedClaimsNeedCollision(token: Token, sign: Signer, key: string, forged: Claims)
    requires IsSignedWith(token, sign, key)
    requires IsSignedWith(token.(claims := forged), sign, key)
    ensures sign(key, HmacSha256, forged) == sign(key, HmacSha256, token.claims)
  {
  }
}
