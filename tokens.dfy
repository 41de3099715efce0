/**
 * JSON Web Tokens (RFC 7519) as the package uses them through `jsonwebtoken`.
 * Signing and the HMAC check are abstract: a token carries a flag saying whether its
 * signature checks out against the configured secret. Time is a parameter, in seconds.
 */
module Tokens {
  import opened Js

  type UserId = nat

  const Hour: nat := 3600
  const Day: nat := 24 * Hour

  /** `expiresIn: "7d"` of the session token. */
  const SessionTtl: nat := 7 * Day
  /** `expiresIn: "24h"` of the email-verification token. */
  const VerificationTtl: nat := 24 * Hour
  /** `expiresIn: "1h"` of the password-reset token. */
  const ResetTtl: nat := Hour

  const EmailVerificationPurpose := "email_verification"
  const PasswordResetPurpose := "password_reset"

  /** The payload claims the package writes; a claim that is not written is `None`. */
  datatype Claims = Claims(
    id: UserId,
    purpose: Option<string>,
    email: Option<string>,
    role: Option<string>,
    isVerified: Option<bool>)

  /** A token as `jwt.verify` sees it: whether the signature checks, what it claims, when it expires. */
  datatype Jwt = Jwt(sigOk: bool, claims: Claims, exp: nat)

  /** `JsonWebTokenError` (bad signature, malformed token) and `TokenExpiredError`. */
  datatype JwtError = InvalidSignature | Expired

  /**
   * `jwt.verify(token, secret)`: the signature is checked first, then the expiry.
   * Section 4.1.4 of RFC 7519: the token must not be accepted on or after `exp`.
   */
  function Verify(t: Jwt, now: nat): (r: Result<Claims, JwtError>)
    ensures r.Ok? <==> t.sigOk && now < t.exp
    ensures r.Ok? ==> r.value == t.claims
    ensures !t.sigOk ==> r == Err(InvalidSignature)
    ensures t.sigOk && t.exp <= now ==> r == Err(Expired)
  {
    if !t.sigOk then Err(InvalidSignature)
    else if t.exp <= now then Err(Expired)
    else Ok(t.claims)
  }

  /** `jwt.sign(claims, secret, { expiresIn: ttl })` at time `now`. */
  function Sign(claims: Claims, now: nat, ttl: nat): (t: Jwt)
    ensures forall later: nat :: Verify(t, later).Ok? <==> later < now + ttl
    ensures forall later: nat :: Verify(t, later).Ok? ==> Verify(t, later).value == claims
  {
    Jwt(true, claims, now + ttl)
  }
}
