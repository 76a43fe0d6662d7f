/** The JSON Web Token collaborator (@nestjs/jwt), as a symbolic primitive.

    A token is either a signed claim set or text that does not decode. A
    signed token carries the key it was signed with: only a holder of that key
    can build one, and verification compares keys instead of checking an HMAC.
    `iat` and `exp` are the registered claims of RFC 7519, sections 4.1.6 and
    4.1.4, in whole seconds. */
module Jwt {
  import opened Common

  /** `expiresIn: '5m'`, `'1h'` and `'30d'`, in seconds. */
  const ChallengeTtl: nat := 5 * 60
  const AccessTtl: nat := 60 * 60
  const RefreshTtl: nat := 30 * 24 * 60 * 60

  /** The payload: `sub` (RFC 7519, section 4.1.2), the firm, and the
      optional `type` tag ('2fa', 'refresh', or absent for an access token). */
  datatype Claims = Claims(sub: nat, firmId: nat, tag: Option<string>)

  datatype Token =
    | Signed(claims: Claims, key: string, iat: nat, exp: nat)
    | Malformed(text: string)

  /** `jwt.verify(token, {secret})` at time `now`: the payload, or None where
      the library throws (bad encoding, wrong key, or `now >= exp`). */
  function Verify(t: Token, key: string, now: nat): (r: Option<Claims>)
    ensures r.Some? <==> t.Signed? && t.key == key && now < t.exp
    ensures r.Some? ==> r.value == t.claims
  {
    match t
    case Malformed(_) => None
    case Signed(claims, k, _, exp) => if k == key && now < exp then Some(claims) else None
  }

  /** `jwt.sign(claims, {secret: key, expiresIn: ttl})` at time `now`. The
      token verifies under `key`, and under no other key, for exactly `ttl`
      seconds from `now`, and then yields the claims it was signed with. */
  function Sign(claims: Claims, key: string, ttl: nat, now: nat): (t: Token)
    ensures forall k: string, later: nat ::
      Verify(t, k, later) == (if k == key && later < now + ttl then Some(claims) else None)
  {
    Signed(claims, key, now, now + ttl)
  }

  /** A token signed with `ttl` is still accepted one second before its
      expiry and no longer at it. */
  lemma ExpiryBoundary(claims: Claims, key: string, ttl: nat, now: nat)
    requires ttl > 0
    ensures Verify(Sign(claims, key, ttl, now), key, now + ttl - 1) == Some(claims)
    ensures Verify(Sign(claims, key, ttl, now), key, now + ttl) == None
  {
  }
}
