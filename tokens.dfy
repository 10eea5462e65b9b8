/**
 * Token issue and verification. `jwt.sign` is modelled by a free datatype that
 * records what was signed, with which key, when and for how long; `jwt.verify`
 * by the outcome that the library reports for such a token.
 */
module Tokens {
  import opened Common

  /** The two secrets read from the process environment. */
  datatype Env = Env(jwtSecret: Option<string>, jwtSecretAdmin: Option<string>)

  /** The signed payload `{ id, email, rol }`. */
  datatype Claims = Claims(id: int, email: string, rol: string)

  /** A signed token: payload, signing key, issue time and lifetime (seconds). */
  datatype Jwt = Jwt(claims: Claims, key: string, issuedAt: int, ttl: nat)

  /** What `jwt.verify` reports, as the guards see it. */
  datatype VerifyOutcome =
    | Verified(id: int)
    | Malformed       // JsonWebTokenError
    | Expired         // TokenExpiredError
    | OtherFailure    // any other exception

  const AdminTtl: nat := 24 * 60 * 60         // '24h'
  const CustomerTtl: nat := 7 * 24 * 60 * 60  // '7d'

  /** The key `generarToken` signs with, and the one each guard verifies with. */
  function SigningSecret(env: Env, esAdmin: bool): (s: Option<string>)
    ensures !esAdmin ==> s == env.jwtSecret
    ensures esAdmin && Present(env.jwtSecretAdmin) ==> s == env.jwtSecretAdmin
    ensures esAdmin && !Present(env.jwtSecretAdmin) ==> s == env.jwtSecret
  {
    if esAdmin then OrElse(env.jwtSecretAdmin, env.jwtSecret) else env.jwtSecret
  }

  /** `generarToken(payload, esAdmin)`: `jwt.sign` refuses an empty or missing key. */
  function GenerarToken(payload: Claims, esAdmin: bool, env: Env, now: int): (r: Result<Jwt, string>)
    ensures r.Ok? <==> Present(SigningSecret(env, esAdmin))
    ensures r.Ok? ==> r.value.claims == payload && r.value.issuedAt == now
    ensures r.Ok? ==> r.value.key == SigningSecret(env, esAdmin).value
    ensures r.Ok? ==> r.value.ttl == (if esAdmin then AdminTtl else CustomerTtl)
  {
    var secret := SigningSecret(env, esAdmin);
    if !Present(secret) then Err("secretOrPrivateKey must have a value")
    else Ok(Jwt(payload, secret.value, now, if esAdmin then AdminTtl else CustomerTtl))
  }

  /** `jwt.verify(token, key)` at time `now`: a wrong or missing key is malformed, a lapsed token expired. */
  function Verify(t: Jwt, key: Option<string>, now: int): (o: VerifyOutcome)
    ensures o.Verified? <==> Present(key) && key.value == t.key && now < t.issuedAt + t.ttl
    ensures o.Verified? ==> o.id == t.claims.id
    ensures o != OtherFailure
  {
    if !Present(key) || key.value != t.key then Malformed
    else if now >= t.issuedAt + t.ttl then Expired
    else Verified(t.claims.id)
  }

  /** A freshly issued token verifies under the same environment until its lifetime ends, then expires. */
  lemma IssueThenVerify(payload: Claims, esAdmin: bool, env: Env, now: int, later: int)
    requires GenerarToken(payload, esAdmin, env, now).Ok?
    ensures var t := GenerarToken(payload, esAdmin, env, now).value;
      Verify(t, SigningSecret(env, esAdmin), later)
        == if later < now + t.ttl then Verified(payload.id) else Expired
  {
  }

  /** A token with a one-second lifetime, verified two seconds later, is expired. */
  lemma OneSecondTokenExpires(c: Claims, key: string, now: int)
    requires key != ""
    ensures Verify(Jwt(c, key, now, 1), Some(key), now + 2) == Expired
  {
  }

  /**
   * Isolation of the two token kinds: an admin token passes the customer
   * guard's verification exactly when the admin key falls back to, or equals,
   * the shared secret.
   */
  lemma AdminTokenUnderCustomerKey(payload: Claims, env: Env, now: int)
    requires GenerarToken(payload, true, env, now).Ok?
    ensures Verify(GenerarToken(payload, true, env, now).value, SigningSecret(env, false), now).Verified?
        <==> (!Present(env.jwtSecretAdmin) || env.jwtSecretAdmin == env.jwtSecret)
  {
  }
}
