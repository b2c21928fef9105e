/**
 * The JWT minting the token service relies on. Signing and its secrets are
 * abstract: an Issuer signs a claim set for the access token and for the
 * refresh token, and `decode` reads the claims back without checking the
 * signature, as jwt-decode does.
 */
module Jwt {
  import opened Wrappers

  /** The payload of both tokens: subject id, email, issue time and expiry (seconds). */
  datatype Claims = Claims(sub: nat, email: string, iat: nat, exp: nat)

  datatype Tokens = Tokens(jwtAccessToken: string, jwtRefreshToken: string)

  datatype Issuer = Issuer(
    signAccess: Claims -> string,
    signRefresh: Claims -> string,
    decode: string -> Option<Claims>,
    accessTtl: nat,
    refreshTtl: nat)
  {
    /** Decoding a signed token gives back its claims, and an access token
        expires before a refresh token issued at the same time. */
    ghost predicate Sound() {
      && accessTtl < refreshTtl
      && (forall c :: decode(signAccess(c)) == Some(c))
      && (forall c :: decode(signRefresh(c)) == Some(c))
    }
  }

  /** getTokens(id, email) at wall-clock second `now`: both tokens carry the
      user's own id and email and the issue time. */
  function GetTokens(j: Issuer, id: nat, email: string, now: nat): (t: Tokens)
    ensures j.Sound() ==> j.decode(t.jwtAccessToken) == Some(Claims(id, email, now, now + j.accessTtl))
    ensures j.Sound() ==> j.decode(t.jwtRefreshToken) == Some(Claims(id, email, now, now + j.refreshTtl))
  {
    Tokens(j.signAccess(Claims(id, email, now, now + j.accessTtl)),
           j.signRefresh(Claims(id, email, now, now + j.refreshTtl)))
  }

  /** Tokens minted for a different user or in a different second differ in
      both halves; this is why a rotation one second or more after issuance
      never hands back the old pair. */
  lemma FreshTokens(j: Issuer, id: nat, email: string, now: nat, id': nat, email': string, now': nat)
    requires j.Sound()
    requires (id, email, now) != (id', email', now')
    ensures GetTokens(j, id, email, now).jwtAccessToken != GetTokens(j, id', email', now').jwtAccessToken
    ensures GetTokens(j, id, email, now).jwtRefreshToken != GetTokens(j, id', email', now').jwtRefreshToken
  {
    var t, t' := GetTokens(j, id, email, now), GetTokens(j, id', email', now');
    assert j.decode(t.jwtAccessToken) != j.decode(t'.jwtAccessToken);
    assert j.decode(t.jwtRefreshToken) != j.decode(t'.jwtRefreshToken);
  }

  /** The two halves of one pair differ: a refresh token is never the access token. */
  lemma AccessIsNotRefresh(j: Issuer, id: nat, email: string, now: nat)
    requires j.Sound()
    ensures GetTokens(j, id, email, now).jwtAccessToken != GetTokens(j, id, email, now).jwtRefreshToken
  {
    var t := GetTokens(j, id, email, now);
    assert j.decode(t.jwtAccessToken).value.exp != j.decode(t.jwtRefreshToken).value.exp;
  }
}
