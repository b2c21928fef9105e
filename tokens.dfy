/** TokensService: minting a pair, persisting its fingerprint, and rotation. */
module Tokens {
  import opened Wrappers
  import opened Hashing
  import opened Jwt
  import opened Store
  import Session

  class TokensService {
    const prisma: UserTable
    const argon2: Hasher
    const jwt: Issuer

    constructor (prisma: UserTable, argon2: Hasher, jwt: Issuer)
      ensures this.prisma == prisma && this.argon2 == argon2 && this.jwt == jwt
    {
      this.prisma := prisma;
      this.argon2 := argon2;
      this.jwt := jwt;
    }

    /** getTokens(id, email) at second `now`: a thin wrapper over the issuer.
        Both tokens name the user and the issue second, and the access token
        expires first. */
    method GetTokens(id: UserId, email: string, now: nat) returns (tokens: Tokens)
      ensures jwt.Sound() ==> jwt.decode(tokens.jwtAccessToken) == Some(Claims(id, email, now, now + jwt.accessTtl))
      ensures jwt.Sound() ==> jwt.decode(tokens.jwtRefreshToken) == Some(Claims(id, email, now, now + jwt.refreshTtl))
      ensures tokens == Jwt.GetTokens(jwt, id, email, now)
    {
      tokens := Jwt.GetTokens(jwt, id, email, now);
    }

    /** updateRefreshToken(id, refreshToken): store a fresh hash of the token. */
    method UpdateRefreshToken(id: UserId, refreshToken: string, salt: Salt) returns (r: Result<User, Error>)
      requires prisma.Valid()
      modifies prisma
      ensures prisma.Valid()
      ensures (r, prisma.State()) == Session.UpdateRefreshToken(old(prisma.State()), argon2, id, refreshToken, salt)
    {
      var fingerprint := argon2.hash(refreshToken, salt);
      if id !in prisma.users {
        r := Failure(Prisma(KnownRequest(RecordNotFound)));
        return;
      }
      var user := prisma.users[id].(hashedRefreshToken := Some(fingerprint));
      prisma.users := prisma.users[id := user];
      r := Success(user);
    }

    /** rotateRefreshTokens(userId, refreshToken): find the user, check the
        presented token against the fingerprint, then mint and persist a new pair. */
    method RotateRefreshTokens(id: UserId, refreshToken: string, salt: Salt, now: nat)
      returns (r: Result<Tokens, Error>)
      requires prisma.Valid()
      modifies prisma
      ensures prisma.Valid()
      ensures (r, prisma.State()) == Session.Rotate(old(prisma.State()), argon2, jwt, id, refreshToken, salt, now)
    {
      if id !in prisma.users {
        return Failure(Forbidden(Session.AccessDeniedMessage));
      }
      var user := prisma.users[id];
      if user.hashedRefreshToken.None? || !argon2.verify(user.hashedRefreshToken.value, refreshToken) {
        return Failure(Forbidden(Session.AccessDeniedMessage));
      }
      var tokens := GetTokens(id, user.email, now);
      var updated := UpdateRefreshToken(id, tokens.jwtRefreshToken, salt);
      match updated
      case Failure(e) => r := Failure(e);
      case Success(_) => r := Success(tokens);
    }
  }
}
