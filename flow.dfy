/**
 * The integration test's rotation flow, driven through the service objects
 * themselves: wire one table into both services, sign up, wait, rotate, and
 * replay the first refresh token.
 */
module AuthFlow {
  import opened Wrappers
  import opened Hashing
  import opened Jwt
  import opened Store
  import Session
  import SessionProperties
  import opened Users
  import opened Tokens
  import opened Auth

  method RotateAfterSignup(argon2: Hasher, jwt: Issuer, signedUpAt: nat, rotatedAt: nat)
    returns (first: Jwt.Tokens, second: Jwt.Tokens, replay: Result<Jwt.Tokens, Error>)
    requires argon2.Sound() && jwt.Sound()
    requires signedUpAt < rotatedAt
    ensures first.jwtAccessToken != second.jwtAccessToken
    ensures first.jwtRefreshToken != second.jwtRefreshToken
    ensures replay == Failure(Forbidden(Session.AccessDeniedMessage))
  {
    var prisma := new UserTable();
    var userService := new UsersService(prisma, argon2);
    var tokenService := new TokensService(prisma, argon2, jwt);
    var auth := new AuthService(userService, tokenService);
    var dto := Session.AuthDto("example@test.com", "123456");
    var empty := prisma.State();

    var signedUp := auth.SignupLocal(dto, 0, 1, signedUpAt, None);
    SessionProperties.RotationScenario(empty, argon2, jwt, dto, 0, 1, signedUpAt, 2, rotatedAt, 3, rotatedAt);
    first := signedUp.value;
    var id := empty.nextId;

    var rotated := tokenService.RotateRefreshTokens(id, first.jwtRefreshToken, 2, rotatedAt);
    second := rotated.value;

    replay := tokenService.RotateRefreshTokens(id, first.jwtRefreshToken, 3, rotatedAt);
  }
}
