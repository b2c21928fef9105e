/** AuthService: signup, signin and logout over the shared user table. */
module Auth {
  import opened Wrappers
  import opened Hashing
  import opened Jwt
  import opened Store
  import Session
  import opened Users
  import opened Tokens

  class AuthService {
    const userService: UsersService
    const tokenService: TokensService
    const argon2: Hasher

    /** Both services work on the one table and with the one argon2 library. */
    ghost predicate Valid()
      reads userService.prisma
    {
      && userService.prisma == tokenService.prisma
      && userService.argon2 == argon2
      && tokenService.argon2 == argon2
      && userService.prisma.Valid()
    }

    constructor (userService: UsersService, tokenService: TokensService)
      requires userService.prisma == tokenService.prisma && userService.argon2 == tokenService.argon2
      requires userService.prisma.Valid()
      ensures this.userService == userService && this.tokenService == tokenService
      ensures Valid()
    {
      this.userService := userService;
      this.tokenService := tokenService;
      this.argon2 := userService.argon2;
    }

    /** signupLocal: create the user with a hash of the password, mint tokens
        for the new id and email, persist the refresh fingerprint, return the
        tokens. The password is hashed once, inside createUser. */
    method SignupLocal(dto: Session.AuthDto, passwordSalt: Salt, tokenSalt: Salt, now: nat,
                       outage: Option<PrismaError>) returns (r: Result<Jwt.Tokens, Error>)
      requires Valid()
      modifies userService.prisma
      ensures Valid()
      ensures (r, userService.prisma.State())
              == Session.Signup(old(userService.prisma.State()), argon2, tokenService.jwt, dto,
                                passwordSalt, tokenSalt, now, outage)
    {
      var created := userService.CreateUser(dto.email, dto.password, passwordSalt, outage);
      if created.Failure? {
        return Failure(created.error);
      }
      var (id, user) := created.value;
      var tokens := tokenService.GetTokens(id, user.email, now);
      var updated := tokenService.UpdateRefreshToken(id, tokens.jwtRefreshToken, tokenSalt);
      match updated
      case Failure(e) => r := Failure(e);
      case Success(_) => r := Success(tokens);
    }

    /** signinLocal: unknown email and wrong password are both BadRequest;
        otherwise mint tokens and overwrite this user's fingerprint. */
    method SigninLocal(dto: Session.AuthDto, tokenSalt: Salt, now: nat) returns (r: Result<Jwt.Tokens, Error>)
      requires Valid()
      modifies userService.prisma
      ensures Valid()
      ensures (r, userService.prisma.State())
              == Session.Signin(old(userService.prisma.State()), argon2, tokenService.jwt, dto, tokenSalt, now)
    {
      var found := userService.FindUserByEmail(dto.email);
      if found.None? {
        return Failure(BadRequest(Session.UserMissingMessage));
      }
      var (id, user) := found.value;
      var passwordMatches := argon2.verify(user.hashedPassword, dto.password);
      if !passwordMatches {
        return Failure(BadRequest(Session.PasswordInvalidMessage));
      }
      var tokens := tokenService.GetTokens(id, user.email, now);
      var updated := tokenService.UpdateRefreshToken(id, tokens.jwtRefreshToken, tokenSalt);
      match updated
      case Failure(e) => r := Failure(e);
      case Success(_) => r := Success(tokens);
    }

    /** logout(userId): start the update that nulls the fingerprint and answer
        true; the update's outcome is never looked at. */
    method Logout(id: UserId) returns (ok: bool)
      requires Valid()
      modifies userService.prisma
      ensures Valid()
      ensures (ok, userService.prisma.State()) == Session.Logout(old(userService.prisma.State()), id)
    {
      var pending := userService.UpdateUser(id, None);
      ok := true;
    }
  }
}
