/**
 * The per-user session state machine of AuthService (and the token service
 * it delegates to) as pure transitions over the user table. A user is logged
 * in while the row holds a refresh-token fingerprint and logged out once it
 * is null. Every transition returns the result the caller sees and the table
 * afterwards; a failure leaves the table as it was.
 */
module Session {
  import opened Wrappers
  import opened Hashing
  import opened Jwt
  import opened Store

  /** The body of signup and signin requests. */
  datatype AuthDto = AuthDto(email: string, password: string)

  const UserMissingMessage := "User does not exist"
  const PasswordInvalidMessage := "Password invalid"
  const AccessDeniedMessage := "Access Denied"

  /** The stored fingerprint of user `id` accepts `refreshToken`. */
  predicate Accepts(h: Hasher, db: Db, id: UserId, refreshToken: string) {
    && id in db.users
    && db.users[id].hashedRefreshToken.Some?
    && h.verify(db.users[id].hashedRefreshToken.value, refreshToken)
  }

  /** Some registered user has this email and a password hash that accepts `password`. */
  predicate CredentialsValid(h: Hasher, users: map<UserId, User>, email: string, password: string) {
    exists id :: id in users && users[id].email == email && h.verify(users[id].hashedPassword, password)
  }

  /** updateRefreshToken(id, refreshToken): persist a fresh hash of the token
      as the user's fingerprint. */
  function UpdateRefreshToken(db: Db, h: Hasher, id: UserId, refreshToken: string, salt: Salt)
    : (out: (Result<User, Error>, Db))
    ensures out.0.Success? <==> id in db.users
    ensures out.0.Failure? ==> out.1 == db
    ensures TouchesOnly(db, out.1, id)
    ensures out.0.Success? ==> out.1.users[id].hashedRefreshToken == Some(h.hash(refreshToken, salt))
    ensures h.Sound() && out.0.Success? ==> Accepts(h, out.1, id, refreshToken)
    ensures Consistent(db) ==> Consistent(out.1)
  {
    UpdateUser(db, id, Some(h.hash(refreshToken, salt)))
  }

  /** signupLocal: create the user, mint tokens for the new id and email,
      persist the refresh fingerprint last, and return those same tokens. */
  function Signup(db: Db, h: Hasher, j: Issuer, dto: AuthDto, passwordSalt: Salt, tokenSalt: Salt, now: nat,
                  outage: Option<PrismaError>): (out: (Result<Tokens, Error>, Db))
    requires Consistent(db)
    ensures out.0.Success? <==> outage.None? && !Registered(db.users, dto.email)
    ensures out.0.Failure? ==> out.1 == db
    ensures outage.None? && Registered(db.users, dto.email) ==>
              out.0 == Failure(Forbidden(DuplicateEmailMessage)) && Status(out.0.error) == 403
    ensures outage.Some? ==> out.0 == Failure(CatchCreateError(outage.value))
    ensures out.0.Success? ==>
              && db.nextId !in db.users
              && out.0.value == GetTokens(j, db.nextId, dto.email, now)
              && out.1 == Db(db.users[db.nextId := User(dto.email, h.hash(dto.password, passwordSalt),
                                                        Some(h.hash(out.0.value.jwtRefreshToken, tokenSalt)))],
                             db.nextId + 1)
    ensures h.Sound() && out.0.Success? ==>
              && out.1.users[db.nextId].hashedPassword != dto.password
              && h.verify(out.1.users[db.nextId].hashedPassword, dto.password)
              && Accepts(h, out.1, db.nextId, out.0.value.jwtRefreshToken)
    ensures Consistent(out.1)
  {
    var created := CreateUser(db, h, dto.email, dto.password, passwordSalt, outage);
    match created.0
    case Failure(e) => (Failure(e), created.1)
    case Success(row) =>
      var tokens := GetTokens(j, row.0, row.1.email, now);
      var updated := UpdateRefreshToken(created.1, h, row.0, tokens.jwtRefreshToken, tokenSalt);
      match updated.0
      case Failure(e) => (Failure(e), updated.1)
      case Success(_) => (Success(tokens), updated.1)
  }

  /** signinLocal: look the user up by email, check the password, then mint
      tokens and overwrite that user's fingerprint. */
  function Signin(db: Db, h: Hasher, j: Issuer, dto: AuthDto, tokenSalt: Salt, now: nat)
    : (out: (Result<Tokens, Error>, Db))
    requires Consistent(db)
    ensures out.0.Success? <==> CredentialsValid(h, db.users, dto.email, dto.password)
    ensures !Registered(db.users, dto.email) ==> out == (Failure(BadRequest(UserMissingMessage)), db)
    ensures Registered(db.users, dto.email) && !CredentialsValid(h, db.users, dto.email, dto.password) ==>
              out == (Failure(BadRequest(PasswordInvalidMessage)), db)
    ensures forall id :: id in db.users && db.users[id].email == dto.email && out.0.Success? ==>
              && out.0.value == GetTokens(j, id, dto.email, now)
              && TouchesOnly(db, out.1, id)
              && out.1.users[id].hashedRefreshToken == Some(h.hash(out.0.value.jwtRefreshToken, tokenSalt))
    ensures Consistent(out.1)
  {
    match FindUserByEmail(db.users, dto.email)
    case None => (Failure(BadRequest(UserMissingMessage)), db)
    case Some(row) =>
      if !h.verify(row.1.hashedPassword, dto.password) then
        (Failure(BadRequest(PasswordInvalidMessage)), db)
      else
        var tokens := GetTokens(j, row.0, row.1.email, now);
        var updated := UpdateRefreshToken(db, h, row.0, tokens.jwtRefreshToken, tokenSalt);
        match updated.0
        case Failure(e) => (Failure(e), updated.1)
        case Success(_) => (Success(tokens), updated.1)
  }

  /** logout(userId): null the fingerprint. The update is not awaited, so the
      answer is true whether or not the user exists; a missing user's update
      fails unseen and the table is unchanged. */
  function Logout(db: Db, id: UserId): (out: (bool, Db))
    ensures out.0
    ensures TouchesOnly(db, out.1, id)
    ensures id in db.users ==> !out.1.users[id].LoggedIn()
    ensures id !in db.users ==> out.1 == db
    ensures Consistent(db) ==> Consistent(out.1)
  {
    var updated := UpdateUser(db, id, None);
    (true, updated.1)
  }

  /** rotateRefreshTokens(userId, refreshToken): only a logged-in user whose
      fingerprint accepts the presented token gets a new pair; every other
      case is the same Forbidden answer. */
  function Rotate(db: Db, h: Hasher, j: Issuer, id: UserId, refreshToken: string, tokenSalt: Salt, now: nat)
    : (out: (Result<Tokens, Error>, Db))
    ensures out.0.Success? <==> Accepts(h, db, id, refreshToken)
    ensures out.0.Failure? ==> out == (Failure(Forbidden(AccessDeniedMessage)), db) && Status(out.0.error) == 403
    ensures out.0.Success? ==>
              && out.0.value == GetTokens(j, id, db.users[id].email, now)
              && TouchesOnly(db, out.1, id)
              && out.1.users[id].hashedRefreshToken == Some(h.hash(out.0.value.jwtRefreshToken, tokenSalt))
    ensures Consistent(db) ==> Consistent(out.1)
  {
    if id !in db.users then
      (Failure(Forbidden(AccessDeniedMessage)), db)
    else
      var user := db.users[id];
      match user.hashedRefreshToken
      case None => (Failure(Forbidden(AccessDeniedMessage)), db)
      case Some(fingerprint) =>
        if !h.verify(fingerprint, refreshToken) then
          (Failure(Forbidden(AccessDeniedMessage)), db)
        else
          var tokens := GetTokens(j, id, user.email, now);
          var updated := UpdateRefreshToken(db, h, id, tokens.jwtRefreshToken, tokenSalt);
          match updated.0
          case Failure(e) => (Failure(e), updated.1)
          case Success(_) => (Success(tokens), updated.1)
  }

  /** signupLocal exactly as written: it hashes the password itself and hands
      createUser a DTO holding only `hashedPassword`, so the `password` field
      createUser hashes is undefined and every signup fails before any row is
      written. */
  function SignupAsWritten(db: Db, h: Hasher, j: Issuer, dto: AuthDto, passwordSalt: Salt, createSalt: Salt,
                           tokenSalt: Salt, now: nat, outage: Option<PrismaError>): (out: (Result<Tokens, Error>, Db))
    ensures out == (Failure(Internal(UndefinedPasswordTypeError)), db)
    ensures Status(out.0.error) == 500
  {
    var hashedPassword := h.hash(dto.password, passwordSalt);
    var created := CreateUserAsWritten(db, h, CreateUserDto(dto.email, None, Some(hashedPassword)), createSalt, outage);
    match created.0
    case Failure(e) => (Failure(e), created.1)
    case Success(row) =>
      var tokens := GetTokens(j, row.0, row.1.email, now);
      var updated := UpdateRefreshToken(created.1, h, row.0, tokens.jwtRefreshToken, tokenSalt);
      match updated.0
      case Failure(e) => (Failure(e), updated.1)
      case Success(_) => (Success(tokens), updated.1)
  }

  /** One request to the service, with the salts and the clock reading it draws. */
  datatype Request =
    | SignupRequest(dto: AuthDto, passwordSalt: Salt, tokenSalt: Salt, now: nat, outage: Option<PrismaError>)
    | SigninRequest(dto: AuthDto, tokenSalt: Salt, now: nat)
    | LogoutRequest(id: UserId)
    | RotateRequest(id: UserId, refreshToken: string, tokenSalt: Salt, now: nat)

  /** Rows are never removed, and a row's email and password hash never change. */
  ghost predicate Extends(before: Db, after: Db) {
    && before.nextId <= after.nextId
    && before.users.Keys <= after.users.Keys
    && (forall id :: id in before.users ==>
          && after.users[id].email == before.users[id].email
          && after.users[id].hashedPassword == before.users[id].hashedPassword)
  }

  /** Every fingerprint in the table is the hash of a refresh token minted for
      that very user: issuing tokens is the only way a fingerprint arises. */
  ghost predicate FingerprintsIssued(h: Hasher, j: Issuer, db: Db) {
    forall id :: id in db.users && db.users[id].LoggedIn() ==>
      exists now, salt :: db.users[id].hashedRefreshToken.value
                          == h.hash(GetTokens(j, id, db.users[id].email, now).jwtRefreshToken, salt)
  }

  /** The table after serving one request. */
  function Handle(db: Db, h: Hasher, j: Issuer, req: Request): (after: Db)
    requires Consistent(db)
    ensures Consistent(after) && Extends(db, after)
    ensures FingerprintsIssued(h, j, db) ==> FingerprintsIssued(h, j, after)
  {
    match req
    case SignupRequest(dto, passwordSalt, tokenSalt, now, outage) =>
      Signup(db, h, j, dto, passwordSalt, tokenSalt, now, outage).1
    case SigninRequest(dto, tokenSalt, now) => Signin(db, h, j, dto, tokenSalt, now).1
    case LogoutRequest(id) => Logout(db, id).1
    case RotateRequest(id, refreshToken, tokenSalt, now) => Rotate(db, h, j, id, refreshToken, tokenSalt, now).1
  }

  /** The table after serving the requests one after another. */
  function Run(db: Db, h: Hasher, j: Issuer, reqs: seq<Request>): (after: Db)
    requires Consistent(db)
    ensures Consistent(after) && Extends(db, after)
    ensures FingerprintsIssued(h, j, db) ==> FingerprintsIssued(h, j, after)
    decreases |reqs|
  {
    if reqs == [] then db else Run(Handle(db, h, j, reqs[0]), h, j, reqs[1..])
  }
}
