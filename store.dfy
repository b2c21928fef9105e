/**
 * The user table behind UsersService and TokensService, and the pure meaning
 * of the user-store operations the session logic relies on: createUser (with
 * its unique-email failure), lookup by email, and the single-record update of
 * the refresh-token fingerprint.
 */
module Store {
  import opened Wrappers
  import opened Hashing

  /** Prisma's autoincrement primary key. */
  type UserId = nat

  /** A row of the user table. `hashedRefreshToken` is the fingerprint of the
      refresh token issued last: set while the user is logged in, null once
      the user has logged out (or before the first issuance). */
  datatype User = User(email: string, hashedPassword: string, hashedRefreshToken: Option<string>)
  {
    predicate LoggedIn() { hashedRefreshToken.Some? }
  }

  /** The whole table: rows by id, and the next id autoincrement will hand out. */
  datatype Db = Db(users: map<UserId, User>, nextId: UserId)

  /** A Prisma client error: a known request error carries its code. */
  datatype PrismaError = KnownRequest(code: string) | Unknown(message: string)

  /** What an operation can fail with: Nest's HTTP exceptions, a store error
      passed through unchanged, or a plain runtime error. */
  datatype Error =
    | BadRequest(message: string)
    | Forbidden(message: string)
    | Prisma(cause: PrismaError)
    | Internal(message: string)

  /** The HTTP status Nest answers with for each error. */
  function Status(e: Error): nat {
    match e
    case BadRequest(_) => 400
    case Forbidden(_) => 403
    case Prisma(_) => 500
    case Internal(_) => 500
  }

  /** Prisma's codes for a unique-constraint violation and for an update of a missing record. */
  const UniqueViolation := "P2002"
  const RecordNotFound := "P2025"

  const DuplicateEmailMessage :=
    "There is a unique constraint violation, a new user cannot be created with this email"

  /** The unique index on email. */
  ghost predicate EmailsUnique(users: map<UserId, User>) {
    forall a, b :: a in users && b in users && users[a].email == users[b].email ==> a == b
  }

  /** The table's own guarantees: unique emails, and every id positive and
      below the autoincrement counter. */
  ghost predicate Consistent(db: Db) {
    && EmailsUnique(db.users)
    && 0 < db.nextId
    && (forall id :: id in db.users ==> 0 < id < db.nextId)
  }

  predicate Registered(users: map<UserId, User>, email: string) {
    exists id :: id in users && users[id].email == email
  }

  /** `after` differs from `before` at most in the fingerprint of user `id`:
      no row added or removed, no other row touched, email and password kept. */
  ghost predicate TouchesOnly(before: Db, after: Db, id: UserId) {
    && after.nextId == before.nextId
    && after.users.Keys == before.users.Keys
    && (forall other :: other in before.users && other != id ==> after.users[other] == before.users[other])
    && (id in before.users ==>
          && after.users[id].email == before.users[id].email
          && after.users[id].hashedPassword == before.users[id].hashedPassword)
  }

  /** The `.catch` of createUser: a unique-constraint violation becomes a
      Forbidden exception, any other store error is rethrown as it is. */
  function CatchCreateError(e: PrismaError): (r: Error)
    ensures Status(r) == 403 <==> e == KnownRequest(UniqueViolation)
    ensures e != KnownRequest(UniqueViolation) ==> r == Prisma(e)
  {
    if e.KnownRequest? && e.code == UniqueViolation then Forbidden(DuplicateEmailMessage) else Prisma(e)
  }

  /** createUser(email, password): hash the password with a fresh salt and
      insert a row with no fingerprint. `outage` is an error the database
      raises for reasons of its own (connection lost, ...). */
  function CreateUser(db: Db, h: Hasher, email: string, password: string, salt: Salt, outage: Option<PrismaError>)
    : (out: (Result<(UserId, User), Error>, Db))
    ensures out.0.Success? <==> outage.None? && !Registered(db.users, email)
    ensures out.0.Failure? ==> out.1 == db
    ensures outage.Some? ==> out.0 == Failure(CatchCreateError(outage.value))
    ensures outage.None? && Registered(db.users, email) ==>
              out.0 == Failure(Forbidden(DuplicateEmailMessage)) && Status(out.0.error) == 403
    ensures out.0.Success? ==>
              && out.0.value.0 == db.nextId
              && out.0.value.1 == User(email, h.hash(password, salt), None)
              && out.1.users == db.users[out.0.value.0 := out.0.value.1]
    ensures h.Sound() && out.0.Success? ==>
              h.verify(out.0.value.1.hashedPassword, password) && out.0.value.1.hashedPassword != password
    ensures Consistent(db) ==> Consistent(out.1)
    ensures Consistent(db) && out.0.Success? ==> out.0.value.0 !in db.users
  {
    var hashedPassword := h.hash(password, salt);
    if outage.Some? then
      (Failure(CatchCreateError(outage.value)), db)
    else if Registered(db.users, email) then
      (Failure(CatchCreateError(KnownRequest(UniqueViolation))), db)
    else
      var user := User(email, hashedPassword, None);
      (Success((db.nextId, user)), Db(db.users[db.nextId := user], db.nextId + 1))
  }

  /** findUserByEmail: the row with this email, if any. */
  function FindUserByEmail(users: map<UserId, User>, email: string): (r: Option<(UserId, User)>)
    requires EmailsUnique(users)
    ensures r.Some? <==> Registered(users, email)
    ensures r.Some? ==> r.value.0 in users && users[r.value.0] == r.value.1 && r.value.1.email == email
  {
    if Registered(users, email) then
      var id :| id in users && users[id].email == email;
      Some((id, users[id]))
    else
      None
  }

  /** updateUser({id, hashedRefreshToken}): overwrite one row's fingerprint;
      a missing id is Prisma's record-not-found error. */
  function UpdateUser(db: Db, id: UserId, hashedRefreshToken: Option<string>): (out: (Result<User, Error>, Db))
    ensures out.0.Success? <==> id in db.users
    ensures out.0.Failure? ==> out.1 == db && out.0.error == Prisma(KnownRequest(RecordNotFound))
    ensures TouchesOnly(db, out.1, id)
    ensures out.0.Success? ==> out.0.value == out.1.users[id] && out.1.users[id].hashedRefreshToken == hashedRefreshToken
    ensures Consistent(db) ==> Consistent(out.1)
  {
    if id !in db.users then
      (Failure(Prisma(KnownRequest(RecordNotFound))), db)
    else
      var user := db.users[id].(hashedRefreshToken := hashedRefreshToken);
      (Success(user), Db(db.users[id := user], db.nextId))
  }

  /** The argument createUser is written against: the password field it
      hashes is optional, because the caller in AuthService leaves it out. */
  datatype CreateUserDto = CreateUserDto(email: string, password: Option<string>, hashedPassword: Option<string>)

  /** Stands for the TypeError raised when argon2 is handed `undefined`;
      the text is a placeholder, not the runtime's message. */
  const UndefinedPasswordTypeError := "TypeError"

  /** createUser exactly as written: it hashes `createUserDto.password`; when
      that field is absent argon2 rejects before the table is touched. */
  function CreateUserAsWritten(db: Db, h: Hasher, dto: CreateUserDto, salt: Salt, outage: Option<PrismaError>)
    : (out: (Result<(UserId, User), Error>, Db))
    ensures dto.password.None? ==> out == (Failure(Internal(UndefinedPasswordTypeError)), db)
    ensures dto.password.Some? ==> out == CreateUser(db, h, dto.email, dto.password.value, salt, outage)
  {
    match dto.password
    case None => (Failure(Internal(UndefinedPasswordTypeError)), db)
    case Some(password) => CreateUser(db, h, dto.email, password, salt, outage)
  }

  /** The Prisma user table, shared by UsersService and TokensService. */
  class UserTable {
    var users: map<UserId, User>
    var nextId: UserId

    function State(): Db
      reads this
    {
      Db(users, nextId)
    }

    ghost predicate Valid()
      reads this
    {
      Consistent(State())
    }

    /** An empty table; autoincrement starts at 1. */
    constructor ()
      ensures Valid() && State() == Db(map[], 1)
    {
      users := map[];
      nextId := 1;
    }
  }
}
