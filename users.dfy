/** UsersService: user creation and the lookups and updates AuthService calls. */
module Users {
  import opened Wrappers
  import opened Hashing
  import opened Store

  class UsersService {
    const prisma: UserTable
    const argon2: Hasher

    constructor (prisma: UserTable, argon2: Hasher)
      ensures this.prisma == prisma && this.argon2 == argon2
    {
      this.prisma := prisma;
      this.argon2 := argon2;
    }

    /** createUser: hash the password, insert the row, and turn the unique
        violation on email into Forbidden; other store errors pass through. */
    method CreateUser(email: string, password: string, salt: Salt, outage: Option<PrismaError>)
      returns (r: Result<(UserId, User), Error>)
      requires prisma.Valid()
      modifies prisma
      ensures prisma.Valid()
      ensures (r, prisma.State()) == Store.CreateUser(old(prisma.State()), argon2, email, password, salt, outage)
    {
      var hashedPassword := argon2.hash(password, salt);
      var created: Result<(UserId, User), PrismaError>;
      if outage.Some? {
        created := Failure(outage.value);
      } else if exists id :: id in prisma.users && prisma.users[id].email == email {
        created := Failure(KnownRequest(UniqueViolation));
      } else {
        var user := User(email, hashedPassword, None);
        created := Success((prisma.nextId, user));
        prisma.users := prisma.users[prisma.nextId := user];
        prisma.nextId := prisma.nextId + 1;
      }
      match created
      case Failure(e) => r := Failure(CatchCreateError(e));
      case Success(row) => r := Success(row);
    }

    /** findUserByEmail: the row with this email, if there is one. */
    method FindUserByEmail(email: string) returns (r: Option<(UserId, User)>)
      requires prisma.Valid()
      ensures r == Store.FindUserByEmail(prisma.users, email)
    {
      if exists id :: id in prisma.users && prisma.users[id].email == email {
        var id :| id in prisma.users && prisma.users[id].email == email;
        r := Some((id, prisma.users[id]));
      } else {
        r := None;
      }
    }

    /** updateUser({id, hashedRefreshToken}): overwrite one row's fingerprint. */
    method UpdateUser(id: UserId, hashedRefreshToken: Option<string>) returns (r: Result<User, Error>)
      requires prisma.Valid()
      modifies prisma
      ensures prisma.Valid()
      ensures (r, prisma.State()) == Store.UpdateUser(old(prisma.State()), id, hashedRefreshToken)
    {
      if id !in prisma.users {
        r := Failure(Prisma(KnownRequest(RecordNotFound)));
        return;
      }
      var user := prisma.users[id].(hashedRefreshToken := hashedRefreshToken);
      prisma.users := prisma.users[id := user];
      r := Success(user);
    }
  }
}
