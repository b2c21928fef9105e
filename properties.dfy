/**
 * Properties that relate several transitions of the session state machine:
 * the scenarios the integration tests walk through, and what the
 * fingerprint invariant buys.
 */
module SessionProperties {
  import opened Wrappers
  import opened Hashing
  import opened Jwt
  import opened Store
  import opened Session

  /** A user who has just signed up can sign in with the same email and
      password; the new pair belongs to the new id. */
  lemma SignupThenSignin(db: Db, h: Hasher, j: Issuer, dto: AuthDto, passwordSalt: Salt, tokenSalt: Salt, now: nat,
                         signinSalt: Salt, later: nat)
    requires Consistent(db) && h.Sound()
    requires Signup(db, h, j, dto, passwordSalt, tokenSalt, now, None).0.Success?
    ensures Signin(Signup(db, h, j, dto, passwordSalt, tokenSalt, now, None).1, h, j, dto, signinSalt, later).0
            == Success(GetTokens(j, db.nextId, dto.email, later))
  {
    var after := Signup(db, h, j, dto, passwordSalt, tokenSalt, now, None).1;
    var id := db.nextId;
    assert id in after.users && after.users[id].email == dto.email;
    assert CredentialsValid(h, after.users, dto.email, dto.password);
  }

  /** Signing up twice with one email: the second attempt is refused with 403
      and the table stays as the first signup left it. */
  lemma SignupTwice(db: Db, h: Hasher, j: Issuer, dto: AuthDto, passwordSalt: Salt, tokenSalt: Salt, now: nat,
                    again: AuthDto, passwordSalt': Salt, tokenSalt': Salt, now': nat)
    requires Consistent(db)
    requires Signup(db, h, j, dto, passwordSalt, tokenSalt, now, None).0.Success?
    requires again.email == dto.email
    ensures var after := Signup(db, h, j, dto, passwordSalt, tokenSalt, now, None).1;
            Signup(after, h, j, again, passwordSalt', tokenSalt', now', None)
            == (Failure(Forbidden(DuplicateEmailMessage)), after)
  {
    var after := Signup(db, h, j, dto, passwordSalt, tokenSalt, now, None).1;
    assert db.nextId in after.users && after.users[db.nextId].email == again.email;
  }

  /** After logout no refresh token is accepted any more: rotation is refused
      with 403, whatever token is presented. */
  lemma LogoutEndsSession(db: Db, h: Hasher, j: Issuer, id: UserId, refreshToken: string, tokenSalt: Salt, now: nat)
    ensures var after := Logout(db, id).1;
            Rotate(after, h, j, id, refreshToken, tokenSalt, now) == (Failure(Forbidden(AccessDeniedMessage)), after)
  {
    var after := Logout(db, id).1;
    assert !Accepts(h, after, id, refreshToken);
  }

  /** Logging out twice answers true both times and ends in the same table as
      logging out once. */
  lemma {:induction false} LogoutIdempotent(db: Db, id: UserId)
    ensures Logout(Logout(db, id).1, id) == Logout(db, id)
  {
    var once := Logout(db, id).1;
    if id in db.users {
      assert once.users[id].hashedRefreshToken == None;
      assert once.users[id := once.users[id].(hashedRefreshToken := None)] == once.users;
    }
  }

  /** A presented token with its last character cut off is refused with 403,
      and the table is unchanged. */
  lemma TruncatedTokenRejected(db: Db, h: Hasher, j: Issuer, id: UserId, refreshToken: string, tokenSalt: Salt,
                               now: nat, salt: Salt)
    requires h.Sound() && |refreshToken| > 0
    requires id in db.users && db.users[id].hashedRefreshToken == Some(h.hash(refreshToken, salt))
    ensures Rotate(db, h, j, id, refreshToken[..|refreshToken| - 1], tokenSalt, now)
            == (Failure(Forbidden(AccessDeniedMessage)), db)
  {
    var cut := refreshToken[..|refreshToken| - 1];
    assert |cut| != |refreshToken|;
    assert !h.verify(h.hash(refreshToken, salt), cut);
  }

  /** Signing in again replaces the session: a refresh token issued in an
      earlier second stops being accepted. */
  lemma SigninRevokesPrevious(db: Db, h: Hasher, j: Issuer, dto: AuthDto, id: UserId, issuedAt: nat,
                              tokenSalt: Salt, now: nat)
    requires Consistent(db) && h.Sound() && j.Sound()
    requires id in db.users && db.users[id].email == dto.email
    requires issuedAt != now
    requires Signin(db, h, j, dto, tokenSalt, now).0.Success?
    ensures !Accepts(h, Signin(db, h, j, dto, tokenSalt, now).1, id,
                     GetTokens(j, id, dto.email, issuedAt).jwtRefreshToken)
  {
    var out := Signin(db, h, j, dto, tokenSalt, now);
    FreshTokens(j, id, dto.email, issuedAt, id, dto.email, now);
    assert out.1.users[id].hashedRefreshToken == Some(h.hash(out.0.value.jwtRefreshToken, tokenSalt));
  }

  /** The rotation walk-through: sign up and get T1; rotating with T1's
      refresh token at a later second gives T2, different from T1 in both
      tokens; rotating with T1's refresh token once more is refused. */
  lemma RotationScenario(db: Db, h: Hasher, j: Issuer, dto: AuthDto, passwordSalt: Salt, tokenSalt: Salt, t0: nat,
                         salt1: Salt, t1: nat, salt2: Salt, t2: nat)
    requires Consistent(db) && h.Sound() && j.Sound()
    requires !Registered(db.users, dto.email)
    requires t0 != t1
    ensures var s := Signup(db, h, j, dto, passwordSalt, tokenSalt, t0, None);
            && s.0.Success?
            && var id := db.nextId;
               var r1 := Rotate(s.1, h, j, id, s.0.value.jwtRefreshToken, salt1, t1);
               && r1.0.Success?
               && r1.0.value.jwtAccessToken != s.0.value.jwtAccessToken
               && r1.0.value.jwtRefreshToken != s.0.value.jwtRefreshToken
               && Rotate(r1.1, h, j, id, s.0.value.jwtRefreshToken, salt2, t2)
                  == (Failure(Forbidden(AccessDeniedMessage)), r1.1)
  {
    var s := Signup(db, h, j, dto, passwordSalt, tokenSalt, t0, None);
    var id := db.nextId;
    var t1Tokens := s.0.value;
    assert Accepts(h, s.1, id, t1Tokens.jwtRefreshToken);
    var r1 := Rotate(s.1, h, j, id, t1Tokens.jwtRefreshToken, salt1, t1);
    assert s.1.users[id].email == dto.email;
    FreshTokens(j, id, dto.email, t0, id, dto.email, t1);
    assert r1.1.users[id].hashedRefreshToken == Some(h.hash(r1.0.value.jwtRefreshToken, salt1));
    assert !Accepts(h, r1.1, id, t1Tokens.jwtRefreshToken);
  }

  /** Under the fingerprint invariant, a refresh token that rotation accepts
      for user `id` decodes to that user: a token minted for someone else
      never opens this session. */
  lemma AcceptedTokenNamesUser(db: Db, h: Hasher, j: Issuer, id: UserId, refreshToken: string)
    requires h.Sound() && j.Sound()
    requires FingerprintsIssued(h, j, db)
    requires Accepts(h, db, id, refreshToken)
    ensures j.decode(refreshToken).Some? && j.decode(refreshToken).value.sub == id
    ensures j.decode(refreshToken).value.email == db.users[id].email
  {
    var user := db.users[id];
    var now, salt :| user.hashedRefreshToken.value == h.hash(GetTokens(j, id, user.email, now).jwtRefreshToken, salt);
    assert refreshToken == GetTokens(j, id, user.email, now).jwtRefreshToken;
  }

  /** From an empty table, whatever requests are served, every accepted
      refresh token decodes to the user it is presented for. */
  lemma ServedTokensNameTheirUser(h: Hasher, j: Issuer, reqs: seq<Request>, id: UserId, refreshToken: string)
    requires h.Sound() && j.Sound()
    requires Accepts(h, Run(Db(map[], 1), h, j, reqs), id, refreshToken)
    ensures j.decode(refreshToken).Some? && j.decode(refreshToken).value.sub == id
  {
    var start := Db(map[], 1);
    assert FingerprintsIssued(h, j, start);
    AcceptedTokenNamesUser(Run(start, h, j, reqs), h, j, id, refreshToken);
  }

  /** The integration test's first signup, on an empty table: as written it
      fails with status 500 and writes nothing, although the email is free;
      with the password hashed once inside createUser it succeeds and the
      user can sign in. */
  lemma SignupAsWrittenRefusesFreshEmail(h: Hasher, j: Issuer, salt1: Salt, salt2: Salt, salt3: Salt, now: nat)
    requires h.Sound()
    ensures var dto := AuthDto("example@test.com", "123456");
            var empty := Db(map[], 1);
            && SignupAsWritten(empty, h, j, dto, salt1, salt2, salt3, now, None)
               == (Failure(Internal(UndefinedPasswordTypeError)), empty)
            && Signup(empty, h, j, dto, salt2, salt3, now, None).0.Success?
            && Signin(Signup(empty, h, j, dto, salt2, salt3, now, None).1, h, j, dto, salt3, now).0.Success?
  {
    var dto := AuthDto("example@test.com", "123456");
    var empty := Db(map[], 1);
    SignupThenSignin(empty, h, j, dto, salt2, salt3, now, salt3, now);
  }
}
