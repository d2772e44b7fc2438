/**
  The services as the imperative code they are: early returns over a database that
  statements replace. Each method is proved to be the corresponding call of the
  transition system run to its end (`Finish`), so the theorems about atomic runs are
  about these methods.
*/
module Services {
  import opened Wrappers
  import opened Models
  import opened Database
  import opened Handlers
  import opened Atomic
  import opened AccountTheorems
  import opened OutcomeTheorems

  /** The Postgres server behind the pool. */
  class Postgres {
    var db: Db

    constructor (initial: Db)
      ensures db == initial
    {
      db := initial;
    }
  }

  function Ended(r: Result<AuthResponse, Error>): Pc {
    match r
    case Success(response) => Done(Responded(response))
    case Failure(error) => Done(Failed(error))
  }

  function Acknowledged(r: Result<(), Error>): Pc {
    if r.Success? then Done(Finished) else Done(Failed(r.error))
  }

  class TokenService {
    const server: Postgres

    constructor (server: Postgres)
      ensures this.server == server
    {
      this.server := server;
    }

    /** Signs claims about a user; for a copy that agrees with the tables they are true of them. */
    method GenerateAccessToken(who: Snapshot, via: AuthMethod) returns (claims: Claims)
      modifies server
      ensures claims == ClaimsOf(who, via)
      ensures server.db == Issue(old(server.db), claims)
      ensures who.id < |server.db.users| && who.row == server.db.users[who.id]
              && (via == Password ==> who.id in server.db.locals) ==>
                ClaimTrue(server.db, claims) && claims.role == server.db.users[who.id].role
    {
      claims := Claims(who.id, who.row.email, who.row.displayName, who.row.role, via);
      server.db := Issue(server.db, claims);
    }

    /**
      Fails exactly for a missing user or a secret in use; otherwise adds the one row that the
      returned secret opens.
    */
    method CreateRefreshToken(user: UserId, origin: Origin, e: Env) returns (r: Result<string, Error>)
      modifies server
      ensures var inserted := InsertToken(old(server.db), user, e.raw, e.salt, e.now + e.refreshTtl, origin);
              if inserted.Success? then r == Success(e.raw) && server.db == inserted.value
              else r == Failure(inserted.error) && server.db == Read(old(server.db))
      ensures r.Failure? <==> user >= |old(server.db).users| || !FreshDraw(old(server.db), e)
      ensures r.Failure? ==> r.error == DatabaseFailed && server.db.tokens == old(server.db).tokens
      ensures r.Success? ==>
                && |server.db.tokens| == |old(server.db).tokens| + 1
                && server.db.tokens[..|old(server.db).tokens|] == old(server.db).tokens
                && var row := server.db.tokens[|old(server.db).tokens|];
                && row.userId == user && !row.revoked && row.expiresAt == e.now + e.refreshTtl
                && Verify(r.value, row.tokenHash) && row.lookupKey == Hmac(r.value)
      ensures r.Success? ==> FindByLookupKey(server.db.tokens, Hmac(r.value)) == Some(|old(server.db).tokens|)
    {
      match InsertToken(server.db, user, e.raw, e.salt, e.now + e.refreshTtl, origin)
      case Failure(error) =>
        server.db := Read(server.db);
        r := Failure(error);
      case Success(after) =>
        server.db := after;
        r := Success(e.raw);
    }

    method RevokeAllUserTokens(user: UserId)
      modifies server
      ensures server.db == RevokeAll(old(server.db), user)
      ensures NoLiveRow(server.db, user)
      ensures SessionsEnded(old(server.db), server.db, user)
    {
      server.db := RevokeAll(server.db, user);
    }

    /** The UPDATE and INSERT of a rotation, on the row its SELECT accepted. */
    method ReplaceRow(row: nat, selectedAt: nat, e: Env) returns (r: Result<string, Error>)
      requires row < |server.db.tokens|
      modifies server
      ensures var user := old(server.db).tokens[row].userId;
              var f := Finish(old(server.db), RefreshUpdate(row, user, selectedAt), e);
              if r.Success? then f == Finish(server.db, RefreshFindUser(user, r.value), e)
              else f == Progress(server.db, Done(Failed(r.error)))
      ensures r.Success? ==> r.value == e.raw && Rotated(old(server.db), server.db, row, e)
    {
      ghost var db0 := server.db;
      var user := server.db.tokens[row].userId;
      var updatedAt := server.db.tick;
      server.db := RevokeRow(server.db, row);
      ghost var insert := RefreshInsert(row, user, selectedAt, updatedAt);
      assert Finish(db0, RefreshUpdate(row, user, selectedAt), e) == Finish(server.db, insert, e);
      ghost var db1 := server.db;
      r := CreateRefreshToken(user, Rotation(row, selectedAt, updatedAt), e);
      ghost var next := AdvanceRefresh(db1, insert, e);
      assert next.db == server.db && Finish(db1, insert, e) == Finish(next.db, next.pc, e);
    }

    method RotateRefreshToken(raw: string, e: Env) returns (r: Result<(string, UserId), Error>)
      modifies server
      ensures var f := Finish(old(server.db), RefreshSelect(raw), e);
              match r
              case Success((renewed, user)) => f == Finish(server.db, RefreshFindUser(user, renewed), e)
              case Failure(error) => f == Progress(server.db, Done(Failed(error)))
      ensures match FindByLookupKey(old(server.db).tokens, Hmac(raw))
              case None => r == Failure(RefreshTokenInvalid) && server.db == Read(old(server.db))
              case Some(i) =>
                var row := old(server.db).tokens[i];
                if row.revoked || row.expiresAt < e.now
                then r == Failure(RefreshTokenInvalid) && SessionsEnded(old(server.db), server.db, row.userId)
                else r.Success? ==> r.value == (e.raw, row.userId) && Rotated(old(server.db), server.db, i, e)
    {
      ghost var db0 := server.db;
      var found := FindByLookupKey(server.db.tokens, Hmac(raw));
      var selectedAt := server.db.tick;
      server.db := Read(server.db);
      if found.None? {
        return Failure(RefreshTokenInvalid);
      }
      var record := server.db.tokens[found.value];
      if record.revoked || record.expiresAt < e.now {
        assert Finish(db0, RefreshSelect(raw), e) == Finish(server.db, RefreshRevokeAll(record.userId), e);
        ghost var db1 := server.db;
        RevokeAllUserTokens(record.userId);
        assert AdvanceRefresh(db1, RefreshRevokeAll(record.userId), e)
            == Progress(server.db, Done(Failed(RefreshTokenInvalid)));
        assert Finish(db1, RefreshRevokeAll(record.userId), e)
            == Finish(server.db, Done(Failed(RefreshTokenInvalid)), e);
        return Failure(RefreshTokenInvalid);
      }
      if !Verify(raw, record.tokenHash) {
        return Failure(RefreshTokenInvalid);
      }
      assert Finish(db0, RefreshSelect(raw), e)
          == Finish(server.db, RefreshUpdate(found.value, record.userId, selectedAt), e);
      var replaced := ReplaceRow(found.value, selectedAt, e);
      r := if replaced.Success? then Success((replaced.value, record.userId)) else Failure(replaced.error);
    }
  }

  class UserService {
    const server: Postgres

    constructor (server: Postgres)
      ensures this.server == server
    {
      this.server := server;
    }

    method FindById(user: UserId) returns (r: Result<Snapshot, Error>)
      modifies server
      ensures server.db == Read(old(server.db))
      ensures user < |old(server.db).users| ==> r == Success(SnapshotOf(old(server.db), user))
      ensures user >= |old(server.db).users| ==> r == Failure(UserNotFound)
    {
      r := if user < |server.db.users| then Success(SnapshotOf(server.db, user)) else Failure(UserNotFound);
      server.db := Read(server.db);
    }

    method FindByEmailAddress(email: string) returns (r: Option<Snapshot>)
      modifies server
      ensures server.db == Read(old(server.db))
      ensures match FindByEmail(old(server.db).users, email)
              case None => r == None
              case Some(u) => r == Some(SnapshotOf(old(server.db), u))
    {
      var found := FindByEmail(server.db.users, email);
      r := if found.Some? then Some(SnapshotOf(server.db, found.value)) else None;
      server.db := Read(server.db);
    }

    method FindLocalCredential(user: UserId) returns (r: Option<LocalCredential>)
      modifies server
      ensures server.db == Read(old(server.db))
      ensures r == if user in old(server.db).locals then Some(old(server.db).locals[user]) else None
    {
      r := if user in server.db.locals then Some(server.db.locals[user]) else None;
      server.db := Read(server.db);
    }

    /** One active ordinary user and its credential, or the error of the first constraint in the way and no row. */
    method Create(email: string, displayName: string, username: string, password: string, e: Env)
      returns (r: Result<(Snapshot, LocalCredential), Error>)
      modifies server
      ensures match CreateLocal(old(server.db), email, displayName, username, Argon2(e.salt, password))
              case Failure(error) => r == Failure(error) && server.db == Read(old(server.db))
              case Success(after) => r.Success? && server.db == after
      ensures r.Failure? ==>
                r.error == if EmailUsed(old(server.db), email) then EmailTaken
                           else if DisplayNameUsed(old(server.db), displayName) then DatabaseFailed
                           else UsernameTaken
      ensures r.Success? <==>
                && !EmailUsed(old(server.db), email) && !DisplayNameUsed(old(server.db), displayName)
                && !UsernameUsed(old(server.db), username)
      ensures r.Success? ==>
                && server.db.users == old(server.db).users + [UserRow(email, displayName, User, true)]
                && server.db.locals == old(server.db).locals[|old(server.db).users| := r.value.1]
                && r.value.0 == SnapshotOf(server.db, |old(server.db).users|)
                && r.value.1.username == username && Verify(password, r.value.1.passwordHash)
                && r.value.1.passwordHash == Argon2(e.salt, password)
                && server.db.links == old(server.db).links && server.db.tokens == old(server.db).tokens
    {
      var id := |server.db.users|;
      var hash := Argon2(e.salt, password);
      match CreateLocal(server.db, email, displayName, username, hash)
      case Failure(error) =>
        server.db := Read(server.db);
        r := Failure(error);
      case Success(after) =>
        assert after.users == server.db.users + [UserRow(email, displayName, User, true)];
        server.db := after;
        r := Success((SnapshotOf(after, id), LocalCredential(username, hash)));
    }

    method ChangePassword(user: UserId, current: string, proposed: string, e: Env) returns (r: Result<(), Error>)
      modifies server
      ensures var f := Finish(old(server.db), PasswordSelect(user, current, proposed), e);
              if r.Success? then f == Finish(server.db, RevokeSessions(user), e)
              else f == Progress(server.db, Done(Failed(r.error)))
      ensures r.Success? <==> user in old(server.db).locals && old(server.db).locals[user].passwordHash.text == current
      ensures server.db.tokens == old(server.db).tokens
      ensures r.Success? ==>
                server.db.locals
                == old(server.db).locals[user := old(server.db).locals[user].(passwordHash := Argon2(e.salt, proposed))]
      ensures r.Failure? ==> server.db == Read(old(server.db))
    {
      ghost var db0 := server.db;
      var credential := FindLocalCredential(user);
      if credential.None? {
        return Failure(UserNotFound);
      }
      if !Verify(current, credential.value.passwordHash) {
        return Failure(InvalidCredentials);
      }
      assert Finish(db0, PasswordSelect(user, current, proposed), e)
          == Finish(server.db, PasswordUpdate(user, proposed), e);
      server.db := UpdatePassword(server.db, user, Argon2(e.salt, proposed));
      r := Success(());
    }

    method AssignRole(admin: UserId, target: UserId, role: Role) returns (r: Result<Snapshot, Error>)
      modifies server
      ensures if target < |old(server.db).users|
              then server.db == UpdateRole(old(server.db), admin, target, role)
                  && r == Success(SnapshotOf(server.db, target))
              else server.db == Read(old(server.db)) && r == Failure(UserNotFound)
      ensures r.Success? ==>
                server.db.users == old(server.db).users[target := old(server.db).users[target].(role := role)]
                    && r.value.row.role == role
    {
      if target < |server.db.users| {
        server.db := UpdateRole(server.db, admin, target, role);
        r := Success(SnapshotOf(server.db, target));
      } else {
        server.db := Read(server.db);
        r := Failure(UserNotFound);
      }
    }

    method SetInactive(user: UserId)
      modifies server
      ensures server.db == Deactivate(old(server.db), user)
      ensures forall u :: 0 <= u < |old(server.db).users| ==>
                server.db.users[u]
                == if u == user then old(server.db).users[u].(isActive := false) else old(server.db).users[u]
    {
      server.db := Deactivate(server.db, user);
    }

    method UnlinkOAuthAccount(user: UserId, provider: Provider, e: Env) returns (r: Result<(), Error>)
      modifies server
      ensures Progress(server.db, Acknowledged(r)) == Finish(old(server.db), UnlinkDelete(user, provider), e)
      ensures r.Success? ==> !Linked(server.db, user, provider)
      ensures r.Failure? ==> r.error == UserNotFound && server.db == Read(old(server.db))
    {
      if Linked(server.db, user, provider) {
        server.db := DeleteLinks(server.db, user, provider);
        r := Success(());
      } else {
        server.db := Read(server.db);
        r := Failure(UserNotFound);
      }
    }

    method CreateFromOAuth(profile: Profile) returns (r: Result<Snapshot, Error>)
      modifies server
      ensures match InsertUser(old(server.db), profile.email, OAuthName(profile))
              case Failure(error) => r == Failure(error) && server.db == Read(old(server.db))
              case Success(after) =>
                && server.db == after
                && r == Success(SnapshotOf(server.db, |old(server.db).users|))
                && after.users == old(server.db).users + [UserRow(profile.email, OAuthName(profile), User, true)]
      ensures r.Success? ==>
                && (profile.displayName.Some? ==> r.value.row.displayName == profile.displayName.value)
                && (profile.displayName.None? ==> LocalPart(profile.email, r.value.row.displayName))
    {
      var id := |server.db.users|;
      var inserted := InsertUser(server.db, profile.email, OAuthName(profile));
      if inserted.Failure? {
        server.db := Read(server.db);
        return Failure(inserted.error);
      }
      server.db := inserted.value;
      r := Success(SnapshotOf(server.db, id));
    }

    /** `find_by_oauth_identity`, then by email, then `create_from_oauth`, then `link_oauth_account`. */
    method FindOrCreate(profile: Profile, e: Env) returns (r: Result<Snapshot, Error>)
      requires forall x :: x in server.db.links ==> server.db.links[x].user < |server.db.users|
      modifies server
      ensures var f := Finish(old(server.db), OAuthFindLink(profile), e);
              match r
              case Failure(error) => f == Progress(server.db, Done(Failed(error)))
              case Success(who) => f == Finish(server.db, OAuthResolved(profile, who), e)
    {
      ghost var db0 := server.db;
      ghost var f := Finish(db0, OAuthFindLink(profile), e);
      if profile.identity in server.db.links {
        var linked := SnapshotOf(server.db, server.db.links[profile.identity].user);
        server.db := Read(server.db);
        return Success(linked);
      }
      server.db := Read(server.db);
      assert f == Finish(server.db, OAuthFindEmail(profile), e);
      ghost var db1 := server.db;
      var existing := FindByEmailAddress(profile.email);
      var who;
      if existing.Some? {
        who := existing.value;
      } else {
        assert f == Finish(server.db, OAuthCreate(profile), e);
        ghost var db2 := server.db;
        var created := CreateFromOAuth(profile);
        assert f == Finish(server.db, AdvanceOAuth(db2, OAuthCreate(profile), e).pc, e);
        if created.Failure? {
          return Failure(created.error);
        }
        who := created.value;
      }
      assert f == Finish(server.db, OAuthLink(profile, who), e);
      ghost var db3 := server.db;
      server.db := InsertLink(server.db, profile.identity, who.id);
      assert AdvanceOAuth(db3, OAuthLink(profile, who), e) == Progress(server.db, OAuthResolved(profile, who));
      r := Success(who);
    }
  }

  class AuthService {
    const user: UserService
    const token: TokenService

    ghost predicate Wired() {
      user.server == token.server
    }

    constructor (user: UserService, token: TokenService)
      requires user.server == token.server
      ensures this.user == user && this.token == token && Wired()
    {
      this.user := user;
      this.token := token;
    }

    /** The access token is signed first; its claims count as issued once the refresh row is in. */
    method IssueTokenPair(who: Snapshot, via: AuthMethod, username: Option<string>, door: Door, e: Env)
      returns (r: Result<AuthResponse, Error>)
      requires Wired()
      modifies token.server
      ensures var f := Finish(old(token.server.db), IssueTokens(who, via, username, door), e);
              f.db == token.server.db
              && f.pc == match r
                         case Failure(error) => Done(Failed(error))
                         case Success(response) =>
                           match door
                           case Direct => Done(Responded(response))
                           case ViaCallback(profile) => CallbackStore(profile, response)
    {
      ghost var db0 := token.server.db;
      ghost var next := AdvanceAccount(db0, IssueTokens(who, via, username, door), e);
      var created := token.CreateRefreshToken(who.id, SignIn, e);
      if created.Success? {
        var claims := token.GenerateAccessToken(who, via);
        r := Success(AuthResponse(claims, created.value, username));
      } else {
        r := Failure(created.error);
      }
      assert Finish(db0, IssueTokens(who, via, username, door), e) == Finish(next.db, next.pc, e) == next;
    }

    method RegisterUser(email: string, username: string, password: string, e: Env)
        returns (r: Result<AuthResponse, Error>)
      requires Wired()
      modifies token.server
      ensures Progress(token.server.db, Ended(r))
              == Finish(old(token.server.db), Start(old(token.server.db).issued, Register(email, username, password)),
                  e)
    {
      ghost var db0 := token.server.db;
      if |password| < 8 {
        return Failure(InvalidCredentials);
      }
      if |username| < 3 || |username| > 32 {
        return Failure(InvalidCredentials);
      }
      var created := user.Create(email, UpToAt(email), username, password, e);
      match created
      case Failure(error) =>
        return Failure(error);
      case Success((who, credential)) =>
        assert Finish(db0, RegisterCreate(email, username, password), e)
            == Finish(token.server.db, IssueTokens(who, Password, Some(username), Direct), e);
        r := IssueTokenPair(who, Password, Some(credential.username), Direct, e);
    }

    method LogIn(email: string, password: string, e: Env) returns (r: Result<AuthResponse, Error>)
      requires Wired()
      modifies token.server
      ensures Progress(token.server.db, Ended(r)) == Finish(old(token.server.db), LoginFind(email, password), e)
    {
      ghost var db0 := token.server.db;
      var found := user.FindByEmailAddress(email);
      ghost var p1 := AdvanceAccount(db0, LoginFind(email, password), e);
      assert Finish(db0, LoginFind(email, password), e) == Finish(p1.db, p1.pc, e);
      if found.None? {
        return Failure(InvalidCredentials);
      }
      var who := found.value;
      if !who.row.isActive {
        return Failure(AccountDisabled);
      }
      assert p1 == Progress(token.server.db, LoginCredential(who, password));
      ghost var p2 := AdvanceAccount(p1.db, p1.pc, e);
      assert Finish(p1.db, p1.pc, e) == Finish(p2.db, p2.pc, e);
      var credential := user.FindLocalCredential(who.id);
      if credential.None? {
        return Failure(InvalidCredentials);
      }
      if !Verify(password, credential.value.passwordHash) {
        return Failure(InvalidCredentials);
      }
      assert p2 == Progress(token.server.db, IssueTokens(who, Password, Some(credential.value.username), Direct));
      r := IssueTokenPair(who, Password, Some(credential.value.username), Direct, e);
    }

    method RefreshSession(raw: string, e: Env) returns (r: Result<AuthResponse, Error>)
      requires Wired()
      modifies token.server
      ensures Progress(token.server.db, Ended(r)) == Finish(old(token.server.db), RefreshSelect(raw), e)
    {
      ghost var db0 := token.server.db;
      var rotated := token.RotateRefreshToken(raw, e);
      if rotated.Failure? {
        return Failure(rotated.error);
      }
      var (renewed, userId) := rotated.value;
      var found := user.FindById(userId);
      if found.Failure? {
        return Failure(found.error);
      }
      var who := found.value;
      if !who.row.isActive {
        return Failure(AccountDisabled);
      }
      assert Finish(db0, RefreshSelect(raw), e) == Finish(token.server.db, RefreshCredential(who, renewed), e);
      ghost var db1 := token.server.db;
      var credential := user.FindLocalCredential(who.id);
      var claims := token.GenerateAccessToken(who, if credential.Some? then Password else OAuth);
      r := Success(AuthResponse(claims, renewed, if credential.Some? then Some(credential.value.username) else None));
      assert AdvanceRefresh(db1, RefreshCredential(who, renewed), e) == Progress(token.server.db, Ended(r));
      assert Finish(db1, RefreshCredential(who, renewed), e) == Finish(token.server.db, Ended(r), e);
    }

    method LogOut(userId: UserId, e: Env)
      requires Wired()
      modifies token.server
      ensures Progress(token.server.db, Done(Finished)) == Finish(old(token.server.db), RevokeSessions(userId), e)
      ensures SessionsEnded(old(token.server.db), token.server.db, userId)
    {
      token.RevokeAllUserTokens(userId);
    }

    method LoginOrRegisterOAuth(profile: Profile, e: Env) returns (r: Result<AuthResponse, Error>)
      requires Wired()
      requires forall x :: x in token.server.db.links ==> token.server.db.links[x].user < |token.server.db.users|
      modifies token.server
      ensures Finish(old(token.server.db), OAuthFindLink(profile), e)
              == Progress(token.server.db,
                          if r.Success? then CallbackStore(profile, r.value) else Done(Failed(r.error)))
    {
      ghost var db0 := token.server.db;
      var resolved := user.FindOrCreate(profile, e);
      if resolved.Failure? {
        return Failure(resolved.error);
      }
      var who := resolved.value;
      if !who.row.isActive {
        return Failure(AccountDisabled);
      }
      var credential := user.FindLocalCredential(who.id);
      var username := if credential.Some? then Some(credential.value.username) else None;
      assert Finish(db0, OAuthFindLink(profile), e)
          == Finish(token.server.db, IssueTokens(who, OAuth, username, ViaCallback(profile)), e);
      r := IssueTokenPair(who, OAuth, username, ViaCallback(profile), e);
    }
  }

  class AdminService {
    const user: UserService

    constructor (user: UserService)
      ensures this.user == user
    {
      this.user := user;
    }

    /** An admin may change any role but its own; the target gets exactly the role asked for. */
    method ChangeRole(claims: Claims, target: UserId, role: Role, e: Env) returns (r: Result<(), Error>)
      modifies user.server
      ensures Progress(user.server.db, Acknowledged(r))
              == Finish(old(user.server.db), Start(old(user.server.db).issued, UpdateUserRole(claims, target, role)), e)
      ensures r.Success? <==>
                && claims in old(user.server.db).issued && claims.role == Admin && claims.sub != target
                && target < |old(user.server.db).users|
      ensures r.Success? ==>
                user.server.db.users
                == old(user.server.db).users[target := old(user.server.db).users[target].(role := role)]
      ensures r.Failure? ==> user.server.db.users == old(user.server.db).users
    {
      var refusal := Refusal(user.server.db.issued, claims, Admin);
      if refusal.Some? {
        return Failure(refusal.value);
      }
      if claims.sub == target {
        return Failure(Forbidden);
      }
      var updated := user.AssignRole(claims.sub, target, role);
      r := if updated.Success? then Success(()) else Failure(updated.error);
    }
  }

  /** The guarded routes that act on the caller's own account. */
  class AccountRoutes {
    const user: UserService
    const token: TokenService

    ghost predicate Wired() {
      user.server == token.server
    }

    constructor (user: UserService, token: TokenService)
      requires user.server == token.server
      ensures this.user == user && this.token == token && Wired()
    {
      this.user := user;
      this.token := token;
    }

    /** Any issued access token will do; it ends all sessions of its user and nobody else's. */
    method LogoutRoute(claims: Claims, e: Env) returns (r: Result<(), Error>)
      requires Wired()
      modifies token.server
      ensures Progress(token.server.db, Acknowledged(r))
              == Finish(old(token.server.db), Start(old(token.server.db).issued, Logout(claims)), e)
      ensures if claims in old(token.server.db).issued
              then r.Success? && SessionsEnded(old(token.server.db), token.server.db, claims.sub)
              else r == Failure(TokenInvalid) && token.server.db == old(token.server.db)
    {
      var refusal := Refusal(token.server.db.issued, claims, Guest);
      if refusal.Some? {
        return Failure(refusal.value);
      }
      token.RevokeAllUserTokens(claims.sub);
      r := Success(());
    }

    method ChangePasswordRoute(claims: Claims, current: string, proposed: string, e: Env) returns (r: Result<(), Error>)
      requires Wired()
      modifies token.server
      ensures Progress(token.server.db, Acknowledged(r))
              == Finish(old(token.server.db),
                  Start(old(token.server.db).issued, ChangePassword(claims, current, proposed)), e)
      ensures r.Success? ==>
                && claims in old(token.server.db).issued && claims.role != Guest
                && SessionsEnded(old(token.server.db), token.server.db, claims.sub)
    {
      var refusal := Refusal(token.server.db.issued, claims, User);
      if refusal.Some? {
        return Failure(refusal.value);
      }
      var changed := user.ChangePassword(claims.sub, current, proposed, e);
      if changed.Failure? {
        return changed;
      }
      token.RevokeAllUserTokens(claims.sub);
      r := Success(());
    }

    method DeactivateAccountRoute(claims: Claims, e: Env) returns (r: Result<(), Error>)
      requires Wired()
      modifies token.server
      ensures Progress(token.server.db, Acknowledged(r))
              == Finish(old(token.server.db), Start(old(token.server.db).issued, DeactivateAccount(claims)), e)
      ensures if claims in old(token.server.db).issued && claims.role != Guest
              then r.Success? && SessionsEnded(old(token.server.db), token.server.db, claims.sub)
                   && (claims.sub < |token.server.db.users| ==> !token.server.db.users[claims.sub].isActive)
              else r.Failure? && token.server.db == old(token.server.db)
    {
      ghost var db0 := token.server.db;
      var refusal := Refusal(token.server.db.issued, claims, User);
      if refusal.Some? {
        return Failure(refusal.value);
      }
      user.SetInactive(claims.sub);
      assert Finish(db0, DeactivateUpdate(claims.sub), e) == Finish(token.server.db, RevokeSessions(claims.sub), e);
      token.RevokeAllUserTokens(claims.sub);
      r := Success(());
    }

    method UnlinkRoute(claims: Claims, slug: string, e: Env) returns (r: Result<(), Error>)
      requires Wired()
      modifies token.server
      ensures Progress(token.server.db, Acknowledged(r))
              == Finish(old(token.server.db), Start(old(token.server.db).issued, UnlinkConnection(claims, slug)), e)
      ensures r.Failure? ==> token.server.db.links == old(token.server.db).links
    {
      var refusal := Refusal(token.server.db.issued, claims, User);
      if refusal.Some? {
        return Failure(refusal.value);
      }
      var provider := FromSlug(slug);
      if provider.None? {
        return Failure(UnknownProvider);
      }
      r := user.UnlinkOAuthAccount(claims.sub, provider.value, e);
    }
  }
}

/** The two Valkey-backed components, over one shared server. */
module ValkeyServices {
  import opened Wrappers
  import opened Models
  import opened Keys
  import opened Valkey
  import OAuthStore
  import RateLimiting

  class ValkeyServer {
    var ks: Keyspace

    constructor ()
      ensures ks == map[]
    {
      ks := map[];
    }
  }

  class StateStore {
    const server: ValkeyServer

    constructor (server: ValkeyServer)
      ensures this.server == server
    {
      this.server := server;
    }

    method Insert(state: string, provider: Provider, verifier: string, now: nat, caller: nat)
      modifies server
      ensures server.ks == OAuthStore.Insert(old(server.ks), state, provider, verifier, now, caller)
      ensures forall later: nat :: later <= now + 600 ==>
                OAuthStore.Take(server.ks, state, provider, later).1 == Success(verifier)
    {
      var payload := StoredAuth(verifier, Slug(provider));
      server.ks := SetEx(server.ks, StateKey(state), Pending(payload), now, OAuthStore.STATE_TTL_SECS, caller);
    }

    method Take(state: string, expected: Provider, now: nat) returns (r: Result<string, Error>)
      modifies server
      ensures (server.ks, r) == OAuthStore.Take(old(server.ks), state, expected, now)
      ensures forall later: nat, p: Provider :: OAuthStore.Take(server.ks, state, p, later).1 == Failure(InvalidState)
      ensures forall k :: k in old(server.ks) && k != StateKey(state) ==>
              k in server.ks && server.ks[k] == old(server.ks)[k]
    {
      var (after, raw) := GetDel(server.ks, StateKey(state), now);
      server.ks := after;
      if raw.None? || !raw.value.value.Pending? {
        return Failure(InvalidState);
      }
      var stored := raw.value.value.auth;
      var actual := FromSlug(stored.provider);
      if actual.None? {
        return Failure(InvalidState);
      }
      if actual.value != expected {
        return Failure(ProviderMismatch(expected, actual.value));
      }
      r := Success(stored.verifier);
    }

    method StoreExchange(code: string, response: AuthResponse, now: nat, caller: nat)
      modifies server
      ensures server.ks == OAuthStore.StoreExchange(old(server.ks), code, response, now, caller)
      ensures forall later: nat :: later <= now + 120 ==>
              OAuthStore.TakeExchange(server.ks, code, later).1 == Success(response)
    {
      server.ks := SetEx(server.ks, ExchangeKey(code), Payload(response), now, OAuthStore.EXCHANGE_TTL_SECS, caller);
    }

    method TakeExchange(code: string, now: nat) returns (r: Result<AuthResponse, Error>)
      modifies server
      ensures (server.ks, r) == OAuthStore.TakeExchange(old(server.ks), code, now)
      ensures forall later: nat :: OAuthStore.TakeExchange(server.ks, code, later).1 == Failure(ExchangeCodeInvalid)
    {
      var (after, raw) := GetDel(server.ks, ExchangeKey(code), now);
      server.ks := after;
      if raw.None? || !raw.value.value.Payload? {
        return Failure(ExchangeCodeInvalid);
      }
      r := Success(raw.value.value.response);
    }
  }

  class RateLimiter {
    const server: ValkeyServer
    const limits: RateLimiting.Limits

    constructor (server: ValkeyServer, maxRequests: nat, windowSecs: nat)
      ensures this.server == server && limits == RateLimiting.Limits(maxRequests, windowSecs)
    {
      this.server := server;
      this.limits := RateLimiting.Limits(maxRequests, windowSecs);
    }

    /** INCR, then EXPIRE on the first count; `None` on a Valkey error. */
    method Increment(key: string, now: nat, fault: RateLimiting.Fault) returns (r: Option<nat>)
      modifies server
      ensures (server.ks, r) == RateLimiting.IncrAndExpire(old(server.ks), key, now, limits.size, fault)
      ensures forall k :: k != key ==>
              (k in server.ks <==> k in old(server.ks)) && (k in server.ks ==> server.ks[k] == old(server.ks)[k])
    {
      if fault == RateLimiting.BeforeIncr {
        return None;
      }
      var reply := Incr(server.ks, key, now);
      if reply.None? {
        return None;
      }
      var (after, count) := reply.value;
      server.ks := after;
      if fault == RateLimiting.AfterIncr {
        return None;
      }
      if count == 1 {
        if fault == RateLimiting.AtExpire {
          return None;
        }
        server.ks := Expire(server.ks, key, now, RateLimiting.Ttl(limits.size));
      }
      r := Some(count);
    }

    method Check(ip: string, endpoint: Endpoint, now: nat, fault: RateLimiting.Fault)
        returns (verdict: RateLimiting.Verdict)
      requires limits.size > 0
      modifies server
      ensures (server.ks, verdict) == RateLimiting.Check(old(server.ks), endpoint, ip, now, limits, fault)
      ensures fault == RateLimiting.BeforeIncr || fault == RateLimiting.AfterIncr ==>
              verdict == RateLimiting.Allowed(limits.max)
      ensures verdict.Rejected? && limits.size < 0x4000_0000_0000_0000 && now + limits.size < RateLimiting.U64 ==>
                && 1 <= verdict.retryAfter <= limits.size
                && now + verdict.retryAfter == (now / limits.size + 1) * limits.size
    {
      var window := RateLimiting.Window(now, limits.size);
      var count := Increment(RateKey(endpoint, ip, window), now, fault);
      if count.None? {
        return RateLimiting.Allowed(limits.max);
      }
      if count.value > limits.max {
        verdict := RateLimiting.Rejected(RateLimiting.RetryAfter(now, limits.size));
        if limits.size < 0x4000_0000_0000_0000 && now + limits.size < RateLimiting.U64 {
          RateLimiting.RetryFits(now, limits.size);
        }
      } else {
        verdict := RateLimiting.Allowed(limits.max - count.value);
      }
    }
  }
}

/** The OAuth routes of src/routes/auth.rs, over both servers. */
module OAuthRouteServices {
  import opened Wrappers
  import opened Models
  import opened Handlers
  import opened Atomic
  import opened Services
  import opened ValkeyServices
  import OAuthStore

  class OAuthRoutes {
    const auth: AuthService
    const store: StateStore

    constructor (auth: AuthService, store: StateStore)
      ensures this.auth == auth && this.store == store
    {
      this.auth := auth;
      this.store := store;
    }

    /** Redirects with a fresh state; for 600 s that state is worth its verifier, to its own provider alone. */
    method AuthorizeRoute(slug: string, e: Env, caller: nat) returns (r: Result<string, Error>)
      modifies store.server
      ensures FromSlug(slug).None? ==> r == Failure(UnknownProvider) && store.server.ks == old(store.server.ks)
      ensures FromSlug(slug).Some? ==>
                r == Success(e.state)
                && store.server.ks == OAuthStore.Insert(old(store.server.ks), e.state, FromSlug(slug).value,
                   e.verifier, e.now, caller)
      ensures r.Success? ==> forall p: Provider, later: nat :: later <= e.now + 600 ==>
                OAuthStore.Take(store.server.ks, r.value, p, later).1
                == if Some(p) == FromSlug(slug) then Success(e.verifier)
                    else Failure(ProviderMismatch(p, FromSlug(slug).value))
    {
      var provider := FromSlug(slug);
      if provider.None? {
        return Failure(UnknownProvider);
      }
      store.Insert(e.state, provider.value, e.verifier, e.now, caller);
      r := Success(e.state);
    }

    /** Consumes the state, then logs in, then stores the tokens under a one-time code. */
    method CallbackRoute(slug: string, denied: bool, code: Option<string>, state: Option<string>, e: Env, caller: nat)
      returns (r: Result<string, Error>)
      requires auth.Wired()
      requires forall x :: x in auth.token.server.db.links ==>
               auth.token.server.db.links[x].user < |auth.token.server.db.users|
      modifies store.server, auth.token.server
      ensures var (db0, ks0) := (old(auth.token.server.db), old(store.server.ks));
              var (db, ks) := (auth.token.server.db, store.server.ks);
              match Start(db0.issued, Callback(slug, denied, code, state))
              case CallbackTake(p, s) =>
                var (ks1, got) := OAuthStore.Take(ks0, s, p, e.now);
                if got.Failure? then r == Failure(got.error) && db == db0 && ks == ks1
                else if !e.providerAnswers then r == Failure(ProviderFailed) && db == db0 && ks == ks1
                else
                  var f := Finish(db0, OAuthFindLink(Profile(Identity(p, e.subject), e.email, e.displayName)), e);
                  db == f.db
                  && if f.pc.CallbackStore?
                     then r == Success(e.code)
                          && ks == OAuthStore.StoreExchange(ks1, e.code, f.pc.response, e.now, caller)
                     else r.Failure? && f.pc == Done(Failed(r.error)) && ks == ks1
              case early => r.Failure? && early == Done(Failed(r.error)) && db == db0 && ks == ks0
    {
      if denied {
        return Failure(ProviderDenied);
      }
      if code.None? || state.None? {
        return Failure(InvalidState);
      }
      var provider := FromSlug(slug);
      if provider.None? {
        return Failure(UnknownProvider);
      }
      var verifier := store.Take(state.value, provider.value, e.now);
      if verifier.Failure? {
        return Failure(verifier.error);
      }
      if !e.providerAnswers {
        return Failure(ProviderFailed);
      }
      var profile := Profile(Identity(provider.value, e.subject), e.email, e.displayName);
      var tokens := auth.LoginOrRegisterOAuth(profile, e);
      if tokens.Failure? {
        return Failure(tokens.error);
      }
      store.StoreExchange(e.code, tokens.value, e.now, caller);
      r := Success(e.code);
    }

    /** Hands out a stored response once. */
    method SessionRoute(code: string, now: nat) returns (r: Result<AuthResponse, Error>)
      modifies store.server
      ensures (store.server.ks, r) == OAuthStore.TakeExchange(old(store.server.ks), code, now)
      ensures forall later: nat ::
                OAuthStore.TakeExchange(store.server.ks, code, later).1 == Failure(ExchangeCodeInvalid)
    {
      r := store.TakeExchange(code, now);
    }
  }
}
