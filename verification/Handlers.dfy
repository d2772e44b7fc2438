/**
  Every handler as a resumable call: a program counter naming the next statement, the
  locals it still needs, and `Advance`, which runs that one statement. `Start` is the
  part of a handler before its first statement: extractors, validators and guards.
*/
module Handlers {
  import opened Wrappers
  import opened Models
  import opened Database

  datatype Request =
    | Register(email: string, username: string, password: string)
    | Login(email: string, password: string)
    | Refresh(raw: string)
    | Logout(claims: Claims)
    | ChangePassword(claims: Claims, current: string, proposed: string)
    | DeactivateAccount(claims: Claims)
    | UnlinkConnection(claims: Claims, slug: string)
    | UpdateUserRole(claims: Claims, target: UserId, role: Role)
    | Authorize(slug: string)
    | Callback(slug: string, denied: bool, code: Option<string>, state: Option<string>)
    | Session(exchangeCode: string)

  datatype Outcome =
    | Failed(error: Error)
    | Finished
    | Responded(response: AuthResponse)
    | Redirected(provider: Provider, state: string, verifier: string, at: nat)        // authorize
    | Stored(profile: Profile, response: AuthResponse, code: string, at: nat)          // callback
    | Opened(response: AuthResponse, origin: nat, at: nat)                             // session

  /** Who is waiting for issued tokens: the client itself, or the callback that will store them. */
  datatype Door = Direct | ViaCallback(profile: Profile)

  datatype Pc =
    | RegisterCreate(email: string, handle: string, password: string)
    | LoginFind(email: string, password: string)
    | LoginCredential(who: Snapshot, password: string)
    | IssueTokens(who: Snapshot, via: AuthMethod, username: Option<string>, door: Door)
    | RefreshSelect(raw: string)
    | RefreshRevokeAll(user: UserId)
    | RefreshUpdate(row: nat, user: UserId, selectedAt: nat)
    | RefreshInsert(row: nat, user: UserId, selectedAt: nat, updatedAt: nat)
    | RefreshFindUser(user: UserId, raw: string)
    | RefreshCredential(who: Snapshot, raw: string)
    | RevokeSessions(user: UserId)
    | PasswordSelect(user: UserId, current: string, proposed: string)
    | PasswordUpdate(user: UserId, proposed: string)
    | DeactivateUpdate(user: UserId)
    | UnlinkDelete(user: UserId, provider: Provider)
    | RoleUpdate(admin: UserId, target: UserId, role: Role)
    | AuthorizeInsert(provider: Provider)
    | CallbackTake(provider: Provider, state: string)
    | CallbackFetch(provider: Provider, verifier: string)
    | OAuthFindLink(profile: Profile)
    | OAuthFindEmail(profile: Profile)
    | OAuthCreate(profile: Profile)
    | OAuthLink(profile: Profile, who: Snapshot)
    | OAuthCredential(profile: Profile, who: Snapshot)
    | CallbackStore(profile: Profile, response: AuthResponse)
    | SessionTake(code: string)
    | Done(outcome: Outcome)

  /** What a statement may draw from outside: the clock, random values, the provider's answer. */
  datatype Env = Env(
    now: nat,
    refreshTtl: int,
    salt: nat,
    raw: string,
    state: string,
    verifier: string,
    code: string,
    subject: string,
    email: string,
    displayName: Option<string>,
    providerAnswers: bool)

  datatype Progress = Progress(db: Db, pc: Pc)

  /** The new secret collides with no row. */
  predicate FreshDraw(db: Db, e: Env) {
    forall i :: 0 <= i < |db.tokens| ==> db.tokens[i].lookupKey != Hmac(e.raw)
  }

  // ---- Before the first statement ----

  /** `AuthUser` then `require_role`: the first rejection, if any. */
  function Refusal(issued: set<Claims>, claims: Claims, minimum: Role): Option<Error> {
    if claims !in issued then Some(TokenInvalid)
    else if !claims.role.IsAtLeast(minimum) then Some(Forbidden)
    else None
  }

  function Guarded(issued: set<Claims>, claims: Claims, minimum: Role, next: Pc): Pc {
    var refusal := Refusal(issued, claims, minimum);
    if refusal.Some? then Done(Failed(refusal.value)) else next
  }

  function Start(issued: set<Claims>, request: Request): Pc {
    match request
    case Register(email, username, password) =>
      if |password| < 8 || |username| < 3 || |username| > 32 then Done(Failed(InvalidCredentials))
      else RegisterCreate(email, username, password)
    case Login(email, password) => LoginFind(email, password)
    case Refresh(raw) => RefreshSelect(raw)
    case Logout(claims) => Guarded(issued, claims, Guest, RevokeSessions(claims.sub))
    case ChangePassword(claims, current, proposed) =>
      Guarded(issued, claims, User, PasswordSelect(claims.sub, current, proposed))
    case DeactivateAccount(claims) => Guarded(issued, claims, User, DeactivateUpdate(claims.sub))
    case UnlinkConnection(claims, slug) =>
      Guarded(issued, claims, User,
              match FromSlug(slug)
              case None => Done(Failed(UnknownProvider))
              case Some(p) => UnlinkDelete(claims.sub, p))
    case UpdateUserRole(claims, target, role) =>
      Guarded(issued, claims, Admin,
              if claims.sub == target then Done(Failed(Forbidden)) else RoleUpdate(claims.sub, target, role))
    case Authorize(slug) =>
      (match FromSlug(slug)
       case None => Done(Failed(UnknownProvider))
       case Some(p) => AuthorizeInsert(p))
    case Callback(slug, denied, code, state) =>
      if denied then Done(Failed(ProviderDenied))
      else if code.None? || state.None? then Done(Failed(InvalidState))
      else (match FromSlug(slug)
            case None => Done(Failed(UnknownProvider))
            case Some(p) => CallbackTake(p, state.value))
    case Session(code) => SessionTake(code)
  }

  // ---- One statement ----

  function SnapshotOf(db: Db, u: UserId): Snapshot
    requires u < |db.users|
  {
    Snapshot(u, db.users[u])
  }

  function UsernameOf(db: Db, u: UserId): Option<string> {
    if u in db.locals then Some(db.locals[u].username) else None
  }

  /** After the user of an OAuth login is resolved: the activity check on the copy in hand. */
  function OAuthResolved(profile: Profile, who: Snapshot): Pc {
    if who.row.isActive then OAuthCredential(profile, who) else Done(Failed(AccountDisabled))
  }

  /** The calls whose next statement goes to Valkey or to the provider, not to Postgres. */
  predicate Outside(pc: Pc) {
    pc.AuthorizeInsert? || pc.CallbackTake? || pc.CallbackFetch? || pc.CallbackStore? || pc.SessionTake?
  }

  predicate Settled(pc: Pc) {
    pc.Done? || Outside(pc)
  }

  // The four groups of handlers that Postgres serves.

  predicate InRefresh(pc: Pc) {
    pc.RefreshSelect? || pc.RefreshRevokeAll? || pc.RefreshUpdate? || pc.RefreshInsert? || pc.RefreshFindUser?
        || pc.RefreshCredential?
  }

  predicate InOAuth(pc: Pc) {
    pc.OAuthFindLink? || pc.OAuthFindEmail? || pc.OAuthCreate? || pc.OAuthLink? || pc.OAuthCredential?
  }

  predicate InAccount(pc: Pc) {
    pc.RegisterCreate? || pc.LoginFind? || pc.LoginCredential? || pc.IssueTokens?
  }

  predicate InManage(pc: Pc) {
    pc.RevokeSessions? || pc.PasswordSelect? || pc.PasswordUpdate? || pc.DeactivateUpdate? || pc.UnlinkDelete?
        || pc.RoleUpdate?
  }

  /** The profile an OAuth login works on, from the provider's answer to the stored exchange entry. */
  function ProfileOf(pc: Pc): Option<Profile> {
    if InOAuth(pc) || pc.CallbackStore? then Some(pc.profile)
    else if pc.IssueTokens? && pc.door.ViaCallback? then Some(pc.door.profile)
    else if pc.Done? && pc.outcome.Stored? then Some(pc.outcome.profile)
    else None
  }

  /** Statements left at most, for a call running alone. */
  function Rank(pc: Pc): nat {
    match pc
    case RefreshSelect(_) => 5
    case RefreshUpdate(_, _, _) => 4
    case RefreshInsert(_, _, _, _) => 3
    case RefreshFindUser(_, _) => 2
    case RefreshCredential(_, _) => 1
    case RefreshRevokeAll(_) => 1
    case LoginFind(_, _) => 3
    case LoginCredential(_, _) => 2
    case IssueTokens(_, _, _, _) => 1
    case RegisterCreate(_, _, _) => 2
    case RevokeSessions(_) => 1
    case PasswordSelect(_, _, _) => 3
    case PasswordUpdate(_, _) => 2
    case DeactivateUpdate(_) => 2
    case UnlinkDelete(_, _) => 1
    case RoleUpdate(_, _, _) => 1
    case OAuthFindLink(_) => 6
    case OAuthFindEmail(_) => 5
    case OAuthCreate(_) => 4
    case OAuthLink(_, _) => 3
    case OAuthCredential(_, _) => 2
    case _ => 0
  }

  function AdvanceRefresh(db: Db, pc: Pc, e: Env): (r: Progress)
    requires InRefresh(pc)
    ensures Rank(r.pc) < Rank(pc)
  {
    match pc
    case RefreshSelect(raw) =>
      (match FindByLookupKey(db.tokens, Hmac(raw))
       case None => Progress(Read(db), Done(Failed(RefreshTokenInvalid)))
       case Some(i) =>
         var row := db.tokens[i];
         Progress(Read(db),
                  if row.revoked || row.expiresAt < e.now then RefreshRevokeAll(row.userId)
                  else if !Verify(raw, row.tokenHash) then Done(Failed(RefreshTokenInvalid))
                  else RefreshUpdate(i, row.userId, db.tick)))
    case RefreshRevokeAll(user) => Progress(RevokeAll(db, user), Done(Failed(RefreshTokenInvalid)))
    case RefreshUpdate(row, user, selectedAt) =>
        Progress(RevokeRow(db, row), RefreshInsert(row, user, selectedAt, db.tick))
    case RefreshInsert(row, user, selectedAt, updatedAt) =>
      (match InsertToken(db, user, e.raw, e.salt, e.now + e.refreshTtl, Rotation(row, selectedAt, updatedAt))
       case Failure(error) => Progress(Read(db), Done(Failed(error)))
       case Success(after) => Progress(after, RefreshFindUser(user, e.raw)))
    case RefreshFindUser(user, raw) =>
      Progress(Read(db),
               if user >= |db.users| then Done(Failed(UserNotFound))
               else if !db.users[user].isActive then Done(Failed(AccountDisabled))
               else RefreshCredential(SnapshotOf(db, user), raw))
    case RefreshCredential(who, raw) =>
      var claims := ClaimsOf(who, if who.id in db.locals then Password else OAuth);
      Progress(Issue(Read(db), claims), Done(Responded(AuthResponse(claims, raw, UsernameOf(db, who.id)))))
  }

  /** The display name of an account made from a profile: its own name, or its email's local part. */
  function OAuthName(profile: Profile): (name: string)
    ensures profile.displayName.Some? ==> name == profile.displayName.value
    ensures profile.displayName.None? ==> LocalPart(profile.email, name)
  {
    if profile.displayName.Some? then profile.displayName.value else UpToAt(profile.email)
  }

  function AdvanceOAuth(db: Db, pc: Pc, e: Env): (r: Progress)
    requires InOAuth(pc)
    ensures Rank(r.pc) < Rank(pc)
  {
    match pc
    case OAuthFindLink(profile) =>
      Progress(Read(db),
               if profile.identity in db.links && db.links[profile.identity].user < |db.users|
               then OAuthResolved(profile, SnapshotOf(db, db.links[profile.identity].user))
               else OAuthFindEmail(profile))
    case OAuthFindEmail(profile) =>
      Progress(Read(db),
               match FindByEmail(db.users, profile.email)
               case Some(u) => OAuthLink(profile, SnapshotOf(db, u))
               case None => OAuthCreate(profile))
    case OAuthCreate(profile) =>
      (match InsertUser(db, profile.email, OAuthName(profile))
       case Failure(error) => Progress(Read(db), Done(Failed(error)))
       case Success(after) =>
         Progress(after, OAuthLink(profile, SnapshotOf(after, |db.users|))))
    case OAuthLink(profile, who) => Progress(InsertLink(db, profile.identity, who.id), OAuthResolved(profile, who))
    case OAuthCredential(profile, who) =>
      Progress(Read(db), IssueTokens(who, OAuth, UsernameOf(db, who.id), ViaCallback(profile)))
  }

  function AdvanceAccount(db: Db, pc: Pc, e: Env): (r: Progress)
    requires InAccount(pc)
    ensures Rank(r.pc) < Rank(pc)
  {
    match pc
    case RegisterCreate(email, username, password) =>
      (match CreateLocal(db, email, UpToAt(email), username, Argon2(e.salt, password))
       case Failure(error) => Progress(Read(db), Done(Failed(error)))
       case Success(after) =>
         assert after.users == db.users + [UserRow(email, UpToAt(email), User, true)];
         Progress(after, IssueTokens(SnapshotOf(after, |db.users|), Password, Some(username), Direct)))
    case LoginFind(email, password) =>
      Progress(Read(db),
               match FindByEmail(db.users, email)
               case None => Done(Failed(InvalidCredentials))
               case Some(u) =>
                 if !db.users[u].isActive then Done(Failed(AccountDisabled))
                 else LoginCredential(SnapshotOf(db, u), password))
    case LoginCredential(who, password) =>
      Progress(Read(db),
               if who.id !in db.locals || !Verify(password, db.locals[who.id].passwordHash)
               then Done(Failed(InvalidCredentials))
               else IssueTokens(who, Password, Some(db.locals[who.id].username), Direct))
    case IssueTokens(who, via, username, door) =>
      var claims := ClaimsOf(who, via);
      (match InsertToken(db, who.id, e.raw, e.salt, e.now + e.refreshTtl, SignIn)
       case Failure(error) => Progress(Read(db), Done(Failed(error)))
       case Success(after) =>
         var response := AuthResponse(claims, e.raw, username);
         Progress(Issue(after, claims),
                  match door
                  case Direct => Done(Responded(response))
                  case ViaCallback(profile) => CallbackStore(profile, response)))
  }

  function AdvanceManage(db: Db, pc: Pc, e: Env): (r: Progress)
    requires InManage(pc)
    ensures Rank(r.pc) < Rank(pc)
  {
    match pc
    case RevokeSessions(user) => Progress(RevokeAll(db, user), Done(Finished))
    case PasswordSelect(user, current, proposed) =>
      Progress(Read(db),
               if user !in db.locals then Done(Failed(UserNotFound))
               else if !Verify(current, db.locals[user].passwordHash) then Done(Failed(InvalidCredentials))
               else PasswordUpdate(user, proposed))
    case PasswordUpdate(user, proposed) =>
      Progress(UpdatePassword(db, user, Argon2(e.salt, proposed)), RevokeSessions(user))
    case DeactivateUpdate(user) => Progress(Deactivate(db, user), RevokeSessions(user))
    case UnlinkDelete(user, p) =>
      if Linked(db, user, p) then Progress(DeleteLinks(db, user, p), Done(Finished))
      else Progress(Read(db), Done(Failed(UserNotFound)))
    case RoleUpdate(admin, target, role) =>
      if target < |db.users| then Progress(UpdateRole(db, admin, target, role), Done(Finished))
      else Progress(Read(db), Done(Failed(UserNotFound)))
  }

  function Advance(db: Db, pc: Pc, e: Env): (r: Progress)
    requires !Settled(pc)
    ensures Rank(r.pc) < Rank(pc)
  {
    if InRefresh(pc)
    then AdvanceRefresh(db, pc, e)
    else if InOAuth(pc)
    then AdvanceOAuth(db, pc, e)
    else if InAccount(pc)
    then AdvanceAccount(db, pc, e)
    else AdvanceManage(db, pc, e)
  }

  /** The statements that write `refresh_tokens`. */
  predicate WritesTokens(pc: Pc) {
    pc.IssueTokens? || pc.RefreshRevokeAll? || pc.RefreshUpdate? || pc.RefreshInsert? || pc.RevokeSessions?
  }

  lemma OthersLeaveTokens(db: Db, pc: Pc, e: Env)
    requires !Settled(pc)
    ensures var next := Advance(db, pc, e);
            && (!WritesTokens(pc) ==> next.db.tokens == db.tokens && next.db.cuts == db.cuts)
            && (next.pc.RefreshUpdate? ==> pc.RefreshSelect?)
            && (next.pc.RefreshInsert? ==> pc.RefreshUpdate?)
  {
  }

  /** A refresh writes no table but `refresh_tokens`, and becomes no other handler. */
  lemma RefreshLeavesAccounts(db: Db, pc: Pc, e: Env)
    requires InRefresh(pc)
    ensures var next := AdvanceRefresh(db, pc, e);
            && next.db.users == db.users && next.db.locals == db.locals && next.db.links == db.links
            && (InRefresh(next.pc) || next.pc.Done?)
  {
  }

  // ---- What a call knows between two statements ----

  /** A copy of a user's row agrees with the table, and an active copy was taken before any deactivation. */
  ghost predicate CopyOk(db: Db, who: Snapshot, begun: nat) {
    && who.id < |db.users|
    && who.row.email == db.users[who.id].email
    && who.row.displayName == db.users[who.id].displayName
    && (who.row.isActive ==> ActiveSince(db, who.id, begun))
  }

  /** If the user is inactive now, the call began before the deactivation. */
  ghost predicate ActiveSince(db: Db, user: UserId, begun: nat) {
    user in db.deactivatedAt ==> begun < db.deactivatedAt[user]
  }

  /** If the identity has been linked since before the call began, the call resolves to the linked user. */
  ghost predicate ResolvedOk(db: Db, profile: Profile, user: Option<UserId>, begun: nat) {
    profile.identity in db.links && db.links[profile.identity].since < begun ==>
      user == Some(db.links[profile.identity].user)
  }

  ghost predicate DoorOk(db: Db, door: Door, user: UserId, begun: nat) {
    door.ViaCallback? ==> ResolvedOk(db, door.profile, Some(user), begun)
  }

  ghost predicate ResponseOk(db: Db, response: AuthResponse, begun: nat) {
    response.claims in db.issued && ActiveSince(db, response.claims.sub, begun)
  }

  ghost predicate PcOk(db: Db, begun: nat, pc: Pc) {
    match pc
    case LoginCredential(who, _) => CopyOk(db, who, begun) && who.row.isActive
    case IssueTokens(who, via, _, door) =>
      CopyOk(db, who, begun) && who.row.isActive && (via == Password ==> who.id in db.locals)
          && DoorOk(db, door, who.id, begun)
    case RefreshUpdate(row, user, selectedAt) =>
      && row < |db.tokens| && db.tokens[row].userId == user
      && db.tokens[row].bornAt < selectedAt < db.tick
      && (db.tokens[row].revoked ==> selectedAt < db.tokens[row].revokedAt)
    case RefreshInsert(row, user, selectedAt, updatedAt) => OriginOk(db, user, Rotation(row, selectedAt, updatedAt))
    case RefreshFindUser(user, _) => user < |db.users|
    case RefreshCredential(who, _) => CopyOk(db, who, begun) && who.row.isActive
    case OAuthFindEmail(profile) => ResolvedOk(db, profile, None, begun)
    case OAuthCreate(profile) => ResolvedOk(db, profile, None, begun)
    case OAuthLink(profile, who) => CopyOk(db, who, begun) && ResolvedOk(db, profile, None, begun)
    case OAuthCredential(profile, who) =>
      CopyOk(db, who, begun) && who.row.isActive && ResolvedOk(db, profile, Some(who.id), begun)
    case CallbackStore(profile, response) =>
      ResponseOk(db, response, begun) && ResolvedOk(db, profile, Some(response.claims.sub), begun)
    case Done(Responded(response)) => ResponseOk(db, response, begun)
    case Done(Stored(profile, response, _, _)) =>
      ResponseOk(db, response, begun) && ResolvedOk(db, profile, Some(response.claims.sub), begun)
    case _ => true
  }

  lemma StartOk(db: Db, begun: nat, issued: set<Claims>, request: Request)
    ensures PcOk(db, begun, Start(issued, request))
  {
  }

  lemma CopyStable(a: Db, b: Db, who: Snapshot, begun: nat)
    requires UsersOk(a) && Evolves(a, b) && begun < a.tick && CopyOk(a, who, begun)
    ensures CopyOk(b, who, begun)
  {
    assert UserEvolves(a.users[who.id], b.users[who.id]);
  }

  lemma RotationStable(a: Db, b: Db, begun: nat, pc: Pc)
    requires TokensOk(a) && Evolves(a, b) && PcOk(a, begun, pc) && (pc.RefreshUpdate? || pc.RefreshInsert?)
    ensures PcOk(b, begun, pc)
  {
    assert RowEvolves(a.tokens[pc.row], b.tokens[pc.row], a.tick);
  }

  lemma PcOkStable(a: Db, b: Db, begun: nat, pc: Pc)
    requires DbInv(a) && DbInv(b) && Evolves(a, b) && begun < a.tick && PcOk(a, begun, pc)
    ensures PcOk(b, begun, pc)
  {
    match pc
    case RefreshUpdate(_, _, _) => RotationStable(a, b, begun, pc);
    case RefreshInsert(_, _, _, _) => RotationStable(a, b, begun, pc);
    case LoginCredential(who, _) => CopyStable(a, b, who, begun);
    case IssueTokens(who, _, _, _) => CopyStable(a, b, who, begun);
    case RefreshCredential(who, _) => CopyStable(a, b, who, begun);
    case OAuthLink(_, who) => CopyStable(a, b, who, begun);
    case OAuthCredential(_, who) => CopyStable(a, b, who, begun);
    case _ =>
  }

  /** What one statement of a call has to keep. */
  ghost predicate Keeps(db: Db, begun: nat, next: Progress) {
    DbInv(next.db) && Evolves(db, next.db) && PcOk(next.db, begun, next.pc)
  }

  lemma RefreshSelectKeeps(db: Db, begun: nat, pc: Pc, e: Env)
    requires DbInv(db) && begun < db.tick && pc.RefreshSelect?
    ensures Keeps(db, begun, AdvanceRefresh(db, pc, e))
  {
    ReadKeeps(db);
    var found := FindByLookupKey(db.tokens, Hmac(pc.raw));
    if found.Some? {
      assert RowOk(db, found.value);
    }
  }

  lemma RefreshUpdateKeeps(db: Db, begun: nat, pc: Pc, e: Env)
    requires DbInv(db) && begun < db.tick && pc.RefreshUpdate? && PcOk(db, begun, pc)
    ensures Keeps(db, begun, AdvanceRefresh(db, pc, e))
  {
    RevokeRowKeeps(db, pc.row);
    assert RowOk(db, pc.row);
  }

  lemma RefreshInsertKeeps(db: Db, begun: nat, pc: Pc, e: Env)
    requires DbInv(db) && begun < db.tick && pc.RefreshInsert? && PcOk(db, begun, pc)
    ensures Keeps(db, begun, AdvanceRefresh(db, pc, e))
  {
    var origin := Rotation(pc.row, pc.selectedAt, pc.updatedAt);
    if InsertToken(db, pc.user, e.raw, e.salt, e.now + e.refreshTtl, origin).Success? {
      InsertTokenKeeps(db, pc.user, e.raw, e.salt, e.now + e.refreshTtl, origin);
    } else {
      ReadKeeps(db);
    }
  }

  lemma RefreshCredentialKeeps(db: Db, begun: nat, pc: Pc, e: Env)
    requires DbInv(db) && begun < db.tick && pc.RefreshCredential? && PcOk(db, begun, pc)
    ensures Keeps(db, begun, AdvanceRefresh(db, pc, e))
  {
    ReadKeeps(db);
    var claims := ClaimsOf(pc.who, if pc.who.id in db.locals then Password else OAuth);
    IssueKeeps(Read(db), claims);
    EvolvesTransitive(db, Read(db), Issue(Read(db), claims));
  }

  lemma RefreshKeeps(db: Db, begun: nat, pc: Pc, e: Env)
    requires DbInv(db) && begun < db.tick && PcOk(db, begun, pc)
    requires InRefresh(pc)
    ensures Keeps(db, begun, AdvanceRefresh(db, pc, e))
  {
    match pc
    case RefreshSelect(_) => RefreshSelectKeeps(db, begun, pc, e);
    case RefreshRevokeAll(user) => RevokeAllKeeps(db, user);
    case RefreshUpdate(_, _, _) => RefreshUpdateKeeps(db, begun, pc, e);
    case RefreshInsert(_, _, _, _) => RefreshInsertKeeps(db, begun, pc, e);
    case RefreshFindUser(_, _) => ReadKeeps(db);
    case RefreshCredential(_, _) => RefreshCredentialKeeps(db, begun, pc, e);
  }

  lemma OAuthCreateKeeps(db: Db, begun: nat, pc: Pc, e: Env)
    requires DbInv(db) && begun < db.tick && pc.OAuthCreate? && PcOk(db, begun, pc)
    ensures Keeps(db, begun, AdvanceOAuth(db, pc, e))
  {
    var profile := pc.profile;
    if InsertUser(db, profile.email, OAuthName(profile)).Success? {
      InsertUserKeeps(db, profile.email, OAuthName(profile));
    } else {
      ReadKeeps(db);
    }
  }

  lemma OAuthLinkKeeps(db: Db, begun: nat, pc: Pc, e: Env)
    requires DbInv(db) && begun < db.tick && pc.OAuthLink? && PcOk(db, begun, pc)
    ensures Keeps(db, begun, AdvanceOAuth(db, pc, e))
  {
    var after := InsertLink(db, pc.profile.identity, pc.who.id);
    InsertLinkKeeps(db, pc.profile.identity, pc.who.id);
    PcOkStable(db, after, begun, pc);
  }

  lemma OAuthFindKeeps(db: Db, begun: nat, pc: Pc, e: Env)
    requires DbInv(db) && begun < db.tick && (pc.OAuthFindLink? || pc.OAuthFindEmail?) && PcOk(db, begun, pc)
    ensures Keeps(db, begun, AdvanceOAuth(db, pc, e))
  {
    ReadKeeps(db);
  }

  lemma OAuthKeeps(db: Db, begun: nat, pc: Pc, e: Env)
    requires DbInv(db) && begun < db.tick && PcOk(db, begun, pc)
    requires InOAuth(pc)
    ensures Keeps(db, begun, AdvanceOAuth(db, pc, e))
  {
    match pc
    case OAuthCreate(_) => OAuthCreateKeeps(db, begun, pc, e);
    case OAuthLink(_, _) => OAuthLinkKeeps(db, begun, pc, e);
    case OAuthCredential(_, _) => ReadKeeps(db);
    case _ => OAuthFindKeeps(db, begun, pc, e);
  }

  lemma RegisterCreateKeeps(db: Db, begun: nat, pc: Pc, e: Env)
    requires DbInv(db) && begun < db.tick && pc.RegisterCreate?
    ensures Keeps(db, begun, AdvanceAccount(db, pc, e))
  {
    var hash := Argon2(e.salt, pc.password);
    if CreateLocal(db, pc.email, UpToAt(pc.email), pc.handle, hash).Success? {
      CreateLocalKeeps(db, pc.email, UpToAt(pc.email), pc.handle, hash);
    } else {
      ReadKeeps(db);
    }
  }

  lemma CopyClaim(db: Db, who: Snapshot, via: AuthMethod, begun: nat)
    requires CopyOk(db, who, begun) && (via == Password ==> who.id in db.locals)
    ensures ClaimTrue(db, ClaimsOf(who, via))
  {
  }

  /** The INSERT and the signature of `issue_tokens`, for claims that are true. */
  lemma SignInKeeps(db: Db, claims: Claims, raw: string, salt: nat, expiresAt: int)
    requires DbInv(db) && ClaimTrue(db, claims) && InsertToken(db, claims.sub, raw, salt, expiresAt, SignIn).Success?
    ensures var after := Issue(InsertToken(db, claims.sub, raw, salt, expiresAt, SignIn).value, claims);
            DbInv(after) && Evolves(db, after)
  {
    var inserted := InsertToken(db, claims.sub, raw, salt, expiresAt, SignIn).value;
    InsertTokenKeeps(db, claims.sub, raw, salt, expiresAt, SignIn);
    IssueKeeps(inserted, claims);
    EvolvesTransitive(db, inserted, Issue(inserted, claims));
  }

  /** The tables after `issue_tokens`: the row and the claim, or neither. */
  lemma IssuedKeeps(db: Db, after: Db, claims: Claims, raw: string, salt: nat, expiresAt: int)
    requires DbInv(db) && ClaimTrue(db, claims)
    requires match InsertToken(db, claims.sub, raw, salt, expiresAt, SignIn)
             case Failure(_) => after == Read(db)
             case Success(inserted) => after == Issue(inserted, claims)
    ensures DbInv(after) && Evolves(db, after)
  {
    if InsertToken(db, claims.sub, raw, salt, expiresAt, SignIn).Success? {
      SignInKeeps(db, claims, raw, salt, expiresAt);
    } else {
      ReadKeeps(db);
    }
  }

  /** What the call hands on after `issue_tokens` is still sound. */
  lemma IssuedPc(db: Db, begun: nat, pc: Pc, e: Env)
    requires pc.IssueTokens? && PcOk(db, begun, pc)
    ensures PcOk(AdvanceAccount(db, pc, e).db, begun, AdvanceAccount(db, pc, e).pc)
  {
  }

  lemma IssueTokensKeeps(db: Db, begun: nat, pc: Pc, e: Env)
    requires DbInv(db) && begun < db.tick && pc.IssueTokens? && PcOk(db, begun, pc)
    ensures Keeps(db, begun, AdvanceAccount(db, pc, e))
  {
    CopyClaim(db, pc.who, pc.via, begun);
    IssuedKeeps(db, AdvanceAccount(db, pc, e).db, ClaimsOf(pc.who, pc.via), e.raw, e.salt, e.now + e.refreshTtl);
    IssuedPc(db, begun, pc, e);
  }

  lemma LoginKeeps(db: Db, begun: nat, pc: Pc, e: Env)
    requires DbInv(db) && begun < db.tick && (pc.LoginFind? || pc.LoginCredential?) && PcOk(db, begun, pc)
    ensures Keeps(db, begun, AdvanceAccount(db, pc, e))
  {
    ReadKeeps(db);
  }

  lemma AccountKeeps(db: Db, begun: nat, pc: Pc, e: Env)
    requires DbInv(db) && begun < db.tick && PcOk(db, begun, pc)
    requires InAccount(pc)
    ensures Keeps(db, begun, AdvanceAccount(db, pc, e))
  {
    match pc
    case RegisterCreate(_, _, _) => RegisterCreateKeeps(db, begun, pc, e);
    case IssueTokens(_, _, _, _) => IssueTokensKeeps(db, begun, pc, e);
    case _ => LoginKeeps(db, begun, pc, e);
  }

  lemma ManageKeeps(db: Db, begun: nat, pc: Pc, e: Env)
    requires DbInv(db) && begun < db.tick && PcOk(db, begun, pc)
    requires InManage(pc)
    ensures Keeps(db, begun, AdvanceManage(db, pc, e))
  {
    match pc
    case RevokeSessions(user) => RevokeAllKeeps(db, user);
    case PasswordSelect(_, _, _) => ReadKeeps(db);
    case PasswordUpdate(user, proposed) => UpdatePasswordKeeps(db, user, Argon2(e.salt, proposed));
    case DeactivateUpdate(user) => DeactivateKeeps(db, user);
    case UnlinkDelete(user, p) =>
      if Linked(db, user, p) {
        DeleteLinksKeeps(db, user, p);
      } else {
        ReadKeeps(db);
      }
    case RoleUpdate(admin, target, role) =>
      if target < |db.users| {
        UpdateRoleKeeps(db, admin, target, role);
      } else {
        ReadKeeps(db);
      }
  }

  /**
    Every statement of every handler, run from a consistent state, keeps the tables consistent
    and hands its call what the next one needs.
  */
  lemma AdvanceKeeps(db: Db, begun: nat, pc: Pc, e: Env)
    requires DbInv(db) && begun < db.tick && !Settled(pc) && PcOk(db, begun, pc)
    ensures Keeps(db, begun, Advance(db, pc, e))
  {
    if InRefresh(pc) {
      RefreshKeeps(db, begun, pc, e);
    } else if InOAuth(pc) {
      OAuthKeeps(db, begun, pc, e);
    } else if InAccount(pc) {
      AccountKeeps(db, begun, pc, e);
    } else {
      ManageKeeps(db, begun, pc, e);
    }
  }
}
