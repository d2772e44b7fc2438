/** What each operation answers and what it changes, run atomically, error by error. */
module OutcomeTheorems {
  import opened Wrappers
  import opened Models
  import opened Database
  import opened Handlers
  import opened Atomic
  import opened AtomicRotation
  import opened AccountTheorems

  /** The call failed with this error and left every table as it was. */
  ghost predicate Refused(db: Db, f: Progress, error: Error) {
    f.pc == Done(Failed(error)) && f.db == db.(tick := f.db.tick)
  }

  /** One unrevoked row of the user, for the secret drawn, at the end of the table. */
  ghost predicate SignedIn(a: Db, b: Db, u: UserId, e: Env) {
    && |b.tokens| == |a.tokens| + 1 && b.tokens[..|a.tokens|] == a.tokens
    && var row := b.tokens[|a.tokens|];
    && row.userId == u && row.tokenHash.text == e.raw && !row.revoked && row.origin.SignIn?
    && row.expiresAt == e.now + e.refreshTtl
  }

  /** The response names the user as the tables do, and carries the secret of its new row. */
  ghost predicate Answers(b: Db, u: UserId, via: AuthMethod, response: AuthResponse, e: Env) {
    && u < |b.users|
    && response.claims == Claims(u, b.users[u].email, b.users[u].displayName, b.users[u].role, via)
    && response.refreshToken == e.raw
    && response.username == (if u in b.locals then Some(b.locals[u].username) else None)
  }

  /** One session and one access token were added for the user, and the response carries both. */
  ghost predicate SessionOpened(a: Db, b: Db, u: UserId, via: AuthMethod, response: AuthResponse, e: Env) {
    && SignedIn(a, b, u, e) && b.issued == a.issued + {response.claims}
    && b.cuts == a.cuts && Answers(b, u, via, response, e)
  }

  /** Every unrevoked row of the user was revoked, and no other row touched. */
  ghost predicate SessionsEnded(a: Db, b: Db, u: UserId) {
    && |b.tokens| == |a.tokens|
    && forall i :: 0 <= i < |a.tokens| ==>
         if a.tokens[i].userId != u || a.tokens[i].revoked then b.tokens[i] == a.tokens[i]
         else b.tokens[i] == a.tokens[i].(revoked := true, revokedAt := b.tokens[i].revokedAt)
  }

  // ---- Sign-ins ----

  /** `issue_tokens` with a fresh secret. */
  lemma IssueFinishes(db: Db, pc: Pc, e: Env)
    requires pc.IssueTokens? && pc.who.id < |db.users| && FreshDraw(db, e)
    ensures var f := Finish(db, pc, e);
            var response := AuthResponse(ClaimsOf(pc.who, pc.via), e.raw, pc.username);
            && f.db == db.(tokens := f.db.tokens, issued := db.issued + {response.claims}, tick := f.db.tick)
            && SignedIn(db, f.db, pc.who.id, e)
            && f.pc == match pc.door
                       case Direct => Done(Responded(response))
                       case ViaCallback(profile) => CallbackStore(profile, response)
  {
    var next := AdvanceAccount(db, pc, e);
    assert FindByLookupKey(db.tokens, Hmac(e.raw)).None?;
    assert Finish(db, pc, e) == Finish(next.db, next.pc, e) == next;
  }

  /** The call responded with a session of the user, and no account changed. */
  ghost predicate LoggedIn(db: Db, f: Progress, u: UserId, via: AuthMethod, e: Env) {
    && f.pc.Done? && f.pc.outcome.Responded? && SessionOpened(db, f.db, u, via, f.pc.outcome.response, e)
    && f.db == db.(tokens := f.db.tokens, issued := f.db.issued, tick := f.db.tick)
  }

  lemma CredentialFinishes(db: Db, who: Snapshot, password: string, e: Env)
    requires who.id < |db.users| && who.row == db.users[who.id] && FreshDraw(db, e)
    ensures var f := Finish(db, LoginCredential(who, password), e);
            if who.id in db.locals && db.locals[who.id].passwordHash.text == password
            then LoggedIn(db, f, who.id, Password, e) else Refused(db, f, InvalidCredentials)
  {
    var next := AdvanceAccount(db, LoginCredential(who, password), e);
    assert Finish(db, LoginCredential(who, password), e) == Finish(next.db, next.pc, e);
    if next.pc.IssueTokens? {
      IssueFinishes(next.db, next.pc, e);
    }
  }

  lemma LoginFinishes(db: Db, email: string, password: string, e: Env)
    requires FreshDraw(db, e)
    ensures var f := Finish(db, LoginFind(email, password), e);
            match FindByEmail(db.users, email)
            case None => Refused(db, f, InvalidCredentials)
            case Some(u) =>
              if !db.users[u].isActive then Refused(db, f, AccountDisabled)
              else if u in db.locals && db.locals[u].passwordHash.text == password
              then LoggedIn(db, f, u, Password, e) else Refused(db, f, InvalidCredentials)
  {
    var next := AdvanceAccount(db, LoginFind(email, password), e);
    assert Finish(db, LoginFind(email, password), e) == Finish(next.db, next.pc, e);
    if next.pc.LoginCredential? {
      CredentialFinishes(next.db, next.pc.who, password, e);
    }
  }

  /**
    A login of an unknown email, or with a missing or wrong password, answers InvalidCredentials;
    of an inactive user AccountDisabled, whatever the password; otherwise it opens a session.
  */
  lemma LoginOutcome(db: Db, email: string, password: string, e: Env)
    requires FreshDraw(db, e)
    ensures var f := Apply(db, Op(Login(email, password), e));
            match FindByEmail(db.users, email)
            case None => Refused(db, f, InvalidCredentials)
            case Some(u) =>
              if !db.users[u].isActive then Refused(db, f, AccountDisabled)
              else if u in db.locals && db.locals[u].passwordHash.text == password
              then LoggedIn(db, f, u, Password, e) else Refused(db, f, InvalidCredentials)
  {
    LoginFinishes(Read(db), email, password, e);
  }

  /** The user and credential rows of a registration: the name is the email's local part. */
  ghost predicate Registered(a: Db, b: Db, email: string, username: string, password: string) {
    && b.users == a.users + [UserRow(email, UpToAt(email), User, true)]
    && |a.users| in b.locals && b.locals == a.locals[|a.users| := b.locals[|a.users|]]
    && b.locals[|a.users|].username == username && b.locals[|a.users|].passwordHash.text == password
    && b == a.(users := b.users, locals := b.locals, tokens := b.tokens, issued := b.issued, tick := b.tick)
  }

  predicate ValidFields(username: string, password: string) {
    |password| >= 8 && 3 <= |username| <= 32
  }

  /** The INSERTs of a registration, then its tokens. */
  lemma CreateFinishes(db: Db, email: string, username: string, password: string, e: Env)
    requires DbInv(db) && FreshDraw(db, e) && ValidFields(username, password)
    requires !EmailUsed(db, email) && !DisplayNameUsed(db, UpToAt(email)) && !UsernameUsed(db, username)
    ensures var f := Finish(db, RegisterCreate(email, username, password), e);
            && Registered(db, f.db, email, username, password) && f.pc.Done? && f.pc.outcome.Responded?
            && SessionOpened(db, f.db, |db.users|, Password, f.pc.outcome.response, e)
  {
    var pc := RegisterCreate(email, username, password);
    var next := Advance(db, pc, e);
    CreateIsAllOrNothing(db, pc, e);
    assert Finish(db, pc, e) == Finish(next.db, next.pc, e);
    IssueFinishes(next.db, next.pc, e);
  }

  lemma CreateRefused(db: Db, email: string, username: string, password: string, e: Env)
    requires DbInv(db)
    requires EmailUsed(db, email) || DisplayNameUsed(db, UpToAt(email)) || UsernameUsed(db, username)
    ensures Refused(db, Finish(db, RegisterCreate(email, username, password), e),
                    if EmailUsed(db, email) then EmailTaken
                    else if DisplayNameUsed(db, UpToAt(email)) then DatabaseFailed
                    else UsernameTaken)
  {
    var pc := RegisterCreate(email, username, password);
    var next := Advance(db, pc, e);
    CreateIsAllOrNothing(db, pc, e);
    assert Finish(db, pc, e) == Finish(next.db, next.pc, e) == next;
  }

  /**
    A registration with bad fields answers InvalidCredentials; with a used email, name or
    username that constraint's error, in this order; otherwise it adds one active ordinary user
    named after its email, the credential, and a session of that user.
  */
  lemma RegisterOutcome(db: Db, email: string, username: string, password: string, e: Env)
    requires DbInv(db) && FreshDraw(db, e)
    ensures var f := Apply(db, Op(Register(email, username, password), e));
            var name := UpToAt(email);
            && LocalPart(email, name)
            && if !ValidFields(username, password) then Refused(db, f, InvalidCredentials)
               else if EmailUsed(db, email) then Refused(db, f, EmailTaken)
               else if DisplayNameUsed(db, name) then Refused(db, f, DatabaseFailed)
               else if UsernameUsed(db, username) then Refused(db, f, UsernameTaken)
               else
                 && Registered(db, f.db, email, username, password) && f.pc.Done? && f.pc.outcome.Responded?
                 && SessionOpened(db, f.db, |db.users|, Password, f.pc.outcome.response, e)
  {
    ReadKeeps(db);
    if !ValidFields(username, password) {
    } else if EmailUsed(db, email) || DisplayNameUsed(db, UpToAt(email)) || UsernameUsed(db, username) {
      CreateRefused(Read(db), email, username, password, e);
    } else {
      CreateFinishes(Read(db), email, username, password, e);
    }
  }

  // ---- OAuth logins ----

  /** The link row of the identity, new or not, leads to this user; the other links are untouched. */
  ghost predicate LinkedTo(a: Db, b: Db, x: Identity, u: UserId) {
    x in b.links && b.links == a.links[x := b.links[x]] && b.links[x].user == u && (x in a.links ==> b.links == a.links)
  }

  /** Tokens of the user are ready to be stored, or it is refused as inactive; no user or credential changed. */
  ghost predicate Admitted(db: Db, f: Progress, profile: Profile, u: UserId, e: Env) {
    && u < |db.users| && LinkedTo(db, f.db, profile.identity, u)
    && if db.users[u].isActive
       then f.pc.CallbackStore? && f.pc.profile == profile && SessionOpened(db, f.db, u, OAuth, f.pc.response, e)
            && f.db == db.(links := f.db.links, tokens := f.db.tokens, issued := f.db.issued, tick := f.db.tick)
       else f.pc == Done(Failed(AccountDisabled)) && f.db == db.(links := f.db.links, tick := f.db.tick)
  }

  /** The same for a user made from the profile, who is active. */
  ghost predicate Created(db: Db, f: Progress, profile: Profile, e: Env) {
    && f.db.users == db.users + [UserRow(profile.email, OAuthName(profile), User, true)]
    && LinkedTo(db, f.db, profile.identity, |db.users|)
    && f.pc.CallbackStore? && f.pc.profile == profile && SessionOpened(db, f.db, |db.users|, OAuth, f.pc.response, e)
    && f.db == db.(users := f.db.users, links := f.db.links, tokens := f.db.tokens, issued := f.db.issued,
                   tick := f.db.tick)
  }

  lemma OAuthTail(db: Db, profile: Profile, who: Snapshot, e: Env)
    requires who.id < |db.users| && who.row == db.users[who.id] && FreshDraw(db, e)
    requires profile.identity in db.links && db.links[profile.identity].user == who.id
    ensures Admitted(db, Finish(db, OAuthResolved(profile, who), e), profile, who.id, e)
  {
    if who.row.isActive {
      var p1 := AdvanceOAuth(db, OAuthCredential(profile, who), e);
      assert Finish(db, OAuthResolved(profile, who), e) == Finish(p1.db, p1.pc, e);
      IssueFinishes(p1.db, p1.pc, e);
    }
  }

  lemma OAuthLinkTail(db: Db, profile: Profile, who: Snapshot, e: Env)
    requires who.id < |db.users| && who.row == db.users[who.id] && FreshDraw(db, e) && profile.identity !in db.links
    ensures Admitted(db, Finish(db, OAuthLink(profile, who), e), profile, who.id, e)
  {
    var p1 := AdvanceOAuth(db, OAuthLink(profile, who), e);
    OAuthTail(p1.db, profile, who, e);
    assert Finish(db, OAuthLink(profile, who), e) == Finish(p1.db, p1.pc, e);
  }

  lemma OAuthCreates(db: Db, profile: Profile, e: Env)
    requires FreshDraw(db, e) && !EmailUsed(db, profile.email) && profile.identity !in db.links
    ensures var f := Finish(db, OAuthCreate(profile), e);
            if DisplayNameUsed(db, OAuthName(profile)) then Refused(db, f, DatabaseFailed)
                else Created(db, f, profile, e)
  {
    var p1 := AdvanceOAuth(db, OAuthCreate(profile), e);
    assert Finish(db, OAuthCreate(profile), e) == Finish(p1.db, p1.pc, e);
    if !p1.pc.Done? {
      OAuthLinkTail(p1.db, profile, p1.pc.who, e);
    }
  }

  /** The user an OAuth login resolves to among the existing ones. */
  function Resolved(db: Db, profile: Profile): Option<UserId> {
    if profile.identity in db.links then Some(db.links[profile.identity].user) else FindByEmail(db.users, profile.email)
  }

  /** After the identity was not found: by email, or a new user. */
  lemma OAuthUnlinked(db: Db, profile: Profile, e: Env)
    requires FreshDraw(db, e) && profile.identity !in db.links
    ensures var f := Finish(db, OAuthFindEmail(profile), e);
            match FindByEmail(db.users, profile.email)
            case Some(u) => Admitted(db, f, profile, u, e)
            case None =>
              if DisplayNameUsed(db, OAuthName(profile)) then Refused(db, f, DatabaseFailed)
                  else Created(db, f, profile, e)
  {
    var next := AdvanceOAuth(db, OAuthFindEmail(profile), e);
    assert Finish(db, OAuthFindEmail(profile), e) == Finish(next.db, next.pc, e);
    if next.pc.OAuthLink? {
      OAuthLinkTail(next.db, profile, next.pc.who, e);
    } else {
      OAuthCreates(next.db, profile, e);
    }
  }

  /**
    An OAuth login resolves by identity, then by email; the identity ends linked to that user,
    active or not, and an active one gets a session. A stranger becomes a new active ordinary
    user, named by its profile or else by its email, unless that name is used.
  */
  lemma OAuthOutcome(db: Db, profile: Profile, e: Env)
    requires CredentialsOk(db) && FreshDraw(db, e)
    ensures var f := Apply(db, OAuthLogin(profile, e));
            match Resolved(db, profile)
            case Some(u) => Admitted(db, f, profile, u, e)
            case None =>
              if DisplayNameUsed(db, OAuthName(profile)) then Refused(db, f, DatabaseFailed)
                  else Created(db, f, profile, e)
    ensures profile.displayName.Some? ==> OAuthName(profile) == profile.displayName.value
    ensures profile.displayName.None? ==> LocalPart(profile.email, OAuthName(profile))
  {
    var db0 := Begun(db, OAuthLogin(profile, e));
    var next := AdvanceOAuth(db0, OAuthFindLink(profile), e);
    assert Apply(db, OAuthLogin(profile, e)) == Finish(next.db, next.pc, e);
    if profile.identity in db.links {
      OAuthTail(next.db, profile, SnapshotOf(db, db.links[profile.identity].user), e);
    } else {
      OAuthUnlinked(next.db, profile, e);
    }
  }

  // ---- Refreshes ----

  ghost predicate Dead(db: Db, i: nat, now: nat)
    requires i < |db.tokens|
  {
    db.tokens[i].revoked || db.tokens[i].expiresAt < now
  }

  /** A token no row was made from. */
  predicate Unknown(db: Db, raw: string) {
    forall i :: 0 <= i < |db.tokens| ==> db.tokens[i].tokenHash.text != raw
  }

  lemma UnknownFinishes(db: Db, raw: string, e: Env)
    requires TokensOk(db) && Unknown(db, raw)
    ensures Refused(db, Finish(db, RefreshSelect(raw), e), RefreshTokenInvalid)
  {
    forall i | 0 <= i < |db.tokens| ensures db.tokens[i].lookupKey != Hmac(raw) {
      assert RowOk(db, i);
    }
    var next := AdvanceRefresh(db, RefreshSelect(raw), e);
    assert Finish(db, RefreshSelect(raw), e) == Finish(next.db, next.pc, e) == next;
  }

  /** An unknown token is refused and nothing is written. */
  lemma UnknownTokenOutcome(db: Db, raw: string, e: Env)
    requires DbInv(db) && Unknown(db, raw)
    ensures Refused(db, Apply(db, Op(Refresh(raw), e)), RefreshTokenInvalid)
  {
    ReadKeeps(db);
    UnknownFinishes(Read(db), raw, e);
  }

  /** A revoked or expired one is refused, ends all sessions of its user, and touches nothing else. */
  lemma DeadTokenOutcome(db: Db, raw: string, e: Env, i: nat)
    requires DbInv(db) && i < |db.tokens| && db.tokens[i].tokenHash.text == raw && Dead(db, i, e.now)
    ensures var f := Apply(db, Op(Refresh(raw), e));
            && f.pc == Done(Failed(RefreshTokenInvalid)) && SessionsEnded(db, f.db, db.tokens[i].userId)
            && f.db == db.(tokens := f.db.tokens, cuts := f.db.cuts, tick := f.db.tick)
  {
    ReadKeeps(db);
    ReplayRevokesAll(Read(db), raw, e, i);
  }

  /** A live one is revoked and replaced by one row of the same user; an active user gets it with a new access token. */
  lemma LiveTokenOutcome(db: Db, raw: string, e: Env, i: nat)
    requires DbInv(db) && i < |db.tokens| && db.tokens[i].tokenHash.text == raw && !Dead(db, i, e.now)
    requires FreshDraw(db, e)
    ensures var f := Apply(db, Op(Refresh(raw), e));
            var u := db.tokens[i].userId;
            && Rotated(db, f.db, i, e) && u < |db.users|
            && f.db == db.(tokens := f.db.tokens, issued := f.db.issued, tick := f.db.tick)
            && if db.users[u].isActive
               then f.pc.Done? && f.pc.outcome.Responded?
                    && Answers(db, u, if u in db.locals then Password else OAuth, f.pc.outcome.response, e)
                    && f.db.issued == db.issued + {f.pc.outcome.response.claims}
               else f.pc == Done(Failed(AccountDisabled)) && f.db.issued == db.issued
  {
    ReadKeeps(db);
    RefreshUnfolds(Read(db), raw, e, i);
  }

  /** Row `i` was revoked, the other rows kept, and one unrevoked successor of the same user added. */
  ghost predicate Rotated(a: Db, b: Db, i: nat, e: Env)
    requires i < |a.tokens|
  {
    && |b.tokens| == |a.tokens| + 1
    && (forall k :: 0 <= k < |a.tokens| && k != i ==> b.tokens[k] == a.tokens[k])
    && b.tokens[i] == a.tokens[i].(revoked := true, revokedAt := b.tokens[i].revokedAt)
    && var row := b.tokens[|a.tokens|];
    && row.userId == a.tokens[i].userId && row.tokenHash.text == e.raw && !row.revoked
    && row.expiresAt == e.now + e.refreshTtl && row.origin.Rotation? && row.origin.parent == i
  }

  // ---- Guarded requests ----

  /** The least role a guarded request asks for. */
  function Needs(request: Request): Option<Role> {
    match request
    case Logout(_) => Some(Guest)
    case ChangePassword(_, _, _) => Some(User)
    case DeactivateAccount(_) => Some(User)
    case UnlinkConnection(_, _) => Some(User)
    case UpdateUserRole(_, _, _) => Some(Admin)
    case _ => None
  }

  predicate Suffices(role: Role, least: Role) {
    least == Guest || role == least || role == Admin
  }

  /** Without an issued access token, or without the role, a guarded request changes nothing. */
  lemma GuardOutcome(db: Db, request: Request, e: Env)
    requires Needs(request).Some?
    ensures var f := Apply(db, Op(request, e));
            && (request.claims !in db.issued ==> Refused(db, f, TokenInvalid))
            && (request.claims in db.issued && !Suffices(request.claims.role, Needs(request).value) ==>
                  Refused(db, f, Forbidden))
  {
  }

  /** The access token is good for the request. */
  predicate Good(db: Db, request: Request)
    requires Needs(request).Some?
  {
    request.claims in db.issued && Suffices(request.claims.role, Needs(request).value)
  }

  lemma RevokeFinishes(db: Db, u: UserId, e: Env)
    ensures var f := Finish(db, RevokeSessions(u), e);
            && f.pc == Done(Finished) && SessionsEnded(db, f.db, u)
            && f.db == db.(tokens := f.db.tokens, cuts := f.db.cuts, tick := f.db.tick)
  {
    var last := AdvanceManage(db, RevokeSessions(u), e);
    assert Finish(db, RevokeSessions(u), e) == Finish(last.db, last.pc, e) == last;
  }

  /** Any issued access token logs its user out, whatever its role: all the user's sessions end, nobody else's. */
  lemma LogoutOutcome(db: Db, claims: Claims, e: Env)
    requires claims in db.issued
    ensures var f := Apply(db, Op(Logout(claims), e));
            && f.pc == Done(Finished) && SessionsEnded(db, f.db, claims.sub)
            && f.db == db.(tokens := f.db.tokens, cuts := f.db.cuts, tick := f.db.tick)
  {
    RevokeFinishes(Read(db), claims.sub, e);
  }

  lemma PasswordFinishes(db: Db, u: UserId, current: string, proposed: string, e: Env)
    ensures var f := Finish(db, PasswordSelect(u, current, proposed), e);
            if u !in db.locals then Refused(db, f, UserNotFound)
            else if db.locals[u].passwordHash.text != current then Refused(db, f, InvalidCredentials)
            else PasswordChanged(db, f, u, proposed)
  {
    var p1 := AdvanceManage(db, PasswordSelect(u, current, proposed), e);
    assert Finish(db, PasswordSelect(u, current, proposed), e) == Finish(p1.db, p1.pc, e);
    if p1.pc.PasswordUpdate? {
      var p2 := AdvanceManage(p1.db, p1.pc, e);
      assert Finish(p1.db, p1.pc, e) == Finish(p2.db, p2.pc, e);
      RevokeFinishes(p2.db, u, e);
    }
  }

  /** The user's hash verifies the new password, its username is kept, and all its sessions have ended. */
  ghost predicate PasswordChanged(db: Db, f: Progress, u: UserId, proposed: string) {
    && f.pc == Done(Finished) && SessionsEnded(db, f.db, u)
    && u in db.locals && u in f.db.locals && f.db.locals == db.locals[u := f.db.locals[u]]
    && f.db.locals[u].username == db.locals[u].username && f.db.locals[u].passwordHash.text == proposed
    && f.db == db.(locals := f.db.locals, tokens := f.db.tokens, cuts := f.db.cuts, tick := f.db.tick)
  }

  /** A user without a password is not found, and a wrong current password is refused. */
  lemma PasswordOutcome(db: Db, claims: Claims, current: string, proposed: string, e: Env)
    requires Good(db, ChangePassword(claims, current, proposed))
    ensures var f := Apply(db, Op(ChangePassword(claims, current, proposed), e));
            var u := claims.sub;
            if u !in db.locals then Refused(db, f, UserNotFound)
            else if db.locals[u].passwordHash.text != current then Refused(db, f, InvalidCredentials)
            else PasswordChanged(db, f, u, proposed)
  {
    PasswordFinishes(Read(db), claims.sub, current, proposed, e);
  }

  /** The user becomes inactive, all its sessions end, and nothing else changes. */
  lemma DeactivateOutcome(db: Db, claims: Claims, e: Env)
    requires DbInv(db) && Good(db, DeactivateAccount(claims))
    ensures var f := Apply(db, Op(DeactivateAccount(claims), e));
            var u := claims.sub;
            && f.pc == Done(Finished) && SessionsEnded(db, f.db, u)
            && u < |db.users| && f.db.users == db.users[u := db.users[u].(isActive := false)]
            && f.db == db.(users := f.db.users, deactivatedAt := f.db.deactivatedAt, tokens := f.db.tokens,
                           cuts := f.db.cuts, tick := f.db.tick)
  {
    assert ClaimTrue(db, claims);
    var p1 := AdvanceManage(Read(db), DeactivateUpdate(claims.sub), e);
    assert Finish(Read(db), DeactivateUpdate(claims.sub), e) == Finish(p1.db, p1.pc, e);
    RevokeFinishes(p1.db, claims.sub, e);
  }

  /** An unknown provider and one that is not linked are refused; otherwise exactly the user's links to it go. */
  lemma UnlinkOutcome(db: Db, claims: Claims, slug: string, e: Env)
    requires Good(db, UnlinkConnection(claims, slug))
    ensures var f := Apply(db, Op(UnlinkConnection(claims, slug), e));
            && (slug != "google" && slug != "github" ==> Refused(db, f, UnknownProvider))
            && forall p: Provider :: slug == Slug(p) ==>
                 if !Linked(db, claims.sub, p) then Refused(db, f, UserNotFound)
                 else
                   && f.pc == Done(Finished) && f.db == db.(links := f.db.links, tick := f.db.tick)
                   && (forall x :: x in f.db.links <==>
                         x in db.links && !(db.links[x].user == claims.sub && x.provider == p))
                   && (forall x :: x in f.db.links ==> f.db.links[x] == db.links[x])
  {
    if FromSlug(slug).Some? {
      var pc := UnlinkDelete(claims.sub, FromSlug(slug).value);
      var last := AdvanceManage(Read(db), pc, e);
      assert Finish(Read(db), pc, e) == Finish(last.db, last.pc, e) == last;
    }
  }

  /**
    An admin may not change its own role; an unknown target is reported; otherwise exactly the
    target's role is set.
  */
  lemma RoleOutcome(db: Db, claims: Claims, target: UserId, role: Role, e: Env)
    requires Good(db, UpdateUserRole(claims, target, role))
    ensures var f := Apply(db, Op(UpdateUserRole(claims, target, role), e));
            if target == claims.sub then Refused(db, f, Forbidden)
            else if target >= |db.users| then Refused(db, f, UserNotFound)
            else
              && f.pc == Done(Finished) && f.db.users == db.users[target := db.users[target].(role := role)]
              && f.db == db.(users := f.db.users, grants := f.db.grants, tick := f.db.tick)
              && f.db.grants == if role == Admin then db.grants + [Grant(claims.sub, target)] else db.grants
  {
    if target != claims.sub {
      var pc := RoleUpdate(claims.sub, target, role);
      var last := AdvanceManage(Read(db), pc, e);
      assert Finish(Read(db), pc, e) == Finish(last.db, last.pc, e) == last;
    }
  }

  /** What the OAuth routes refuse before they touch anything. */
  lemma RouteRefusals(db: Db, slug: string, denied: bool, code: Option<string>, state: Option<string>, e: Env)
    ensures slug != "google" && slug != "github" ==>
              Refused(db, Apply(db, Op(Authorize(slug), e)), UnknownProvider)
    ensures var f := Apply(db, Op(Callback(slug, denied, code, state), e));
            && (denied ==> Refused(db, f, ProviderDenied))
            && (!denied && (code.None? || state.None?) ==> Refused(db, f, InvalidState))
            && (!denied && code.Some? && state.Some? && slug != "google" && slug != "github" ==>
                  Refused(db, f, UnknownProvider))
  {
  }
}

/** Whole journeys of the service: what must succeed, next to what can only succeed so. */
module JourneyTheorems {
  import opened Wrappers
  import opened Models
  import opened Database
  import opened Handlers
  import opened Machine
  import opened Keys
  import opened Atomic
  import opened AccountTheorems
  import OAuthStore

  /** The callback's last step: its response waits under the code drawn. */
  lemma StoreRuns(s: State, c: CallId, e: Env) returns (t: State)
    requires c in s.calls && s.calls[c].pc.CallbackStore? && s.now <= e.now
    ensures t == Next(s, Run(c, e)) && t.db == s.db && t.now == e.now && t.calls.Keys == s.calls.Keys
    ensures forall at: nat :: at <= e.now + 120 ==>
              OAuthStore.TakeExchange(t.valkey, e.code, at).1 == Success(s.calls[c].pc.response)
    ensures t.valkey == OAuthStore.StoreExchange(s.valkey, e.code, s.calls[c].pc.response, e.now, c)
  {
    t := Next(s, Run(c, e));
  }

  /** A session asking for a stored code in time opens its response. */
  lemma SessionRuns(s: State, d: CallId, code: string, response: AuthResponse, e: Env) returns (t: State)
    requires d !in s.calls && s.now <= e.now && OAuthStore.TakeExchange(s.valkey, code, e.now).1 == Success(response)
    ensures t == Next(Next(s, Begin(d, Session(code))), Run(d, e)) && t.db == Read(s.db)
    ensures d in t.calls && t.calls[d].pc.Done? && t.calls[d].pc.outcome.Opened?
            && t.calls[d].pc.outcome.response == response
    ensures OAuthStore.TakeExchange(t.valkey, code, e.now).1.Failure?
  {
    var mid := Next(s, Begin(d, Session(code)));
    assert mid.calls[d].pc == SessionTake(code);
    t := Next(mid, Run(d, e));
  }

  /**
    From every state, a browser that goes through authorize, callback and, within 120 s, session
    ends with the tokens of the user its profile belongs to, whenever that login is delivered.
  */
  lemma OAuthJourney(s: State, profile: Profile, e: Env, store: Env, session: Env) returns (run: seq<Label>, d: CallId)
    requires Delivered(Apply(s.db, OAuthLogin(profile, e)).pc).Some?
    requires s.now <= e.now <= store.now <= session.now <= store.now + 120
    ensures var f := Apply(s.db, OAuthLogin(profile, e));
            var t := Exec(s, run);
            && t.db == Read(f.db) && d in t.calls && t.calls[d].pc.Done? && t.calls[d].pc.outcome.Opened?
            && Some(t.calls[d].pc.outcome.response) == Delivered(f.pc)
  {
    var open, c := OpenCallback(s, profile, e);
    var s1 := Exec(s, open);
    var login := AtomicCallIsARun(s1, c, e);
    var s2 := Exec(s1, login);
    assert Settled(s2.calls[c].pc);
    LoginEndsAtStore(s1.db, profile, e);
    var s3 := StoreRuns(s2, c, store);
    d := UnusedId(s3.calls.Keys);
    var s4 := SessionRuns(s3, d, store.code, s2.calls[c].pc.response, session);
    var rest := [Run(c, store), Begin(d, Session(store.code)), Run(d, session)];
    ExecThree(s2, rest);
    ExecAppend(s1, login, rest);
    ExecAppend(s, open, login + rest);
    run := open + (login + rest);
  }

  lemma ExecThree(s: State, run: seq<Label>)
    requires |run| == 3
    ensures Exec(s, run) == Next(Next(Next(s, run[0]), run[1]), run[2])
  {
    assert run == run[..2] + [run[2]] && run[..2] == [run[0]] + [run[1]] && [run[0]] == [] + [run[0]];
    ExecSnoc(s, run[..2], run[2]);
    ExecSnoc(s, [run[0]], run[1]);
    ExecSnoc(s, [], run[0]);
  }

  /** Within a callback, tokens are delivered only for it to store. */
  predicate InLogin(pc: Pc) {
    InOAuth(pc) || (pc.IssueTokens? && pc.door.ViaCallback?) || pc.CallbackStore? || (pc.Done? && pc.outcome.Failed?)
  }

  lemma {:induction false} StaysInLogin(db: Db, pc: Pc, e: Env)
    requires InLogin(pc)
    ensures InLogin(Finish(db, pc, e).pc)
    decreases Rank(pc)
  {
    if Settled(pc) {
    } else {
      LoginStatement(db, pc, e);
      StaysInLogin(Advance(db, pc, e).db, Advance(db, pc, e).pc, e);
    }
  }

  lemma LoginStatement(db: Db, pc: Pc, e: Env)
    requires InLogin(pc) && !Settled(pc)
    ensures InLogin(Advance(db, pc, e).pc)
  {
  }

  lemma LoginEndsAtStore(db: Db, profile: Profile, e: Env)
    requires Delivered(Finish(db, OAuthFindLink(profile), e).pc).Some?
    ensures Finish(db, OAuthFindLink(profile), e).pc.CallbackStore?
  {
    StaysInLogin(db, OAuthFindLink(profile), e);
  }

  // ---- Refusals along the way ----

  /** A callback that cannot consume its state ends with that error, the state gone and no table touched. */
  lemma CallbackRefused(s: State, c: CallId, p: Provider, state: string, e: Env)
    requires c in s.calls && s.calls[c].pc == CallbackTake(p, state) && s.now <= e.now
    requires OAuthStore.Take(s.valkey, state, p, e.now).1.Failure?
    ensures var t := Next(s, Run(c, e));
            && t.calls[c].pc == Done(Failed(OAuthStore.Take(s.valkey, state, p, e.now).1.error))
            && t.db == s.db && t.valkey == s.valkey - {StateKey(state)}
  {
  }

  /** A provider that does not answer ends the callback, its state spent, before any table is read. */
  lemma ProviderRefused(s: State, c: CallId, e: Env)
    requires c in s.calls && s.calls[c].pc.CallbackFetch? && s.now <= e.now && !e.providerAnswers
    ensures var t := Next(s, Run(c, e));
            t.calls[c].pc == Done(Failed(ProviderFailed)) && t.db == s.db && t.valkey == s.valkey
  {
  }

  /** A session with an unknown, expired or spent code is refused. */
  lemma SessionRefused(s: State, c: CallId, code: string, e: Env)
    requires c in s.calls && s.calls[c].pc == SessionTake(code) && s.now <= e.now
    requires OAuthStore.TakeExchange(s.valkey, code, e.now).1.Failure?
    ensures var t := Next(s, Run(c, e));
            t.calls[c].pc == Done(Failed(ExchangeCodeInvalid)) && t.db == s.db
                && t.valkey == s.valkey - {ExchangeKey(code)}
  {
  }
}

/**
  What a statement does when the tables have moved on since its call last looked: calls in
  flight act on the copies they hold, and nothing makes them look again.
*/
module InFlightTheorems {
  import opened Wrappers
  import opened Models
  import opened Database
  import opened Handlers
  import opened Machine
  import opened AccountTheorems
  import opened OutcomeTheorems

  /**
    The converse of permanent deactivation: a sign-in that has reached `issue_tokens` is
    delivered with a live session, and the role its copy had, even if its user has been
    deactivated or given another role in the meantime.
  */
  lemma InFlightIsDelivered(s: State, c: CallId, e: Env)
    requires Inv(s) && c in s.calls && s.calls[c].pc.IssueTokens? && s.now <= e.now && FreshDraw(s.db, e)
    ensures var t := Next(s, Run(c, e));
            var pc := s.calls[c].pc;
            && Delivered(t.calls[c].pc) == Some(AuthResponse(ClaimsOf(pc.who, pc.via), e.raw, pc.username))
            && SignedIn(s.db, t.db, pc.who.id, e) && t.db.users == s.db.users
  {
    assert CallOk(s.db, s.calls[c]);
    IssueInFlight(s.db, s.calls[c].pc, e);
  }

  lemma IssueInFlight(db: Db, pc: Pc, e: Env)
    requires pc.IssueTokens? && pc.who.id < |db.users| && FreshDraw(db, e)
    ensures var next := AdvanceAccount(db, pc, e);
            && Delivered(next.pc) == Some(AuthResponse(ClaimsOf(pc.who, pc.via), e.raw, pc.username))
            && SignedIn(db, next.db, pc.who.id, e) && next.db.users == db.users
  {
    assert FindByLookupKey(db.tokens, Hmac(e.raw)).None?;
  }

  /**
    A refresh past its activity check answers with the role its copy had, and the method its
    credential gives it now.
  */
  lemma InFlightRefreshIsDelivered(s: State, c: CallId, e: Env)
    requires c in s.calls && s.calls[c].pc.RefreshCredential? && s.now <= e.now
    ensures var t := Next(s, Run(c, e));
            var who := s.calls[c].pc.who;
            && Delivered(t.calls[c].pc).Some? && Delivered(t.calls[c].pc).value.refreshToken == s.calls[c].pc.raw
            && Delivered(t.calls[c].pc).value.claims == ClaimsOf(who, if who.id in s.db.locals then Password else OAuth)
            && t.db.tokens == s.db.tokens
  {
  }

  /** A login is judged by the password stored when it is checked, not when its user was found. */
  lemma PasswordCheckedNow(s: State, c: CallId, e: Env)
    requires c in s.calls && s.calls[c].pc.LoginCredential? && s.now <= e.now
    ensures var t := Next(s, Run(c, e));
            var u := s.calls[c].pc.who.id;
            if u in s.db.locals && s.db.locals[u].passwordHash.text == s.calls[c].pc.password
            then t.calls[c].pc.IssueTokens? && t.calls[c].pc.who == s.calls[c].pc.who
            else t.calls[c].pc == Done(Failed(InvalidCredentials))
  {
  }

  /** A password change past its check overwrites whatever password has been set since. */
  lemma LastPasswordWins(s: State, c: CallId, e: Env)
    requires c in s.calls && s.calls[c].pc.PasswordUpdate? && s.now <= e.now && s.calls[c].pc.user in s.db.locals
    ensures var t := Next(s, Run(c, e));
            var u := s.calls[c].pc.user;
            && u in t.db.locals && Verify(s.calls[c].pc.proposed, t.db.locals[u].passwordHash)
            && t.db.locals[u].username == s.db.locals[u].username && t.calls[c].pc == RevokeSessions(u)
  {
  }

  /** An OAuth login whose new email or name was taken in between fails, and does not look again. */
  lemma CreateLosesRace(s: State, c: CallId, e: Env)
    requires c in s.calls && s.calls[c].pc.OAuthCreate? && s.now <= e.now
    requires EmailUsed(s.db, s.calls[c].pc.profile.email) || DisplayNameUsed(s.db, OAuthName(s.calls[c].pc.profile))
    ensures var t := Next(s, Run(c, e));
            && t.db == Read(s.db)
            && t.calls[c].pc == Done(Failed(if EmailUsed(s.db, s.calls[c].pc.profile.email) then EmailTaken
               else DatabaseFailed))
  {
  }

  /** One whose identity was linked in between goes on as the user it had found, leaving the link as it is. */
  lemma LinkLosesRace(s: State, c: CallId, e: Env)
    requires c in s.calls && s.calls[c].pc.OAuthLink? && s.now <= e.now
    requires s.calls[c].pc.profile.identity in s.db.links
    ensures var t := Next(s, Run(c, e));
            var pc := s.calls[c].pc;
            && t.db.links == s.db.links
            && t.calls[c].pc == if pc.who.row.isActive then OAuthCredential(pc.profile, pc.who)
               else Done(Failed(AccountDisabled))
  {
  }

  /**
    A secret already in use is refused by the index: no row and no claim, and a rotated row
    stays revoked without successor.
  */
  lemma CollisionIsRefused(s: State, c: CallId, e: Env)
    requires c in s.calls && (s.calls[c].pc.IssueTokens? || s.calls[c].pc.RefreshInsert?) && s.now <= e.now
    requires !FreshDraw(s.db, e)
    ensures var t := Next(s, Run(c, e)); t.db == Read(s.db) && t.calls[c].pc == Done(Failed(DatabaseFailed))
  {
    assert FindByLookupKey(s.db.tokens, Hmac(e.raw)).Some?;
  }
}
