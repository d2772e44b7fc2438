/** Accounts, claims and identities under every interleaving of all the service's statements. */
module AccountTheorems {
  import opened Wrappers
  import opened Models
  import opened Database
  import opened Handlers
  import opened Machine

  lemma NewCallIsDated(s: State, l: Label, c: CallId)
    requires c !in s.calls && c in Next(s, l).calls
    ensures Next(s, l).calls[c].begun == s.db.tick
  {
  }

  /** A call that begins after a state is dated after it. */
  lemma {:induction false} LaterCallsBeginLater(s: State, run: seq<Label>, c: CallId)
    requires Inv(s) && c !in s.calls && c in Exec(s, run).calls
    ensures Exec(s, run).calls[c].begun >= s.db.tick
    decreases |run|
  {
    var mid := Next(s, run[0]);
    NextKeeps(s, run[0]);
    if c in mid.calls {
      NewCallIsDated(s, run[0], c);
      BegunIsFixed(mid, run[1..], c);
    } else {
      LaterCallsBeginLater(mid, run[1..], c);
    }
  }

  lemma {:induction false} BegunIsFixed(s: State, run: seq<Label>, c: CallId)
    requires c in s.calls
    ensures c in Exec(s, run).calls && Exec(s, run).calls[c].begun == s.calls[c].begun
    decreases |run|
  {
    if run == [] {
    } else {
      BegunIsFixed(Next(s, run[0]), run[1..], c);
    }
  }

  // ---- Deactivation ----

  /** The tokens a login, refresh, registration or OAuth login has come back with. */
  function Delivered(pc: Pc): Option<AuthResponse> {
    match pc
    case Done(Responded(response)) => Some(response)
    case CallbackStore(_, response) => Some(response)
    case Done(Stored(_, response, _, _)) => Some(response)
    case _ => None
  }

  /** Once inactive, a user stays inactive, and no sign-in or refresh that begins afterwards delivers tokens for it. */
  lemma DeactivationIsPermanent(s: State, run: seq<Label>, u: UserId)
    requires Inv(s) && u < |s.db.users| && !s.db.users[u].isActive
    ensures var t := Exec(s, run);
            && u < |t.db.users| && !t.db.users[u].isActive
            && forall c :: c in t.calls && c !in s.calls && Delivered(t.calls[c].pc).Some? ==>
                 Delivered(t.calls[c].pc).value.claims.sub != u
  {
    ExecKeeps(s, run);
    var t := Exec(s, run);
    assert UserEvolves(s.db.users[u], t.db.users[u]);
    forall c | c in t.calls && c !in s.calls && Delivered(t.calls[c].pc).Some?
      ensures Delivered(t.calls[c].pc).value.claims.sub != u
    {
      LaterCallsBeginLater(s, run, c);
      assert CallOk(t.db, t.calls[c]);
      assert u in s.db.deactivatedAt;
    }
  }

  // ---- Issued claims ----

  /** A claim issued by any state is true of the tables in every later one, and so is every claim delivered. */
  lemma IssuedClaimsStayTrue(s: State, run: seq<Label>)
    requires Inv(s)
    ensures var t := Exec(s, run);
            && (forall claims :: claims in s.db.issued ==> claims in t.db.issued && ClaimTrue(t.db, claims))
            && (forall claims :: claims in t.db.issued ==> ClaimTrue(t.db, claims))
            && (forall c :: c in t.calls && Delivered(t.calls[c].pc).Some? ==>
                  Delivered(t.calls[c].pc).value.claims in t.db.issued)
  {
    ExecKeeps(s, run);
    var t := Exec(s, run);
    forall c | c in t.calls && Delivered(t.calls[c].pc).Some?
      ensures Delivered(t.calls[c].pc).value.claims in t.db.issued
    {
      assert CallOk(t.db, t.calls[c]);
    }
  }

  // ---- Identities ----

  /** The profile an OAuth login worked on, once it has its tokens. */
  function LoggedInAs(pc: Pc): Option<Identity> {
    match pc
    case CallbackStore(profile, _) => Some(profile.identity)
    case Done(Stored(profile, _, _, _)) => Some(profile.identity)
    case _ => None
  }

  /** The step is the DELETE of an unlink of this provider by this user. */
  predicate Unlinks(s: State, l: Label, user: UserId, p: Provider) {
    l.Run? && Enabled(s, l) && s.calls[l.call].pc == UnlinkDelete(user, p)
  }

  ghost predicate NeverUnlinked(s: State, run: seq<Label>, user: UserId, p: Provider)
    decreases |run|
  {
    run == [] || (!Unlinks(s, run[0], user, p) && NeverUnlinked(Next(s, run[0]), run[1..], user, p))
  }

  lemma AdvanceKeepsLink(db: Db, pc: Pc, e: Env, x: Identity)
    requires !Settled(pc) && x in db.links && pc != UnlinkDelete(db.links[x].user, x.provider)
    ensures var after := Advance(db, pc, e).db; x in after.links && after.links[x] == db.links[x]
  {
    if InRefresh(pc) {
      RefreshLeavesAccounts(db, pc, e);
    }
  }

  /** Only its own user's unlink removes a link. */
  lemma {:induction false} LinkStays(s: State, run: seq<Label>, x: Identity)
    requires x in s.db.links && NeverUnlinked(s, run, s.db.links[x].user, x.provider)
    ensures var t := Exec(s, run); x in t.db.links && t.db.links[x] == s.db.links[x]
    decreases |run|
  {
    if run == [] {
    } else {
      var l := run[0];
      if l.Run? && Enabled(s, l) && !Outside(s.calls[l.call].pc) {
        AdvanceKeepsLink(s.db, s.calls[l.call].pc, l.e, x);
      }
      LinkStays(Next(s, l), run[1..], x);
    }
  }

  /**
    An identity linked to a user stays linked to it, and resolves to it in every OAuth login
    that begins later, whatever email its profile carries, until that user unlinks the provider.
  */
  lemma IdentityIsStable(s: State, run: seq<Label>, x: Identity)
    requires Inv(s) && x in s.db.links && NeverUnlinked(s, run, s.db.links[x].user, x.provider)
    ensures var t := Exec(s, run);
            && x in t.db.links && t.db.links[x] == s.db.links[x]
            && forall c :: c in t.calls && c !in s.calls && LoggedInAs(t.calls[c].pc) == Some(x) ==>
                 Delivered(t.calls[c].pc).value.claims.sub == s.db.links[x].user
  {
    ExecKeeps(s, run);
    LinkStays(s, run, x);
    var t := Exec(s, run);
    forall c | c in t.calls && c !in s.calls && LoggedInAs(t.calls[c].pc) == Some(x)
      ensures Delivered(t.calls[c].pc).value.claims.sub == s.db.links[x].user
    {
      LaterCallsBeginLater(s, run, c);
      assert CallOk(t.db, t.calls[c]);
    }
  }

  // ---- Constraints ----

  /** All uniqueness and foreign-key constraints hold in every state of every run. */
  lemma ConstraintsAlwaysHold(s: State, run: seq<Label>)
    requires Inv(s)
    ensures var db := Exec(s, run).db;
            && (forall i, j :: 0 <= i < |db.users| && 0 <= j < |db.users| && i != j ==>
                  db.users[i].email != db.users[j].email && db.users[i].displayName != db.users[j].displayName)
            && (forall u :: u in db.locals ==> u < |db.users|)
            && (forall u, v :: u in db.locals && v in db.locals && u != v ==>
                  db.locals[u].username != db.locals[v].username)
            && (forall x :: x in db.links ==> db.links[x].user < |db.users|)
            && (forall i :: 0 <= i < |db.tokens| ==> db.tokens[i].userId < |db.users|)
            && (forall i, j :: 0 <= i < |db.tokens| && 0 <= j < |db.tokens| && i != j ==>
                  db.tokens[i].lookupKey != db.tokens[j].lookupKey)
  {
    ExecKeeps(s, run);
    var db := Exec(s, run).db;
    forall i | 0 <= i < |db.tokens| ensures db.tokens[i].userId < |db.users| {
      assert RowOk(db, i);
    }
  }

  predicate EmailUsed(db: Db, email: string) {
    exists u :: 0 <= u < |db.users| && db.users[u].email == email
  }

  predicate DisplayNameUsed(db: Db, name: string) {
    exists u :: 0 <= u < |db.users| && db.users[u].displayName == name
  }

  predicate UsernameUsed(db: Db, username: string) {
    exists u :: u in db.locals && db.locals[u].username == username
  }

  /**
    `create` fails exactly on a used email, display name or username, in that order, and
    then changes no row; otherwise it adds one active, ordinary user and its credential.
  */
  lemma CreateIsAllOrNothing(db: Db, pc: Pc, e: Env)
    requires DbInv(db) && pc.RegisterCreate?
    ensures var next := Advance(db, pc, e);
            var name := UpToAt(pc.email);
            && (EmailUsed(db, pc.email) <==> next.pc == Done(Failed(EmailTaken)))
            && (!EmailUsed(db, pc.email) && DisplayNameUsed(db, name) <==> next.pc == Done(Failed(DatabaseFailed)))
            && (!EmailUsed(db, pc.email) && !DisplayNameUsed(db, name) && UsernameUsed(db, pc.handle)
                <==> next.pc == Done(Failed(UsernameTaken)))
            && (next.pc.Done? ==> next.db == Read(db))
            && (!next.pc.Done? ==>
                  && next.db.users == db.users + [UserRow(pc.email, name, User, true)]
                  && next.db.locals == db.locals[|db.users| := LocalCredential(pc.handle, Argon2(e.salt, pc.password))]
                  && next.db.links == db.links && next.db.tokens == db.tokens)
  {
    assert |db.users| !in db.locals;
  }
}

/** Where the admin role comes from, under every interleaving. */
module AdminTheorems {
  import opened Wrappers
  import opened Models
  import opened Database
  import opened Handlers
  import opened Machine
  import opened Valkey

  /** `user` is a root, or was made admin by someone whose own standing derives from the grants before that one. */
  ghost predicate Derived(roots: set<UserId>, grants: seq<Grant>, user: UserId)
    decreases |grants|
  {
    user in roots
    || exists i :: 0 <= i < |grants| && grants[i].target == user && Derived(roots, grants[..i], grants[i].admin)
  }

  lemma DerivedGrows(roots: set<UserId>, a: seq<Grant>, b: seq<Grant>, user: UserId)
    requires a <= b && Derived(roots, a, user)
    ensures Derived(roots, b, user)
  {
    if user !in roots {
      var i :| 0 <= i < |a| && a[i].target == user && Derived(roots, a[..i], a[i].admin);
      assert b[..i] == a[..i] && b[i] == a[i];
    }
  }

  lemma {:induction false} NothingDerivesFromNobody(grants: seq<Grant>, user: UserId)
    ensures !Derived({}, grants, user)
    decreases |grants|
  {
    forall i | 0 <= i < |grants| ensures !Derived({}, grants[..i], grants[i].admin) {
      NothingDerivesFromNobody(grants[..i], grants[i].admin);
    }
  }

  /** The admin-bearing value a call holds, if any: a row copy, a response, or the caller of a role update. */
  function Bearer(pc: Pc): Option<UserId> {
    match pc
    case LoginCredential(who, _) => OfSnapshot(who)
    case IssueTokens(who, _, _, _) => OfSnapshot(who)
    case RefreshCredential(who, _) => OfSnapshot(who)
    case OAuthLink(_, who) => OfSnapshot(who)
    case OAuthCredential(_, who) => OfSnapshot(who)
    case CallbackStore(_, response) => OfClaims(response.claims)
    case RoleUpdate(admin, _, _) => Some(admin)
    case Done(Responded(response)) => OfClaims(response.claims)
    case Done(Stored(_, response, _, _)) => OfClaims(response.claims)
    case Done(Opened(response, _, _)) => OfClaims(response.claims)
    case _ => None
  }

  function OfSnapshot(who: Snapshot): Option<UserId> {
    if who.row.role == Admin then Some(who.id) else None
  }

  function OfClaims(claims: Claims): Option<UserId> {
    if claims.role == Admin then Some(claims.sub) else None
  }

  ghost predicate Sound(roots: set<UserId>, grants: seq<Grant>, bearer: Option<UserId>) {
    bearer.Some? ==> Derived(roots, grants, bearer.value)
  }

  ghost predicate AdminDb(roots: set<UserId>, db: Db) {
    && (forall u :: 0 <= u < |db.users| && db.users[u].role == Admin ==> Derived(roots, db.grants, u))
    && (forall c :: c in db.issued ==> Sound(roots, db.grants, OfClaims(c)))
  }

  ghost predicate AdminStore(roots: set<UserId>, grants: seq<Grant>, ks: Keyspace) {
    forall k :: k in ks && ks[k].value.Payload? ==> Sound(roots, grants, OfClaims(ks[k].value.response.claims))
  }

  /** Every admin row, claim, stored payload and in-flight copy derives from the roots. */
  ghost predicate AdminInv(roots: set<UserId>, s: State) {
    && AdminDb(roots, s.db)
    && AdminStore(roots, s.db.grants, s.valkey)
    && (forall c :: c in s.calls ==> Sound(roots, s.db.grants, Bearer(s.calls[c].pc)))
  }

  /** A signature is sound when the copy it is made from is. */
  lemma IssueAdmin(roots: set<UserId>, db: Db, pc: Pc, e: Env)
    requires AdminDb(roots, db) && Sound(roots, db.grants, Bearer(pc)) && (pc.IssueTokens? || pc.RefreshCredential?)
    ensures var next := Advance(db, pc, e);
            AdminDb(roots, next.db) && db.grants == next.db.grants && Sound(roots, next.db.grants, Bearer(next.pc))
  {
    var next := Advance(db, pc, e);
    assert next.db.users == db.users && next.db.grants == db.grants;
    assert forall c :: c in next.db.issued ==> c in db.issued || OfClaims(c) == OfSnapshot(pc.who);
  }

  lemma OAuthAdmin(roots: set<UserId>, db: Db, pc: Pc, e: Env)
    requires AdminDb(roots, db) && Sound(roots, db.grants, Bearer(pc))
    requires InOAuth(pc)
    ensures var next := AdvanceOAuth(db, pc, e);
            AdminDb(roots, next.db) && db.grants == next.db.grants && Sound(roots, next.db.grants, Bearer(next.pc))
  {
  }

  lemma RefreshAdmin(roots: set<UserId>, db: Db, pc: Pc, e: Env)
    requires AdminDb(roots, db)
    requires pc.RefreshSelect? || pc.RefreshRevokeAll? || pc.RefreshUpdate? || pc.RefreshInsert? || pc.RefreshFindUser?
    ensures var next := AdvanceRefresh(db, pc, e);
            AdminDb(roots, next.db) && db.grants == next.db.grants && Sound(roots, next.db.grants, Bearer(next.pc))
  {
  }

  lemma SignInAdmin(roots: set<UserId>, db: Db, pc: Pc, e: Env)
    requires AdminDb(roots, db) && Sound(roots, db.grants, Bearer(pc))
    requires pc.RegisterCreate? || pc.LoginFind? || pc.LoginCredential?
    ensures var next := AdvanceAccount(db, pc, e);
            AdminDb(roots, next.db) && db.grants == next.db.grants && Sound(roots, next.db.grants, Bearer(next.pc))
  {
  }

  /** Role updates are the only statement that extends the grants. */
  lemma AdvanceAdmin(roots: set<UserId>, db: Db, pc: Pc, e: Env)
    requires AdminDb(roots, db) && Sound(roots, db.grants, Bearer(pc)) && !Settled(pc)
    ensures var next := Advance(db, pc, e);
            AdminDb(roots, next.db) && db.grants <= next.db.grants && Sound(roots, next.db.grants, Bearer(next.pc))
  {
    if pc.RoleUpdate? {
      RoleUpdateAdmin(roots, db, pc, e);
    } else if pc.IssueTokens? || pc.RefreshCredential? {
      IssueAdmin(roots, db, pc, e);
    } else if InOAuth(pc) {
      OAuthAdmin(roots, db, pc, e);
    } else if pc.RefreshSelect? || pc.RefreshRevokeAll? || pc.RefreshUpdate? || pc.RefreshInsert?
        || pc.RefreshFindUser? {
      RefreshAdmin(roots, db, pc, e);
    } else if pc.RegisterCreate? || pc.LoginFind? || pc.LoginCredential? {
      SignInAdmin(roots, db, pc, e);
    } else {
      ManageAdmin(roots, db, pc, e);
    }
  }

  lemma ManageAdmin(roots: set<UserId>, db: Db, pc: Pc, e: Env)
    requires AdminDb(roots, db) && InManage(pc) && !pc.RoleUpdate?
    ensures var next := AdvanceManage(db, pc, e);
            AdminDb(roots, next.db) && db.grants == next.db.grants && Sound(roots, next.db.grants, Bearer(next.pc))
  {
  }

  lemma RoleUpdateAdmin(roots: set<UserId>, db: Db, pc: Pc, e: Env)
    requires AdminDb(roots, db) && pc.RoleUpdate? && Derived(roots, db.grants, pc.admin)
    ensures var next := Advance(db, pc, e); AdminDb(roots, next.db) && db.grants <= next.db.grants && next.pc.Done?
    ensures Bearer(Advance(db, pc, e).pc) == None
  {
    var next := Advance(db, pc, e);
    var after := next.db.grants;
    if |after| > |db.grants| {
      assert after[..|db.grants|] == db.grants;
      assert after[|db.grants|].target == pc.target;
      assert Derived(roots, after, pc.target);
    }
    forall u | Derived(roots, db.grants, u) ensures Derived(roots, after, u) {
      DerivedGrows(roots, db.grants, after, u);
    }
  }

  /** A step outside Postgres stores no more than the response its call holds. */
  lemma OutsideStore(roots: set<UserId>, s: State, c: CallId, e: Env)
    requires AdminInv(roots, s) && c in s.calls && Outside(s.calls[c].pc)
    ensures AdminStore(roots, s.db.grants, OutsideStep(s, c, e).valkey)
  {
    assert Sound(roots, s.db.grants, Bearer(s.calls[c].pc));
  }

  lemma OutsideBearer(roots: set<UserId>, s: State, c: CallId, e: Env)
    requires AdminInv(roots, s) && c in s.calls && Outside(s.calls[c].pc)
    ensures var t := OutsideStep(s, c, e);
            c in t.calls && Sound(roots, s.db.grants, Bearer(t.calls[c].pc))
  {
    assert Sound(roots, s.db.grants, Bearer(s.calls[c].pc));
  }

  lemma OutsideMovesOne(s: State, c: CallId, e: Env)
    requires c in s.calls && Outside(s.calls[c].pc)
    ensures var t := OutsideStep(s, c, e);
            t.db == s.db && forall d :: d in t.calls && d != c ==> d in s.calls && t.calls[d] == s.calls[d]
  {
  }

  lemma OutsideAdmin(roots: set<UserId>, s: State, c: CallId, e: Env)
    requires AdminInv(roots, s) && Enabled(s, Run(c, e)) && Outside(s.calls[c].pc)
    ensures AdminInv(roots, Next(s, Run(c, e)))
  {
    OutsideStore(roots, s, c, e);
    OutsideBearer(roots, s, c, e);
    OutsideMovesOne(s, c, e);
  }

  /** Only a caller whose access token says admin starts a role update. */
  lemma StartAdmin(roots: set<UserId>, db: Db, request: Request)
    requires AdminDb(roots, db)
    ensures Sound(roots, db.grants, Bearer(Start(db.issued, request)))
  {
  }

  lemma NextAdmin(roots: set<UserId>, s: State, l: Label)
    requires AdminInv(roots, s)
    ensures AdminInv(roots, Next(s, l))
  {
    if !Enabled(s, l) {
      return;
    }
    match l
    case Begin(c, request) => StartAdmin(roots, s.db, request);
    case Abort(c) =>
    case Run(c, e) =>
      if Outside(s.calls[c].pc) {
        OutsideAdmin(roots, s, c, e);
      } else {
        RunAdmin(roots, s, c, e);
      }
  }

  lemma RunAdmin(roots: set<UserId>, s: State, c: CallId, e: Env)
    requires AdminInv(roots, s) && Enabled(s, Run(c, e)) && !Outside(s.calls[c].pc)
    ensures AdminInv(roots, Next(s, Run(c, e)))
  {
    var t := Next(s, Run(c, e));
    AdvanceAdmin(roots, s.db, s.calls[c].pc, e);
    forall u | Derived(roots, s.db.grants, u) ensures Derived(roots, t.db.grants, u) {
      DerivedGrows(roots, s.db.grants, t.db.grants, u);
    }
  }

  /** Nothing in the state bears the admin role for a user outside `roots`. */
  ghost predicate AdminsWithin(s: State, roots: set<UserId>) {
    && (forall u :: 0 <= u < |s.db.users| && s.db.users[u].role == Admin ==> u in roots)
    && (forall c :: c in s.db.issued && c.role == Admin ==> c.sub in roots)
    && (forall k :: k in s.valkey && s.valkey[k].value.Payload? && s.valkey[k].value.response.claims.role == Admin ==>
          s.valkey[k].value.response.claims.sub in roots)
    && (forall c :: c in s.calls && Bearer(s.calls[c].pc).Some? ==> Bearer(s.calls[c].pc).value in roots)
  }

  /**
    In every run, each admin row, claim and payload traces back through role updates to a bearer
    of the first state.
  */
  lemma {:induction false} AdminProvenance(roots: set<UserId>, s: State, run: seq<Label>)
    requires AdminInv(roots, s)
    ensures AdminInv(roots, Exec(s, run))
    decreases |run|
  {
    if run == [] {
    } else {
      NextAdmin(roots, s, run[0]);
      AdminProvenance(roots, Next(s, run[0]), run[1..]);
    }
  }

  lemma AdminProvenanceFromRoots(s: State, run: seq<Label>, roots: set<UserId>)
    requires AdminsWithin(s, roots)
    ensures AdminInv(roots, Exec(s, run))
  {
    AdminProvenance(roots, s, run);
  }

  /** Without an admin row, claim, payload or copy to begin with, none ever appears. */
  lemma NoAdminFromNowhere(s: State, run: seq<Label>)
    requires AdminsWithin(s, {})
    ensures AdminsWithin(Exec(s, run), {})
  {
    AdminProvenanceFromRoots(s, run, {});
    forall u ensures !Derived({}, Exec(s, run).db.grants, u) {
      NothingDerivesFromNobody(Exec(s, run).db.grants, u);
    }
  }
}

/** Whose authority a change is made under, under every interleaving. */
module GuardTheorems {
  import opened Wrappers
  import opened Models
  import opened Database
  import opened Handlers
  import opened Machine

  /** The request carries an access token of the user that was issued, with at least this role. */
  predicate ActsAs(issued: set<Claims>, request: Request, user: UserId, minimum: Role) {
    && (request.Logout? || request.ChangePassword? || request.DeactivateAccount? || request.UnlinkConnection?
          || request.UpdateUserRole?)
    && request.claims in issued && request.claims.sub == user && request.claims.role.IsAtLeast(minimum)
  }

  /**
    A call about to change an account does so on its own user's authority, as asked; a role
    changes on an admin's, and never the admin's own.
  */
  predicate Authorised(issued: set<Claims>, call: Call) {
    match call.pc
    case PasswordSelect(u, current, proposed) =>
      ActsAs(issued, call.request, u, User) && call.request == ChangePassword(call.request.claims, current, proposed)
    case PasswordUpdate(u, proposed) =>
      ActsAs(issued, call.request, u, User) && call.request.ChangePassword? && call.request.proposed == proposed
    case DeactivateUpdate(u) => ActsAs(issued, call.request, u, User) && call.request.DeactivateAccount?
    case RevokeSessions(u) =>
      ActsAs(issued, call.request, u, Guest)
          && (call.request.Logout? || call.request.ChangePassword? || call.request.DeactivateAccount?)
    case UnlinkDelete(u, p) =>
      ActsAs(issued, call.request, u, User) && call.request.UnlinkConnection? && FromSlug(call.request.slug) == Some(p)
    case RoleUpdate(admin, target, role) =>
      ActsAs(issued, call.request, admin, Admin) && admin != target
          && call.request == UpdateUserRole(call.request.claims, target, role)
    case _ => true
  }

  ghost predicate AllAuthorised(s: State) {
    forall c :: c in s.calls ==> Authorised(s.db.issued, s.calls[c])
  }

  lemma StartAuthorised(issued: set<Claims>, call: Call)
    requires call.pc == Start(issued, call.request)
    ensures Authorised(issued, call)
  {
  }

  lemma AdvanceAuthorised(db: Db, call: Call, e: Env)
    requires !Settled(call.pc) && Authorised(db.issued, call)
    ensures var next := Advance(db, call.pc, e);
            db.issued <= next.db.issued && Authorised(next.db.issued, call.(pc := next.pc))
  {
    if InRefresh(call.pc) {
      RefreshLeavesAccounts(db, call.pc, e);
    }
  }

  lemma NextAuthorised(s: State, l: Label)
    requires AllAuthorised(s)
    ensures AllAuthorised(Next(s, l))
  {
    var t := Next(s, l);
    if Enabled(s, l) {
      if l.Begin? {
        StartAuthorised(s.db.issued, t.calls[l.call]);
      } else if l.Run? && !Outside(s.calls[l.call].pc) {
        AdvanceAuthorised(s.db, s.calls[l.call], l.e);
      }
      forall c | c in t.calls ensures Authorised(t.db.issued, t.calls[c]) {
        if c != l.call {
          assert t.calls[c] == s.calls[c] && s.db.issued <= t.db.issued;
        }
      }
    }
  }

  /** In every run, every pending change has an issued access token of sufficient role behind it. */
  lemma {:induction false} EveryChangeIsAuthorised(s: State, run: seq<Label>)
    requires AllAuthorised(s)
    ensures AllAuthorised(Exec(s, run))
    decreases |run|
  {
    if run == [] {
    } else {
      NextAuthorised(s, run[0]);
      EveryChangeIsAuthorised(Next(s, run[0]), run[1..]);
    }
  }
}
