/** Who may change what, under every interleaving: each change to an account was asked for by someone entitled to it. */
module ChangeTheorems {
  import opened Models
  import opened Database
  import opened Handlers
  import opened Machine
  import opened GuardTheorems
  import opened SignInTheorems

  /** An admin other than the user asked for this user to have this role. */
  predicate RoleAsked(issued: set<Claims>, request: Request, u: UserId, role: Role) {
    && request.UpdateUserRole? && request.target == u && request.role == role
    && request.claims in issued && request.claims.role == Admin && request.claims.sub != u
  }

  predicate DeactivationAsked(issued: set<Claims>, request: Request, u: UserId) {
    request.DeactivateAccount? && ActsAs(issued, request, u, User)
  }

  /** The user itself asked for this password. */
  predicate PasswordAsked(issued: set<Claims>, request: Request, u: UserId, h: Hash) {
    request.ChangePassword? && ActsAs(issued, request, u, User) && Verify(request.proposed, h)
  }

  predicate UnlinkAsked(issued: set<Claims>, request: Request, u: UserId, p: Provider) {
    request.UnlinkConnection? && ActsAs(issued, request, u, User) && request.slug == Slug(p)
  }

  // ---- One statement ----

  ghost predicate UserChange(a: Db, b: Db, request: Request, u: UserId)
    requires u < |a.users| && u < |b.users|
  {
    && b.users[u].email == a.users[u].email && b.users[u].displayName == a.users[u].displayName
    && (b.users[u].role == a.users[u].role || RoleAsked(a.issued, request, u, b.users[u].role))
    && (b.users[u].isActive == a.users[u].isActive
        || (!b.users[u].isActive && DeactivationAsked(a.issued, request, u)))
  }

  ghost predicate UsersChange(a: Db, b: Db, request: Request) {
    |a.users| <= |b.users| && forall u :: 0 <= u < |a.users| ==> UserChange(a, b, request, u)
  }

  ghost predicate LocalsChange(a: Db, b: Db, request: Request) {
    forall u :: u in a.locals ==>
      && u in b.locals && b.locals[u].username == a.locals[u].username
      && (b.locals[u] == a.locals[u] || PasswordAsked(a.issued, request, u, b.locals[u].passwordHash))
  }

  ghost predicate LinksChange(a: Db, b: Db, request: Request) {
    forall x :: x in a.links ==>
      if x in b.links then b.links[x] == a.links[x] else UnlinkAsked(a.issued, request, a.links[x].user, x.provider)
  }

  ghost predicate GrantsChange(a: Db, b: Db, request: Request) {
    || b.grants == a.grants
    || (|b.grants| == |a.grants| + 1 && b.grants[..|a.grants|] == a.grants
        && var grant := b.grants[|a.grants|];
           RoleAsked(a.issued, request, grant.target, Admin) && grant.admin == request.claims.sub)
  }

  /** Every change of one step is one its call's request asked for, and was entitled to. */
  ghost predicate Asked(a: Db, b: Db, request: Request) {
    UsersChange(a, b, request) && LocalsChange(a, b, request) && LinksChange(a, b, request)
        && GrantsChange(a, b, request)
  }

  lemma NothingAsked(a: Db, b: Db, request: Request)
    requires b.users == a.users && b.locals == a.locals && b.links == a.links && b.grants == a.grants
    ensures Asked(a, b, request)
  {
  }

  lemma OAuthAsked(db: Db, call: Call, e: Env)
    requires InOAuth(call.pc)
    ensures Asked(db, AdvanceOAuth(db, call.pc, e).db, call.request)
  {
  }

  lemma AccountAsked(db: Db, call: Call, e: Env)
    requires InAccount(call.pc) && CredentialsOk(db)
    ensures Asked(db, AdvanceAccount(db, call.pc, e).db, call.request)
  {
    assert |db.users| !in db.locals;
  }

  lemma RoleUpdateAsked(db: Db, call: Call, e: Env)
    requires call.pc.RoleUpdate? && Authorised(db.issued, call)
    ensures Asked(db, AdvanceManage(db, call.pc, e).db, call.request)
  {
  }

  lemma DeactivateAsked(db: Db, call: Call, e: Env)
    requires call.pc.DeactivateUpdate? && Authorised(db.issued, call)
    ensures Asked(db, AdvanceManage(db, call.pc, e).db, call.request)
  {
  }

  lemma UnlinkDeleteAsked(db: Db, call: Call, e: Env)
    requires call.pc.UnlinkDelete? && Authorised(db.issued, call)
    ensures Asked(db, AdvanceManage(db, call.pc, e).db, call.request)
  {
  }

  lemma PasswordUpdateAsked(db: Db, call: Call, e: Env)
    requires call.pc.PasswordUpdate? && Authorised(db.issued, call)
    ensures Asked(db, AdvanceManage(db, call.pc, e).db, call.request)
  {
  }

  lemma ManageAsked(db: Db, call: Call, e: Env)
    requires InManage(call.pc) && Authorised(db.issued, call)
    ensures Asked(db, AdvanceManage(db, call.pc, e).db, call.request)
  {
    if call.pc.RoleUpdate? {
      RoleUpdateAsked(db, call, e);
    } else if call.pc.DeactivateUpdate? {
      DeactivateAsked(db, call, e);
    } else if call.pc.UnlinkDelete? {
      UnlinkDeleteAsked(db, call, e);
    } else if call.pc.PasswordUpdate? {
      PasswordUpdateAsked(db, call, e);
    } else {
      NothingAsked(db, AdvanceManage(db, call.pc, e).db, call.request);
    }
  }

  lemma StatementAsked(db: Db, call: Call, e: Env)
    requires CredentialsOk(db) && !Settled(call.pc) && Authorised(db.issued, call)
    ensures Asked(db, Advance(db, call.pc, e).db, call.request)
  {
    if InRefresh(call.pc) {
      RefreshLeavesAccounts(db, call.pc, e);
      RefreshGrantsNothing(db, call.pc, e);
      NothingAsked(db, AdvanceRefresh(db, call.pc, e).db, call.request);
    } else if InOAuth(call.pc) {
      OAuthAsked(db, call, e);
    } else if InAccount(call.pc) {
      AccountAsked(db, call, e);
    } else {
      ManageAsked(db, call, e);
    }
  }

  lemma RefreshGrantsNothing(db: Db, pc: Pc, e: Env)
    requires InRefresh(pc)
    ensures AdvanceRefresh(db, pc, e).db.grants == db.grants
  {
  }

  // ---- Every step of every run ----

  /** The step changes nothing about the accounts but what its call's request asked for. */
  ghost predicate StepAsked(s: State, l: Label) {
    if Enabled(s, l) && l.Run? then Asked(s.db, Next(s, l).db, s.calls[l.call].request)
    else Next(s, l).db == s.db || Next(s, l).db == Read(s.db)
  }

  lemma StepIsAsked(s: State, l: Label)
    requires Inv(s) && AllAuthorised(s)
    ensures StepAsked(s, l)
  {
    if Enabled(s, l) && l.Run? {
      if Outside(s.calls[l.call].pc) {
        OutsideAsked(s, l.call, l.e);
      } else {
        StatementAsked(s.db, s.calls[l.call], l.e);
      }
    }
  }

  lemma OutsideAsked(s: State, c: CallId, e: Env)
    requires Enabled(s, Run(c, e)) && Outside(s.calls[c].pc)
    ensures Asked(s.db, Next(s, Run(c, e)).db, s.calls[c].request)
  {
    NothingAsked(s.db, Next(s, Run(c, e)).db, s.calls[c].request);
  }

  /**
    In every run, at every step: a role changes only to what an admin other than the user asked
    for that user, and only such a step records a grant; a user turns inactive, gets a new
    password or loses a link only as it asked itself; emails, names and usernames never change.
  */
  lemma EveryStepIsAsked(s: State, run: seq<Label>, k: nat)
    requires Inv(s) && AllAuthorised(s) && k < |run|
    ensures StepAsked(At(s, run, k), run[k])
  {
    ExecKeeps(s, run[..k]);
    EveryChangeIsAuthorised(s, run[..k]);
    StepIsAsked(At(s, run, k), run[k]);
  }
}

/**
  What a refresh may do, under every interleaving: it acts on the row of the token presented,
  or ends that row's user's sessions.
*/
module PresentedTheorems {
  import opened Models
  import opened Database
  import opened Handlers
  import opened Machine
  import opened GuardTheorems
  import opened SignInTheorems

  /** Row `i` is the user's, was made from this token, and is revoked or expired. */
  ghost predicate DeadRow(s: State, i: nat, u: UserId, raw: string) {
    && i < |s.db.tokens| && s.db.tokens[i].userId == u && s.db.tokens[i].tokenHash.text == raw
    && (s.db.tokens[i].revoked || s.db.tokens[i].expiresAt < s.now)
  }

  /** The call holds the row of the token it was given. */
  ghost predicate HoldsPresented(s: State, request: Request, row: nat, u: UserId) {
    && request.Refresh? && row < |s.db.tokens|
    && s.db.tokens[row].userId == u && s.db.tokens[row].tokenHash.text == request.raw
  }

  ghost predicate Presented(s: State, call: Call) {
    match call.pc
    case RefreshSelect(raw) => call.request == Refresh(raw)
    case RefreshRevokeAll(u) => call.request.Refresh? && exists i: nat :: DeadRow(s, i, u, call.request.raw)
    case RefreshUpdate(row, u, _) => HoldsPresented(s, call.request, row, u)
    case RefreshInsert(row, u, _, _) => HoldsPresented(s, call.request, row, u)
    case _ => true
  }

  ghost predicate AllPresented(s: State) {
    forall c :: c in s.calls ==> Presented(s, s.calls[c])
  }

  /** Rows keep their users and tokens, revocation is final, and time passes. */
  lemma PresentedStays(s: State, t: State, call: Call)
    requires Evolves(s.db, t.db) && s.now <= t.now && Presented(s, call)
    ensures Presented(t, call)
  {
    match call.pc
    case RefreshRevokeAll(u) =>
      var i: nat :| DeadRow(s, i, u, call.request.raw);
      assert RowEvolves(s.db.tokens[i], t.db.tokens[i], s.db.tick);
      assert DeadRow(t, i, u, call.request.raw);
    case RefreshUpdate(row, _, _) => assert RowEvolves(s.db.tokens[row], t.db.tokens[row], s.db.tick);
    case RefreshInsert(row, _, _, _) => assert RowEvolves(s.db.tokens[row], t.db.tokens[row], s.db.tick);
    case _ =>
  }

  /** The SELECT finds the row of the token presented. */
  lemma SelectPresents(s: State, t: State, call: Call, e: Env)
    requires TokensOk(s.db) && call.pc.RefreshSelect? && Presented(s, call)
    requires t.db == AdvanceRefresh(s.db, call.pc, e).db && t.now == e.now
    ensures Presented(t, call.(pc := AdvanceRefresh(s.db, call.pc, e).pc))
  {
    var found := FindByLookupKey(s.db.tokens, Hmac(call.pc.raw));
    if found.Some? {
      var i := found.value;
      assert RowOk(s.db, i);
      if s.db.tokens[i].revoked || s.db.tokens[i].expiresAt < e.now {
        assert DeadRow(t, i, s.db.tokens[i].userId, call.request.raw);
      }
    }
  }

  lemma UpdateHolds(s: State, t: State, call: Call, e: Env)
    requires call.pc.RefreshUpdate? && Presented(s, call) && t.db == AdvanceRefresh(s.db, call.pc, e).db
    ensures Presented(t, call.(pc := AdvanceRefresh(s.db, call.pc, e).pc))
  {
  }

  /** No other statement leads to one of these points. */
  lemma ElsewhereNothing(db: Db, pc: Pc, e: Env)
    requires !Settled(pc) && !pc.RefreshSelect? && !pc.RefreshUpdate?
    ensures var next := Advance(db, pc, e).pc;
            !next.RefreshSelect? && !next.RefreshRevokeAll? && !next.RefreshUpdate? && !next.RefreshInsert?
  {
    if InRefresh(pc) {
      OthersLeaveTokens(db, pc, e);
    }
  }

  lemma StatementPresents(s: State, c: CallId, e: Env)
    requires Inv(s) && AllPresented(s) && Enabled(s, Run(c, e)) && !Outside(s.calls[c].pc)
    ensures var t := Next(s, Run(c, e)); Presented(t, t.calls[c])
  {
    var t := Next(s, Run(c, e));
    assert Presented(s, s.calls[c]);
    if s.calls[c].pc.RefreshSelect? {
      SelectPresents(s, t, s.calls[c], e);
    } else if s.calls[c].pc.RefreshUpdate? {
      UpdateHolds(s, t, s.calls[c], e);
    } else {
      ElsewhereNothing(s.db, s.calls[c].pc, e);
    }
  }

  lemma StartPresents(s: State, call: Call, issued: set<Claims>)
    requires call.pc == Start(issued, call.request)
    ensures Presented(s, call)
  {
  }

  lemma OutsidePresents(s: State, t: State, c: CallId, e: Env)
    requires Enabled(s, Run(c, e)) && Outside(s.calls[c].pc)
    ensures c in OutsideStep(s, c, e).calls && Presented(t, OutsideStep(s, c, e).calls[c])
  {
  }

  lemma NextPresents(s: State, l: Label)
    requires Inv(s) && AllPresented(s)
    ensures AllPresented(Next(s, l))
  {
    if Enabled(s, l) {
      var t := Next(s, l);
      NextKeeps(s, l);
      OthersUnmoved(s, l);
      match l {
        case Begin(c, request) => StartPresents(t, t.calls[c], s.db.issued);
        case Abort(c) =>
        case Run(c, e) =>
          if Outside(s.calls[c].pc) {
            OutsidePresents(s, t, c, e);
          } else {
            StatementPresents(s, c, e);
          }
      }
      forall c | c in t.calls && c != l.call ensures Presented(t, t.calls[c]) {
        PresentedStays(s, t, s.calls[c]);
      }
    }
  }

  /**
    In every run, a refresh about to end a user's sessions was given a token of a row of that
    user that is revoked or expired, and a refresh about to rotate a row was given its token.
  */
  lemma {:induction false} EveryRefreshIsPresented(s: State, run: seq<Label>)
    requires Inv(s) && AllPresented(s)
    ensures AllPresented(Exec(s, run))
    decreases |run|
  {
    if run == [] {
    } else {
      NextKeeps(s, run[0]);
      NextPresents(s, run[0]);
      EveryRefreshIsPresented(Next(s, run[0]), run[1..]);
    }
  }

  // ---- Who ends a session ----

  /** The request gives reason to end the session of row `i`. */
  ghost predicate EndsSession(s: State, request: Request, i: nat)
    requires i < |s.db.tokens|
  {
    var u := s.db.tokens[i].userId;
    || (!request.UnlinkConnection? && !request.UpdateUserRole? && ActsAs(s.db.issued, request, u, Guest))
    || (request.Refresh?
        && (s.db.tokens[i].tokenHash.text == request.raw || exists k: nat :: DeadRow(s, k, u, request.raw)))
  }

  lemma StatementRevokes(s: State, call: Call, e: Env, i: nat)
    requires Presented(s, call) && Authorised(s.db.issued, call) && !Settled(call.pc)
    requires i < |s.db.tokens| && !s.db.tokens[i].revoked
    requires i < |Advance(s.db, call.pc, e).db.tokens| && Advance(s.db, call.pc, e).db.tokens[i].revoked
    ensures EndsSession(s, call.request, i)
  {
    if !WritesTokens(call.pc) {
      OthersLeaveTokens(s.db, call.pc, e);
    }
  }

  /**
    In every run, a row is revoked only by a logout, password change or deactivation of its own
    user, by a refresh given its own token, or by a refresh given a dead token of its user.
  */
  lemma RevocationIsAsked(s: State, run: seq<Label>, k: nat, i: nat)
    requires Inv(s) && AllPresented(s) && AllAuthorised(s) && k < |run|
    requires var t := At(s, run, k);
             i < |t.db.tokens| && !t.db.tokens[i].revoked
             && i < |Next(t, run[k]).db.tokens| && Next(t, run[k]).db.tokens[i].revoked
    ensures var t := At(s, run, k);
            run[k].Run? && run[k].call in t.calls && EndsSession(t, t.calls[run[k].call].request, i)
  {
    var t := At(s, run, k);
    EveryRefreshIsPresented(s, run[..k]);
    EveryChangeIsAuthorised(s, run[..k]);
    if run[k].Run? && Enabled(t, run[k]) && !Outside(t.calls[run[k].call].pc) {
      StatementRevokes(t, t.calls[run[k].call], run[k].e, i);
    } else {
      IdleRevokesNothing(t, run[k]);
    }
  }

  lemma IdleRevokesNothing(s: State, l: Label)
    requires !(l.Run? && Enabled(s, l) && !Outside(s.calls[l.call].pc))
    ensures Next(s, l).db.tokens == s.db.tokens
  {
  }
}
