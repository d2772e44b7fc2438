/** Calls run one after another, each to its end: the runs with no interleaving and no errors. */
module Atomic {
  import opened Wrappers
  import opened Models
  import opened Database
  import opened Handlers
  import opened Machine
  import OAuthStore

  /** Run a call to its end, or to its next step outside Postgres. */
  function Finish(db: Db, pc: Pc, e: Env): (r: Progress)
    ensures Settled(r.pc)
    decreases Rank(pc)
  {
    if Settled(pc) then Progress(db, pc)
    else var next := Advance(db, pc, e); Finish(next.db, next.pc, e)
  }

  /** A request, or `login_or_register_oauth` with the profile a callback fetched. */
  datatype Op = Op(request: Request, e: Env) | OAuthLogin(profile: Profile, e: Env)

  function First(db: Db, op: Op): Pc {
    match op
    case Op(request, _) => Start(db.issued, request)
    case OAuthLogin(profile, _) => OAuthFindLink(profile)
  }

  /** The calls an operation begins before its first statement: its own, or an authorize and its callback. */
  function Begun(db: Db, op: Op): (r: Db)
    ensures r == db.(tick := r.tick)
  {
    if op.Op? then Read(db) else Read(Read(db))
  }

  function Apply(db: Db, op: Op): Progress {
    Finish(Begun(db, op), First(db, op), op.e)
  }

  function Play(db: Db, ops: seq<Op>): Db
    decreases |ops|
  {
    if ops == [] then db else Play(Apply(db, ops[0]).db, ops[1..])
  }

  /** An atomic call is one of the interleavings: some run makes exactly its statements, back to back. */
  lemma {:induction false} AtomicCallIsARun(s: State, c: CallId, e: Env) returns (run: seq<Label>)
    requires c in s.calls && s.now <= e.now
    ensures var f := Finish(s.db, s.calls[c].pc, e);
            var t := Exec(s, run);
            t.db == f.db && t.calls == s.calls[c := s.calls[c].(pc := f.pc)] && t.valkey == s.valkey && t.now <= e.now
    decreases Rank(s.calls[c].pc)
  {
    if Settled(s.calls[c].pc) {
      run := [];
    } else {
      var t := Next(s, Run(c, e));
      var rest := AtomicCallIsARun(t, c, e);
      run := [Run(c, e)] + rest;
      assert run[1..] == rest;
    }
  }

  lemma {:induction false} UnusedId(ids: set<CallId>) returns (c: CallId)
    ensures forall id :: id in ids ==> id < c
  {
    if ids == {} {
      c := 0;
    } else {
      var id :| id in ids;
      var d := UnusedId(ids - {id});
      c := if id < d then d else id + 1;
      forall k | k in ids ensures k < c {
        assert k == id || k in ids - {id};
      }
    }
  }

  /** The provider answers with this profile. */
  function Answering(e: Env, profile: Profile): Env {
    e.(subject := profile.identity.subject, email := profile.email, displayName := profile.displayName,
        providerAnswers := true)
  }

  lemma OpenAuthorize(s: State, a: CallId, p: Provider, e: Env) returns (t: State)
    requires a !in s.calls && s.now <= e.now
    ensures t == Next(Next(s, Begin(a, Authorize(Slug(p)))), Run(a, e)) && t.db == Read(s.db) && t.now == e.now
    ensures t.calls.Keys == s.calls.Keys + {a} && OAuthStore.Take(t.valkey, e.state, p, e.now).1 == Success(e.verifier)
  {
    var mid := Next(s, Begin(a, Authorize(Slug(p))));
    assert mid.calls[a].pc == AuthorizeInsert(p);
    t := Next(mid, Run(a, e));
  }

  lemma OpenTake(s: State, c: CallId, p: Provider, e: Env) returns (t: State)
    requires c !in s.calls && s.now == e.now && OAuthStore.Take(s.valkey, e.state, p, e.now).1.Success?
    ensures t == Next(Next(s, Begin(c, Callback(Slug(p), false, Some(""), Some(e.state)))), Run(c, e))
    ensures t.db == Read(s.db) && t.now == e.now && c in t.calls && t.calls[c].pc.CallbackFetch?
            && t.calls[c].pc.provider == p
  {
    var mid := Next(s, Begin(c, Callback(Slug(p), false, Some(""), Some(e.state))));
    assert mid.calls[c].pc == CallbackTake(p, e.state);
    t := Next(mid, Run(c, e));
  }

  /** From any state, an authorize and its callback bring a call to the point where it has fetched the profile. */
  lemma OpenCallback(s: State, profile: Profile, e: Env) returns (run: seq<Label>, c: CallId)
    requires s.now <= e.now
    ensures var t := Exec(s, run);
            t.db == Read(Read(s.db)) && t.now == e.now && c in t.calls && t.calls[c].pc == OAuthFindLink(profile)
    ensures c !in s.calls
  {
    var p := profile.identity.provider;
    var a := UnusedId(s.calls.Keys);
    c := a + 1;
    var callback := Callback(Slug(p), false, Some(""), Some(e.state));
    var r4 := [Begin(a, Authorize(Slug(p))), Run(a, e), Begin(c, callback), Run(c, e)];
    ExecFour(s, r4);
    var s2 := OpenAuthorize(s, a, p, e);
    var s4 := OpenTake(s2, c, p, e);
    ExecSnoc(s, r4, Run(c, Answering(e, profile)));
    run := r4 + [Run(c, Answering(e, profile))];
  }

  lemma OpIsARun(s: State, op: Op) returns (run: seq<Label>)
    requires s.now <= op.e.now
    ensures Exec(s, run).db == Apply(s.db, op).db && Exec(s, run).now <= op.e.now
  {
    var first, c;
    if op.Op? {
      c := UnusedId(s.calls.Keys);
      first := [Begin(c, op.request)];
      ExecSnoc(s, [], first[0]);
      assert [] + first == first;
    } else {
      first, c := OpenCallback(s, op.profile, op.e);
    }
    var rest := AtomicCallIsARun(Exec(s, first), c, op.e);
    ExecAppend(s, first, rest);
    run := first + rest;
  }

  /** The operations happen in clock order, from `now` on. */
  predicate Timely(now: nat, ops: seq<Op>)
    decreases |ops|
  {
    ops == [] || (now <= ops[0].e.now && Timely(ops[0].e.now, ops[1..]))
  }

  lemma {:induction false} TimelyFrom(a: nat, b: nat, ops: seq<Op>)
    requires a <= b && Timely(b, ops)
    ensures Timely(a, ops)
  {
  }

  /** Every atomic run is an interleaving: some run of the service ends with exactly its tables. */
  lemma {:induction false} PlayIsARun(s: State, ops: seq<Op>) returns (run: seq<Label>)
    requires Timely(s.now, ops)
    ensures Exec(s, run).db == Play(s.db, ops)
    decreases |ops|
  {
    if ops == [] {
      run := [];
    } else {
      var first := OpIsARun(s, ops[0]);
      var t := Exec(s, first);
      TimelyFrom(t.now, ops[0].e.now, ops[1..]);
      var rest := PlayIsARun(t, ops[1..]);
      ExecAppend(s, first, rest);
      run := first + rest;
    }
  }

  /** So everything proved of every interleaving holds of atomic calls. */
  lemma {:induction false} FinishKeeps(db: Db, begun: nat, pc: Pc, e: Env)
    requires DbInv(db) && begun < db.tick && PcOk(db, begun, pc)
    ensures Keeps(db, begun, Finish(db, pc, e))
    decreases Rank(pc)
  {
    if Settled(pc) {
    } else {
      var next := Advance(db, pc, e);
      AdvanceKeeps(db, begun, pc, e);
      FinishKeeps(next.db, begun, next.pc, e);
      EvolvesTransitive(db, next.db, Finish(db, pc, e).db);
    }
  }

  lemma BegunKeeps(db: Db, op: Op)
    requires DbInv(db)
    ensures DbInv(Begun(db, op)) && Evolves(db, Begun(db, op)) && db.tick < Begun(db, op).tick
  {
    ReadKeeps(db);
    if op.OAuthLogin? {
      ReadKeeps(Read(db));
      EvolvesTransitive(db, Read(db), Read(Read(db)));
    }
  }

  lemma FirstOk(db: Db, op: Op)
    requires DbInv(db)
    ensures DbInv(Begun(db, op)) && db.tick < Begun(db, op).tick && PcOk(Begun(db, op), db.tick, First(db, op))
  {
    BegunKeeps(db, op);
    if op.Op? {
      StartOk(Begun(db, op), db.tick, db.issued, op.request);
    }
  }

  lemma ApplyKeeps(db: Db, op: Op)
    requires DbInv(db)
    ensures Keeps(db, db.tick, Apply(db, op))
  {
    BegunKeeps(db, op);
    FirstOk(db, op);
    FinishKeeps(Begun(db, op), db.tick, First(db, op), op.e);
    EvolvesTransitive(db, Begun(db, op), Apply(db, op).db);
  }
}

/** What atomic runs add to the rotation theorems: chains, single rotation, bounded live rows. */
module AtomicRotation {
  import opened Wrappers
  import opened Models
  import opened Database
  import opened Handlers
  import opened Atomic
  import opened ChainTheorems

  // ---- Chains ----

  lemma {:induction false} ChainFinish(db: Db, begun: nat, pc: Pc, e: Env)
    requires DbInv(db) && begun < db.tick && PcOk(db, begun, pc) && ChainMid(db, pc)
    ensures Chained(Finish(db, pc, e).db.tokens)
    decreases Rank(pc)
  {
    if Settled(pc) {
    } else {
      AdvanceKeeps(db, begun, pc, e);
      ChainStep(db, pc, e);
      ChainFinish(Advance(db, pc, e).db, begun, Advance(db, pc, e).pc, e);
    }
  }

  lemma ChainApply(db: Db, op: Op)
    requires DbInv(db) && Chained(db.tokens)
    ensures Chained(Apply(db, op).db.tokens)
  {
    FirstOk(db, op);
    ChainFinish(Begun(db, op), db.tick, First(db, op), op.e);
  }

  /** In atomic runs the forest is a set of chains: each token is rotated at most once. */
  lemma {:induction false} RotatedAtMostOnce(db: Db, ops: seq<Op>)
    requires DbInv(db) && Chained(db.tokens)
    ensures Chained(Play(db, ops).tokens) && DbInv(Play(db, ops))
    decreases |ops|
  {
    if ops == [] {
    } else {
      ApplyKeeps(db, ops[0]);
      ChainApply(db, ops[0]);
      RotatedAtMostOnce(Apply(db, ops[0]).db, ops[1..]);
    }
  }

  /** Only the last row of a chain may be unrevoked. */
  lemma OnlyTheLastMayLive(db: Db, ops: seq<Op>, i: nat)
    requires DbInv(db) && Chained(db.tokens)
    requires i < |Play(db, ops).tokens| && !Play(db, ops).tokens[i].revoked
    ensures NoChild(Play(db, ops).tokens, i)
  {
    RotatedAtMostOnce(db, ops);
    var ts := Play(db, ops).tokens;
    forall k | 0 <= k < |ts| && ts[k].origin.Rotation? ensures ts[k].origin.parent != i {
      assert RotationOk(ts, k);
    }
  }

  // ---- Replay ----

  /** Replaying a revoked or expired token fails, and leaves its user with no unrevoked row. */
  lemma ReplayRevokesAll(db: Db, raw: string, e: Env, i: nat)
    requires DbInv(db) && i < |db.tokens| && db.tokens[i].tokenHash.text == raw
    requires db.tokens[i].revoked || db.tokens[i].expiresAt < e.now
    ensures var f := Finish(db, RefreshSelect(raw), e);
            && f.pc == Done(Failed(RefreshTokenInvalid)) && NoLiveRow(f.db, db.tokens[i].userId)
            && f.db == RevokeAll(Read(db), db.tokens[i].userId)
            && (forall k :: 0 <= k < |db.tokens| && db.tokens[k].userId != db.tokens[i].userId ==>
                  f.db.tokens[k] == db.tokens[k])
  {
    assert RowOk(db, i);
    var found := FindByLookupKey(db.tokens, Hmac(raw)).value;
    assert found == i;
    var next := Advance(db, RefreshSelect(raw), e);
    assert next.pc == RefreshRevokeAll(db.tokens[i].userId);
    var last := Advance(next.db, next.pc, e);
    assert Finish(next.db, next.pc, e) == Finish(last.db, last.pc, e);
  }

  // ---- When a refresh succeeds ----

  ghost predicate Refreshable(db: Db, raw: string, e: Env, i: nat) {
    && i < |db.tokens| && db.tokens[i].tokenHash.text == raw
    && !db.tokens[i].revoked && e.now <= db.tokens[i].expiresAt
    && db.tokens[i].userId < |db.users| && db.users[db.tokens[i].userId].isActive
  }

  /** The rows after a rotation of row `i`: revoked, with its successor at the end. */
  function RotatedRows(db: Db, i: nat, e: Env): seq<TokenRow>
    requires i < |db.tokens|
  {
    db.tokens[i := Revoked(db.tokens[i], db.tick + 1)]
    + [TokenRow(db.tokens[i].userId, Hmac(e.raw), Argon2(e.salt, e.raw), e.now + e.refreshTtl, false,
                Rotation(i, db.tick, db.tick + 1), db.tick + 2, 0)]
  }

  lemma SelectAccepts(db: Db, raw: string, e: Env, i: nat)
    requires DbInv(db) && i < |db.tokens| && db.tokens[i].tokenHash.text == raw
    requires !db.tokens[i].revoked && e.now <= db.tokens[i].expiresAt
    ensures AdvanceRefresh(db, RefreshSelect(raw), e)
            == Progress(Read(db), RefreshUpdate(i, db.tokens[i].userId, db.tick))
  {
    assert RowOk(db, i);
    assert FindByLookupKey(db.tokens, Hmac(raw)) == Some(i);
  }

  lemma InsertSucceeds(db: Db, e: Env, i: nat)
    requires i < |db.tokens| && db.tokens[i].userId < |db.users| && FreshDraw(db, e)
    ensures var u := db.tokens[i].userId;
            AdvanceRefresh(RevokeRow(Read(db), i), RefreshInsert(i, u, db.tick, db.tick + 1), e)
            == Progress(db.(tokens := RotatedRows(db, i, e), tick := db.tick + 3), RefreshFindUser(u, e.raw))
  {
    var after := RevokeRow(Read(db), i);
    assert forall j :: 0 <= j < |db.tokens| ==> after.tokens[j].lookupKey == db.tokens[j].lookupKey;
    assert FindByLookupKey(after.tokens, Hmac(e.raw)).None?;
  }

  /** SELECT, UPDATE and INSERT of a rotation, back to back. */
  lemma RotateUnfolds(db: Db, raw: string, e: Env, i: nat) returns (mid: Progress)
    requires DbInv(db) && i < |db.tokens| && db.tokens[i].tokenHash.text == raw
    requires !db.tokens[i].revoked && e.now <= db.tokens[i].expiresAt && FreshDraw(db, e)
    ensures mid.pc == RefreshFindUser(db.tokens[i].userId, e.raw)
    ensures mid.db == db.(tokens := RotatedRows(db, i, e), tick := db.tick + 3)
    ensures Finish(db, RefreshSelect(raw), e) == Finish(mid.db, mid.pc, e)
  {
    var u := db.tokens[i].userId;
    assert RowOk(db, i);
    SelectAccepts(db, raw, e, i);
    InsertSucceeds(db, e, i);
    var p1 := Progress(Read(db), RefreshUpdate(i, u, db.tick));
    var p2 := Progress(RevokeRow(Read(db), i), RefreshInsert(i, u, db.tick, db.tick + 1));
    mid := Progress(db.(tokens := RotatedRows(db, i, e), tick := db.tick + 3), RefreshFindUser(u, e.raw));
    assert Finish(db, RefreshSelect(raw), e) == Finish(p1.db, p1.pc, e);
    assert Finish(p1.db, p1.pc, e) == Finish(p2.db, p2.pc, e);
    assert Finish(p2.db, p2.pc, e) == Finish(mid.db, mid.pc, e);
  }

  /**
    After the SELECT accepts row `i`, an atomic refresh revokes it, inserts its successor, and
    then looks at the user.
  */
  lemma RefreshUnfolds(db: Db, raw: string, e: Env, i: nat)
    requires DbInv(db) && i < |db.tokens| && db.tokens[i].tokenHash.text == raw
    requires !db.tokens[i].revoked && e.now <= db.tokens[i].expiresAt && FreshDraw(db, e)
    ensures var f := Finish(db, RefreshSelect(raw), e);
            var u := db.tokens[i].userId;
            && u < |db.users|
            && f.db == db.(tokens := RotatedRows(db, i, e), issued := f.db.issued, tick := f.db.tick)
            && (db.users[u].isActive ==>
                  && f.pc.Done? && f.pc.outcome.Responded?
                  && f.pc.outcome.response
                     == AuthResponse(ClaimsOf(SnapshotOf(db, u), if u in db.locals then Password else OAuth),
                                     e.raw, UsernameOf(db, u))
                  && f.db.issued == db.issued + {f.pc.outcome.response.claims})
            && (!db.users[u].isActive ==> f.pc == Done(Failed(AccountDisabled)) && f.db.issued == db.issued)
  {
    assert RowOk(db, i);
    var mid := RotateUnfolds(db, raw, e, i);
    var p4 := AdvanceRefresh(mid.db, mid.pc, e);
    assert Finish(mid.db, mid.pc, e) == Finish(p4.db, p4.pc, e);
    if db.users[db.tokens[i].userId].isActive {
      var p5 := AdvanceRefresh(p4.db, p4.pc, e);
      assert Finish(p4.db, p4.pc, e) == Finish(p5.db, p5.pc, e);
    }
  }

  /** With a fresh draw, an atomic refresh succeeds exactly for an unrevoked, unexpired token of an active user. */
  lemma RefreshExact(db: Db, raw: string, e: Env)
    requires DbInv(db) && FreshDraw(db, e)
    ensures var f := Finish(db, RefreshSelect(raw), e);
            (f.pc.Done? && f.pc.outcome.Responded?) <==> exists i: nat :: Refreshable(db, raw, e, i)
  {
    var found := FindByLookupKey(db.tokens, Hmac(raw));
    forall i: nat | i < |db.tokens| && db.tokens[i].tokenHash.text == raw ensures found == Some(i) {
      assert RowOk(db, i);
    }
    if found.None? {
      assert Finish(db, RefreshSelect(raw), e).pc == Done(Failed(RefreshTokenInvalid));
    } else {
      var i := found.value;
      assert RowOk(db, i);
      if db.tokens[i].revoked || db.tokens[i].expiresAt < e.now {
        ReplayRevokesAll(db, raw, e, i);
      } else {
        RefreshUnfolds(db, raw, e, i);
        assert db.users[db.tokens[i].userId].isActive ==> Refreshable(db, raw, e, i);
      }
    }
  }

  /** A rotation leaves every user's live count unchanged. */
  lemma RotationKeepsLiveCount(db: Db, raw: string, e: Env, i: nat, user: UserId)
    requires DbInv(db) && i < |db.tokens| && db.tokens[i].tokenHash.text == raw
    requires !db.tokens[i].revoked && e.now <= db.tokens[i].expiresAt && FreshDraw(db, e)
    ensures LiveCount(Finish(db, RefreshSelect(raw), e).db.tokens, user) == LiveCount(db.tokens, user)
  {
    RefreshUnfolds(db, raw, e, i);
    var after := db.tokens[i := Revoked(db.tokens[i], db.tick + 1)];
    var ts := Finish(db, RefreshSelect(raw), e).db.tokens;
    CountRevoke(db.tokens, i, db.tick + 1, db.cuts, user);
    CountAppend(after, ts[|after|], db.cuts, user);
    assert ts == after + [ts[|after|]];
  }

  // ---- Live rows ----

  function LiveCount(tokens: seq<TokenRow>, user: UserId): nat {
    if tokens == [] then 0
    else
      var last := tokens[|tokens| - 1];
      LiveCount(tokens[..|tokens| - 1], user) + if last.userId == user && !last.revoked then 1 else 0
  }

  /** Inserted by a sign-in of the user after its last revoke-all. */
  predicate RecentSignIn(row: TokenRow, cuts: set<Cut>, user: UserId) {
    row.userId == user && row.origin.SignIn? && forall cut :: cut in cuts && cut.user == user ==> row.bornAt > cut.at
  }

  function SignInCount(tokens: seq<TokenRow>, cuts: set<Cut>, user: UserId): nat {
    if tokens == [] then 0
    else
      SignInCount(tokens[..|tokens| - 1], cuts, user) + if RecentSignIn(tokens[|tokens| - 1], cuts, user) then 1 else 0
  }

  lemma CountAppend(tokens: seq<TokenRow>, row: TokenRow, cuts: set<Cut>, user: UserId)
    ensures LiveCount(tokens + [row], user)
            == LiveCount(tokens, user) + if row.userId == user && !row.revoked then 1 else 0
    ensures SignInCount(tokens + [row], cuts, user)
            == SignInCount(tokens, cuts, user) + if RecentSignIn(row, cuts, user) then 1 else 0
  {
    assert (tokens + [row])[..|tokens|] == tokens;
  }

  lemma {:induction false} CountRevoke(tokens: seq<TokenRow>, i: nat, at: nat, cuts: set<Cut>, user: UserId)
    requires i < |tokens|
    ensures var after := tokens[i := Revoked(tokens[i], at)];
            && LiveCount(after, user)
               == LiveCount(tokens, user) - (if tokens[i].userId == user && !tokens[i].revoked then 1 else 0)
            && SignInCount(after, cuts, user) == SignInCount(tokens, cuts, user)
  {
    var after := tokens[i := Revoked(tokens[i], at)];
    var n := |tokens| - 1;
    if i == n {
      assert after[..n] == tokens[..n];
    } else {
      assert after[..n] == tokens[..n][i := Revoked(tokens[i], at)];
      CountRevoke(tokens[..n], i, at, cuts, user);
    }
  }

  /** Revoke-all empties the user's live rows and changes nobody else's; other users' sign-ins still count. */
  lemma {:induction false} CountRevokeAll(a: seq<TokenRow>, b: seq<TokenRow>, victim: UserId, at: nat, cuts: set<Cut>,
      user: UserId)
    requires |a| == |b|
    requires forall i :: 0 <= i < |a| ==> b[i] == if a[i].userId == victim then Revoked(a[i], at) else a[i]
    ensures LiveCount(b, user) == if user == victim then 0 else LiveCount(a, user)
    ensures user != victim ==> SignInCount(b, cuts + {Cut(victim, at)}, user) == SignInCount(a, cuts, user)
  {
    if a == [] {
    } else {
      var n := |a| - 1;
      CountRevokeAll(a[..n], b[..n], victim, at, cuts, user);
    }
  }

  /** A user's live rows never exceed the successful sign-ins since its last revoke-all. */
  ghost predicate LiveBounded(db: Db) {
    forall user: UserId :: LiveCount(db.tokens, user) <= SignInCount(db.tokens, db.cuts, user)
  }

  ghost predicate BoundMid(db: Db, pc: Pc) {
    && LiveBounded(db)
    && (pc.RefreshUpdate? ==> pc.row < |db.tokens| && db.tokens[pc.row].userId == pc.user && !db.tokens[pc.row].revoked)
    && (pc.RefreshInsert? ==> LiveCount(db.tokens, pc.user) + 1 <= SignInCount(db.tokens, db.cuts, pc.user))
  }

  lemma BoundInsert(db: Db, user: UserId, raw: string, salt: nat, expiresAt: int, origin: Origin)
    requires TokensOk(db) && LiveBounded(db) && InsertToken(db, user, raw, salt, expiresAt, origin).Success?
    requires origin.Rotation? ==> LiveCount(db.tokens, user) + 1 <= SignInCount(db.tokens, db.cuts, user)
    ensures LiveBounded(InsertToken(db, user, raw, salt, expiresAt, origin).value)
  {
    var after := InsertToken(db, user, raw, salt, expiresAt, origin).value;
    var row := after.tokens[|db.tokens|];
    assert after.tokens == db.tokens + [row];
    forall u: UserId ensures LiveCount(after.tokens, u) <= SignInCount(after.tokens, after.cuts, u) {
      CountAppend(db.tokens, row, db.cuts, u);
    }
  }

  lemma BoundRevokeRow(db: Db, row: nat)
    requires LiveBounded(db) && row < |db.tokens| && !db.tokens[row].revoked
    ensures var after := RevokeRow(db, row);
            var user := db.tokens[row].userId;
            LiveBounded(after) && LiveCount(after.tokens, user) + 1 <= SignInCount(after.tokens, after.cuts, user)
  {
    var after := RevokeRow(db, row);
    forall u: UserId ensures LiveCount(after.tokens, u) <= SignInCount(after.tokens, after.cuts, u) {
      CountRevoke(db.tokens, row, db.tick, db.cuts, u);
    }
    CountRevoke(db.tokens, row, db.tick, db.cuts, db.tokens[row].userId);
  }

  lemma BoundRevokeAll(db: Db, user: UserId)
    requires LiveBounded(db)
    ensures LiveBounded(RevokeAll(db, user))
  {
    var after := RevokeAll(db, user);
    forall u: UserId ensures LiveCount(after.tokens, u) <= SignInCount(after.tokens, after.cuts, u) {
      CountRevokeAll(db.tokens, after.tokens, user, db.tick, db.cuts, u);
    }
  }

  lemma BoundStep(db: Db, begun: nat, pc: Pc, e: Env)
    requires DbInv(db) && PcOk(db, begun, pc) && !Settled(pc) && BoundMid(db, pc)
    ensures var next := Advance(db, pc, e); BoundMid(next.db, next.pc)
  {
    var next := Advance(db, pc, e);
    OthersLeaveTokens(db, pc, e);
    if pc.RefreshUpdate? {
      BoundRevokeRow(db, pc.row);
    } else if pc.RefreshRevokeAll? || pc.RevokeSessions? {
      BoundRevokeAll(db, pc.user);
    } else if pc.IssueTokens? || pc.RefreshInsert? {
      BoundInsertion(db, pc, e);
    }
  }

  lemma BoundInsertion(db: Db, pc: Pc, e: Env)
    requires TokensOk(db) && BoundMid(db, pc) && (pc.IssueTokens? || pc.RefreshInsert?)
    ensures LiveBounded(Advance(db, pc, e).db)
  {
    if pc.IssueTokens? {
      var after := AdvanceAccount(db, pc, e).db;
      if InsertToken(db, pc.who.id, e.raw, e.salt, e.now + e.refreshTtl, SignIn).Success? {
        BoundInsert(db, pc.who.id, e.raw, e.salt, e.now + e.refreshTtl, SignIn);
      } else {
        assert after.tokens == db.tokens && after.cuts == db.cuts;
      }
    } else {
      BoundRotation(db, pc, e);
    }
  }

  lemma BoundRotation(db: Db, pc: Pc, e: Env)
    requires TokensOk(db) && BoundMid(db, pc) && pc.RefreshInsert?
    ensures LiveBounded(AdvanceRefresh(db, pc, e).db)
  {
    var origin := Rotation(pc.row, pc.selectedAt, pc.updatedAt);
    if InsertToken(db, pc.user, e.raw, e.salt, e.now + e.refreshTtl, origin).Success? {
      BoundInsert(db, pc.user, e.raw, e.salt, e.now + e.refreshTtl, origin);
    }
  }

  lemma {:induction false} BoundFinish(db: Db, begun: nat, pc: Pc, e: Env)
    requires DbInv(db) && begun < db.tick && PcOk(db, begun, pc) && BoundMid(db, pc)
    ensures LiveBounded(Finish(db, pc, e).db)
    decreases Rank(pc)
  {
    if Settled(pc) {
    } else {
      AdvanceKeeps(db, begun, pc, e);
      BoundStep(db, begun, pc, e);
      BoundFinish(Advance(db, pc, e).db, begun, Advance(db, pc, e).pc, e);
    }
  }

  lemma BoundApply(db: Db, op: Op)
    requires DbInv(db) && LiveBounded(db)
    ensures LiveBounded(Apply(db, op).db)
  {
    FirstOk(db, op);
    BoundFinish(Begun(db, op), db.tick, First(db, op), op.e);
  }

  /** In atomic runs no user has more live rows than successful sign-ins since its last revoke-all. */
  lemma {:induction false} LiveRowsBounded(db: Db, ops: seq<Op>)
    requires DbInv(db) && LiveBounded(db)
    ensures LiveBounded(Play(db, ops))
    decreases |ops|
  {
    if ops == [] {
    } else {
      ApplyKeeps(db, ops[0]);
      BoundApply(db, ops[0]);
      LiveRowsBounded(Apply(db, ops[0]).db, ops[1..]);
    }
  }
}

/** What atomic runs add to the account theorems. */
module AtomicAccounts {
  import opened Models
  import opened Database
  import opened Handlers
  import opened Atomic
  import opened CredentialTheorems

  // ---- Inactive users hold no live token ----

  ghost predicate Active(db: Db, u: UserId) {
    u < |db.users| && db.users[u].isActive
  }

  ghost predicate LiveOnlyActive(db: Db) {
    forall i :: 0 <= i < |db.tokens| && !db.tokens[i].revoked ==> Active(db, db.tokens[i].userId)
  }

  /** Between the two statements of a deactivation the user itself is excepted. */
  ghost predicate ActiveMid(db: Db, pc: Pc) {
    && (forall i :: 0 <= i < |db.tokens| && !db.tokens[i].revoked ==>
          Active(db, db.tokens[i].userId) || (pc.RevokeSessions? && pc.user == db.tokens[i].userId))
    && (pc.RefreshUpdate? || pc.RefreshInsert? ==> Active(db, pc.user))
    && (pc.IssueTokens? || pc.LoginCredential? || pc.OAuthCredential? ==> Active(db, pc.who.id))
    && (pc.OAuthLink? && pc.who.row.isActive ==> Active(db, pc.who.id))
  }

  lemma ActiveRevocation(db: Db, pc: Pc, e: Env)
    requires DbInv(db) && (pc.RefreshUpdate? || pc.RefreshRevokeAll? || pc.RevokeSessions?) && ActiveMid(db, pc)
    ensures var next := Advance(db, pc, e); ActiveMid(next.db, next.pc)
  {
  }

  lemma ActiveSignIn(db: Db, pc: Pc, e: Env)
    requires pc.IssueTokens? && ActiveMid(db, pc)
    ensures var next := AdvanceAccount(db, pc, e); ActiveMid(next.db, next.pc)
  {
  }

  lemma ActiveRotation(db: Db, pc: Pc, e: Env)
    requires pc.RefreshInsert? && ActiveMid(db, pc)
    ensures var next := AdvanceRefresh(db, pc, e); ActiveMid(next.db, next.pc)
  {
  }

  lemma ActiveOAuth(db: Db, begun: nat, pc: Pc, e: Env)
    requires DbInv(db) && PcOk(db, begun, pc) && !Settled(pc) && !WritesTokens(pc) && ActiveMid(db, pc)
    requires InOAuth(pc)
    ensures var next := AdvanceOAuth(db, pc, e); ActiveMid(next.db, next.pc)
  {
    OthersLeaveTokens(db, pc, e);
  }

  lemma ActiveManage(db: Db, begun: nat, pc: Pc, e: Env)
    requires DbInv(db) && InManage(pc) && !WritesTokens(pc) && ActiveMid(db, pc)
    ensures var next := AdvanceManage(db, pc, e); ActiveMid(next.db, next.pc)
  {
  }

  lemma ActiveRefresh(db: Db, begun: nat, pc: Pc, e: Env)
    requires DbInv(db) && InRefresh(pc) && !WritesTokens(pc) && ActiveMid(db, pc)
    ensures var next := AdvanceRefresh(db, pc, e); ActiveMid(next.db, next.pc)
  {
    RefreshLeavesAccounts(db, pc, e);
  }

  lemma ActiveAccount(db: Db, pc: Pc, e: Env)
    requires DbInv(db) && InAccount(pc) && !pc.IssueTokens? && ActiveMid(db, pc)
    ensures var next := AdvanceAccount(db, pc, e); ActiveMid(next.db, next.pc)
  {
    OthersLeaveTokens(db, pc, e);
  }

  lemma ActiveStep(db: Db, begun: nat, pc: Pc, e: Env)
    requires DbInv(db) && PcOk(db, begun, pc) && !Settled(pc) && ActiveMid(db, pc)
    ensures var next := Advance(db, pc, e); ActiveMid(next.db, next.pc)
  {
    if pc.IssueTokens? {
      ActiveSignIn(db, pc, e);
    } else if pc.RefreshInsert? {
      ActiveRotation(db, pc, e);
    } else if WritesTokens(pc) {
      ActiveRevocation(db, pc, e);
    } else if InOAuth(pc) {
      ActiveOAuth(db, begun, pc, e);
    } else if InManage(pc) {
      ActiveManage(db, begun, pc, e);
    } else if InRefresh(pc) {
      ActiveRefresh(db, begun, pc, e);
    } else {
      ActiveAccount(db, pc, e);
    }
  }

  lemma {:induction false} ActiveFinish(db: Db, begun: nat, pc: Pc, e: Env)
    requires DbInv(db) && begun < db.tick && PcOk(db, begun, pc) && ActiveMid(db, pc)
    ensures LiveOnlyActive(Finish(db, pc, e).db)
    decreases Rank(pc)
  {
    if Settled(pc) {
    } else {
      AdvanceKeeps(db, begun, pc, e);
      ActiveStep(db, begun, pc, e);
      ActiveFinish(Advance(db, pc, e).db, begun, Advance(db, pc, e).pc, e);
    }
  }

  lemma ActiveApply(db: Db, op: Op)
    requires DbInv(db) && LiveOnlyActive(db)
    ensures LiveOnlyActive(Apply(db, op).db)
  {
    FirstOk(db, op);
    ActiveFinish(Begun(db, op), db.tick, First(db, op), op.e);
  }

  /** In atomic runs an inactive user never has an unrevoked refresh row. */
  lemma {:induction false} InactiveHoldNoLiveRow(db: Db, ops: seq<Op>)
    requires DbInv(db) && LiveOnlyActive(db)
    ensures LiveOnlyActive(Play(db, ops))
    decreases |ops|
  {
    if ops == [] {
    } else {
      ApplyKeeps(db, ops[0]);
      ActiveApply(db, ops[0]);
      InactiveHoldNoLiveRow(Apply(db, ops[0]).db, ops[1..]);
    }
  }

  // ---- At least one credential ----

  /** The invariant documented on the user model. */
  ghost predicate Credentialed(db: Db) {
    forall u: UserId :: u < |db.users| ==> HasCredential(db, u)
  }

  /** A user made by an OAuth login waits for its link, whose identity is still free. */
  ghost predicate CredentialMid(db: Db, pc: Pc) {
    && (forall u: UserId :: u < |db.users| ==> HasCredential(db, u) || (pc.OAuthLink? && pc.who.id == u))
    && (pc.OAuthFindEmail? || pc.OAuthCreate? || pc.OAuthLink? ==> pc.profile.identity !in db.links)
  }

  lemma CredentialOAuth(db: Db, pc: Pc, e: Env)
    requires DbInv(db) && CredentialMid(db, pc)
    requires InOAuth(pc)
    ensures var next := AdvanceOAuth(db, pc, e); CredentialMid(next.db, next.pc)
  {
    var next := AdvanceOAuth(db, pc, e);
    forall u: UserId | u < |next.db.users|
      ensures HasCredential(next.db, u) || (next.pc.OAuthLink? && next.pc.who.id == u)
    {
      if u < |db.users| {
        assert HasCredential(db, u) || (pc.OAuthLink? && pc.who.id == u);
        if HasLink(db, u) {
          LinksGrow(db, next.db, u);
        } else if pc.OAuthLink? && pc.who.id == u {
          assert next.db.links[pc.profile.identity].user == u;
        }
      }
    }
  }

  lemma CredentialStep(db: Db, pc: Pc, e: Env)
    requires DbInv(db) && !Settled(pc) && CredentialMid(db, pc) && !pc.UnlinkDelete?
    ensures var next := Advance(db, pc, e); CredentialMid(next.db, next.pc) && !next.pc.UnlinkDelete?
  {
    if InOAuth(pc) {
      CredentialOAuth(db, pc, e);
    } else {
      var next := Advance(db, pc, e);
      CredentialElsewhere(db, pc, e);
      forall u: UserId | u < |next.db.users| ensures HasCredential(next.db, u) {
        if u < |db.users| {
          assert HasCredential(db, u);
        }
      }
    }
  }

  lemma {:induction false} CredentialFinish(db: Db, begun: nat, pc: Pc, e: Env)
    requires DbInv(db) && begun < db.tick && PcOk(db, begun, pc) && CredentialMid(db, pc) && !pc.UnlinkDelete?
    ensures var f := Finish(db, pc, e); CredentialMid(f.db, f.pc)
    decreases Rank(pc)
  {
    if Settled(pc) {
    } else {
      AdvanceKeeps(db, begun, pc, e);
      CredentialStep(db, pc, e);
      CredentialFinish(Advance(db, pc, e).db, begun, Advance(db, pc, e).pc, e);
    }
  }

  /** What a caller of unlink could check first: a password, or a link to another provider. */
  ghost predicate SafeUnlink(db: Db, pc: Pc) {
    pc.UnlinkDelete? ==> pc.user in db.locals || HasOther(db, pc.user, pc.provider) || !Linked(db, pc.user, pc.provider)
  }

  /** Unlinking keeps the invariant exactly when the user has a password, a link to another provider, or no link. */
  lemma UnlinkKeepsExactlyWhen(db: Db, pc: Pc, e: Env)
    requires DbInv(db) && Credentialed(db) && pc.UnlinkDelete? && pc.user < |db.users|
    ensures Credentialed(Advance(db, pc, e).db) <==> SafeUnlink(db, pc)
  {
    var after := Advance(db, pc, e).db;
    forall u: UserId | u < |db.users|
      ensures HasLink(after, u) <==>
                if u == pc.user && Linked(db, u, pc.provider) then HasOther(db, u, pc.provider) else HasLink(db, u)
    {
      UnlinkLeaves(db, pc, e, u);
    }
    assert after.users == db.users && after.locals == db.locals;
    assert HasCredential(db, pc.user);
    if SafeUnlink(db, pc) {
      forall u: UserId | u < |after.users| ensures HasCredential(after, u) {
        assert HasCredential(db, u);
      }
    } else {
      assert !HasCredential(after, pc.user);
    }
  }

  /** Every unlink of the run passes the check. */
  ghost predicate SafeRun(db: Db, ops: seq<Op>)
    decreases |ops|
  {
    ops == [] || (SafeUnlink(db, First(db, ops[0])) && SafeRun(Apply(db, ops[0]).db, ops[1..]))
  }

  lemma CredentialApply(db: Db, op: Op)
    requires DbInv(db) && Credentialed(db) && SafeUnlink(db, First(db, op))
    ensures Credentialed(Apply(db, op).db)
  {
    FirstOk(db, op);
    var pc := First(db, op);
    assert forall u: UserId :: HasCredential(Begun(db, op), u) <==> HasCredential(db, u);
    if pc.UnlinkDelete? {
      assert Linked(Read(db), pc.user, pc.provider) == Linked(db, pc.user, pc.provider);
      var next := Advance(Read(db), pc, op.e);
      assert Apply(db, op) == Finish(next.db, next.pc, op.e) == next;
      if pc.user < |db.users| {
        UnlinkKeepsExactlyWhen(Read(db), pc, op.e);
      }
    } else {
      CredentialFinish(Begun(db, op), db.tick, pc, op.e);
    }
  }

  /** Every operation but an unsafe unlink keeps at least one credential for every user, over whole runs. */
  lemma {:induction false} AtLeastOneCredential(db: Db, ops: seq<Op>)
    requires DbInv(db) && Credentialed(db) && SafeRun(db, ops)
    ensures Credentialed(Play(db, ops))
    decreases |ops|
  {
    if ops == [] {
    } else {
      ApplyKeeps(db, ops[0]);
      CredentialApply(db, ops[0]);
      AtLeastOneCredential(Apply(db, ops[0]).db, ops[1..]);
    }
  }
}
