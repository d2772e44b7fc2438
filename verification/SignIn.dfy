/** Who obtains tokens, under every interleaving: each session traces back to proof of who its user is. */
module SignInTheorems {
  import opened Models
  import opened Database
  import opened Handlers
  import opened Machine

  /** The state before the run's step `k`. */
  function At(s: State, run: seq<Label>, k: nat): State
    requires k <= |run|
  {
    Exec(s, run[..k])
  }

  /** Step `k` of the run is a Postgres statement of call `c`. */
  ghost predicate Moves(s: State, run: seq<Label>, k: nat, c: CallId) {
    && k < |run| && run[k].Run? && run[k].call == c && Enabled(At(s, run, k), run[k])
    && !Settled(At(s, run, k).calls[c].pc)
  }

  lemma LastStep(s: State, run: seq<Label>)
    requires run != []
    ensures Exec(s, run) == Next(At(s, run, |run| - 1), run[|run| - 1])
  {
    assert run == run[..|run| - 1] + [run[|run| - 1]];
    ExecSnoc(s, run[..|run| - 1], run[|run| - 1]);
  }

  lemma PrefixMoves(s: State, run: seq<Label>, n: nat, k: nat, c: CallId)
    requires n <= |run| && Moves(s, run[..n], k, c)
    ensures Moves(s, run, k, c) && At(s, run, k) == At(s, run[..n], k) && run[k] == run[..n][k]
  {
    assert run[..n][..k] == run[..k];
  }

  // ---- What a call was asked ----

  ghost predicate RequestOk(call: Call) {
    match call.pc
    case RegisterCreate(email, handle, password) => call.request == Register(email, handle, password)
    case LoginFind(email, password) => call.request == Login(email, password)
    case LoginCredential(who, password) => call.request == Login(who.row.email, password)
    case _ => InOAuth(call.pc) || call.pc.CallbackTake? || call.pc.CallbackFetch? ==> call.request.Callback?
  }

  ghost predicate RequestsOk(s: State) {
    forall c :: c in s.calls ==> RequestOk(s.calls[c])
  }

  lemma AdvanceRequest(db: Db, call: Call, e: Env)
    requires !Settled(call.pc) && RequestOk(call)
    ensures RequestOk(call.(pc := Advance(db, call.pc, e).pc))
  {
    if InRefresh(call.pc) {
      RefreshLeavesAccounts(db, call.pc, e);
    }
  }

  lemma OutsideRequest(s: State, c: CallId, e: Env)
    requires c in s.calls && RequestOk(s.calls[c]) && Outside(s.calls[c].pc)
    ensures c in OutsideStep(s, c, e).calls && RequestOk(OutsideStep(s, c, e).calls[c])
  {
  }

  lemma StartRequest(issued: set<Claims>, call: Call)
    requires call.pc == Start(issued, call.request)
    ensures RequestOk(call)
  {
  }

  /** The call that moves still fits its request. */
  lemma MoverRequest(s: State, l: Label)
    requires RequestsOk(s) && Enabled(s, l)
    ensures l.call in Next(s, l).calls && RequestOk(Next(s, l).calls[l.call])
  {
    match l
    case Begin(c, request) => StartRequest(s.db.issued, Next(s, l).calls[c]);
    case Abort(c) =>
    case Run(c, e) =>
      if Outside(s.calls[c].pc) {
        OutsideRequest(s, c, e);
      } else {
        AdvanceRequest(s.db, s.calls[c], e);
      }
  }

  lemma NextRequests(s: State, l: Label)
    requires RequestsOk(s)
    ensures RequestsOk(Next(s, l))
  {
    if Enabled(s, l) {
      MoverRequest(s, l);
      OthersUnmoved(s, l);
    }
  }

  lemma OthersUnmoved(s: State, l: Label)
    requires Enabled(s, l)
    ensures forall c :: c in Next(s, l).calls && c != l.call ==> c in s.calls && Next(s, l).calls[c] == s.calls[c]
  {
  }

  lemma {:induction false} ExecRequests(s: State, run: seq<Label>)
    requires RequestsOk(s)
    ensures RequestsOk(Exec(s, run))
    decreases |run|
  {
    if run == [] {
    } else {
      NextRequests(s, run[0]);
      ExecRequests(Next(s, run[0]), run[1..]);
    }
  }

  // ---- How a call got where it is ----

  /** Points that only a statement of the call itself leads to. */
  predicate Inner(pc: Pc) {
    pc.LoginCredential? || pc.IssueTokens? || pc.OAuthFindEmail? || pc.OAuthCreate? || pc.OAuthLink?
        || pc.OAuthCredential?
  }

  lemma IntoInner(s: State, l: Label, c: CallId)
    requires c in Next(s, l).calls && Inner(Next(s, l).calls[c].pc)
    requires !(c in s.calls && s.calls[c] == Next(s, l).calls[c])
    ensures l.Run? && l.call == c && Enabled(s, l) && !Settled(s.calls[c].pc)
    ensures Advance(s.db, s.calls[c].pc, l.e).pc == Next(s, l).calls[c].pc
  {
  }

  /** The statement that brought a call to such a point. */
  lemma {:induction false} MovedInto(s: State, run: seq<Label>, c: CallId) returns (k: nat)
    requires s.calls == map[] && c in Exec(s, run).calls && Inner(Exec(s, run).calls[c].pc)
    ensures Moves(s, run, k, c)
    ensures var before := At(s, run, k);
            Advance(before.db, before.calls[c].pc, run[k].e).pc == Exec(s, run).calls[c].pc
    decreases |run|
  {
    var n := |run| - 1;
    LastStep(s, run);
    var before := At(s, run, n);
    if c in before.calls && before.calls[c] == Exec(s, run).calls[c] {
      k := MovedInto(s, run[..n], c);
      PrefixMoves(s, run, n, k, c);
    } else {
      IntoInner(before, run[n], c);
      k := n;
    }
  }

  /** Only `issue_tokens` inserts sign-in rows, one at a time. */
  lemma RowFromStatement(db: Db, pc: Pc, e: Env, i: nat)
    requires !Settled(pc) && |db.tokens| <= i < |Advance(db, pc, e).db.tokens|
    requires Advance(db, pc, e).db.tokens[i].origin.SignIn?
    ensures pc.IssueTokens? && i == |db.tokens| && Advance(db, pc, e).db.tokens[i].userId == pc.who.id
  {
    if !WritesTokens(pc) {
      OthersLeaveTokens(db, pc, e);
    }
  }

  lemma RowInserted(s: State, l: Label, i: nat)
    requires |s.db.tokens| <= i < |Next(s, l).db.tokens| && Next(s, l).db.tokens[i].origin.SignIn?
    ensures l.Run? && Enabled(s, l) && s.calls[l.call].pc.IssueTokens? && i == |s.db.tokens|
    ensures Next(s, l).db.tokens[i].userId == s.calls[l.call].pc.who.id
  {
    if l.Run? && Enabled(s, l) && !Outside(s.calls[l.call].pc) {
      RowFromStatement(s.db, s.calls[l.call].pc, l.e, i);
    }
  }

  lemma {:induction false} InsertedBy(s: State, run: seq<Label>, i: nat) returns (c: CallId, k: nat)
    requires Inv(s) && |s.db.tokens| <= i < |Exec(s, run).db.tokens| && Exec(s, run).db.tokens[i].origin.SignIn?
    ensures Moves(s, run, k, c) && At(s, run, k).calls[c].pc.IssueTokens? && |At(s, run, k).db.tokens| == i
    ensures At(s, run, k).calls[c].pc.who.id == Exec(s, run).db.tokens[i].userId
    decreases |run|
  {
    var n := |run| - 1;
    LastStep(s, run);
    var before := At(s, run, n);
    ExecKeeps(s, run[..n]);
    NextKeeps(before, run[n]);
    if i < |before.db.tokens| {
      assert RowEvolves(before.db.tokens[i], Exec(s, run).db.tokens[i], before.db.tick);
      c, k := InsertedBy(s, run[..n], i);
      PrefixMoves(s, run, n, k, c);
    } else {
      RowInserted(before, run[n], i);
      c, k := run[n].call, n;
    }
  }

  // ---- What identifies a user ----

  /**
    The statement that call `c` is about to run identifies user `u`: a registration about to
    create it, a login presenting the password stored for it right now, or a callback whose
    profile carries an identity linked to it or its email, or is about to create it.
  */
  ghost predicate Identifies(s: State, c: CallId, u: UserId) {
    && c in s.calls
    && match s.calls[c].pc
       case RegisterCreate(email, handle, password) =>
         s.calls[c].request == Register(email, handle, password) && u == |s.db.users|
       case LoginCredential(_, password) =>
         && u < |s.db.users| && s.calls[c].request == Login(s.db.users[u].email, password)
         && u in s.db.locals && Verify(password, s.db.locals[u].passwordHash)
       case OAuthFindLink(profile) =>
         s.calls[c].request.Callback? && profile.identity in s.db.links && s.db.links[profile.identity].user == u
       case OAuthFindEmail(profile) =>
         s.calls[c].request.Callback? && u < |s.db.users| && s.db.users[u].email == profile.email
       case OAuthCreate(_) => s.calls[c].request.Callback? && u == |s.db.users|
       case _ => false
  }

  /** Step `j` identified user `u` for call `c`. */
  ghost predicate IdentifiedAt(s: State, run: seq<Label>, j: nat, c: CallId, u: UserId) {
    Moves(s, run, j, c) && Identifies(At(s, run, j), c, u)
  }

  lemma BeforeIssue(db: Db, pc: Pc, e: Env)
    requires !Settled(pc) && Advance(db, pc, e).pc.IssueTokens?
    ensures pc.RegisterCreate? || pc.LoginCredential? || pc.OAuthCredential?
    ensures var u := Advance(db, pc, e).pc.who.id;
            && (pc.RegisterCreate? ==> u == |db.users|)
            && (pc.LoginCredential? ==>
                  u == pc.who.id && u in db.locals && Verify(pc.password, db.locals[u].passwordHash))
            && (pc.OAuthCredential? ==> u == pc.who.id)
  {
  }

  lemma BeforeResolved(db: Db, pc: Pc, e: Env)
    requires !Settled(pc) && Advance(db, pc, e).pc.OAuthCredential?
    ensures pc.OAuthFindLink? || pc.OAuthLink?
    ensures var u := Advance(db, pc, e).pc.who.id;
            && (pc.OAuthFindLink? ==> pc.profile.identity in db.links && db.links[pc.profile.identity].user == u)
            && (pc.OAuthLink? ==> u == pc.who.id)
  {
  }

  lemma BeforeLink(db: Db, pc: Pc, e: Env)
    requires !Settled(pc) && Advance(db, pc, e).pc.OAuthLink?
    ensures pc.OAuthFindEmail? || pc.OAuthCreate?
    ensures var u := Advance(db, pc, e).pc.who.id;
            && (pc.OAuthFindEmail? ==> u < |db.users| && db.users[u].email == pc.profile.email)
            && (pc.OAuthCreate? ==> u == |db.users|)
  {
  }

  /** A call about to link was identified by its profile's email, or has created the user. */
  lemma LinkIdentified(s: State, run: seq<Label>, c: CallId) returns (j: nat)
    requires Inv(s) && s.calls == map[] && c in Exec(s, run).calls && Exec(s, run).calls[c].pc.OAuthLink?
    ensures IdentifiedAt(s, run, j, c, Exec(s, run).calls[c].pc.who.id)
  {
    j := MovedInto(s, run, c);
    var before := At(s, run, j);
    ExecRequests(s, run[..j]);
    assert RequestOk(before.calls[c]);
    BeforeLink(before.db, before.calls[c].pc, run[j].e);
  }

  lemma ResolvedIdentified(s: State, run: seq<Label>, c: CallId) returns (j: nat)
    requires Inv(s) && s.calls == map[] && c in Exec(s, run).calls && Exec(s, run).calls[c].pc.OAuthCredential?
    ensures IdentifiedAt(s, run, j, c, Exec(s, run).calls[c].pc.who.id)
  {
    var k := MovedInto(s, run, c);
    var before := At(s, run, k);
    ExecRequests(s, run[..k]);
    assert RequestOk(before.calls[c]);
    BeforeResolved(before.db, before.calls[c].pc, run[k].e);
    if before.calls[c].pc.OAuthLink? {
      j := LinkIdentified(s, run[..k], c);
      PrefixMoves(s, run, k, j, c);
    } else {
      j := k;
    }
  }

  lemma IssueIdentified(s: State, run: seq<Label>, c: CallId) returns (j: nat)
    requires Inv(s) && s.calls == map[] && c in Exec(s, run).calls && Exec(s, run).calls[c].pc.IssueTokens?
    ensures IdentifiedAt(s, run, j, c, Exec(s, run).calls[c].pc.who.id)
  {
    var k := MovedInto(s, run, c);
    var before := At(s, run, k);
    ExecRequests(s, run[..k]);
    ExecKeeps(s, run[..k]);
    assert RequestOk(before.calls[c]) && CallOk(before.db, before.calls[c]);
    BeforeIssue(before.db, before.calls[c].pc, run[k].e);
    if before.calls[c].pc.OAuthCredential? {
      j := ResolvedIdentified(s, run[..k], c);
      PrefixMoves(s, run, k, j, c);
    } else {
      j := k;
    }
  }

  /**
    In every run, each sign-in row was inserted by a call that an earlier statement of its own
    had identified as the row's user: by creating it, by the password stored for it at that
    moment, or by a provider's profile with its identity or email.
  */
  lemma SignInsAreEarned(s: State, run: seq<Label>, i: nat) returns (c: CallId, j: nat, k: nat)
    requires Inv(s) && s.calls == map[]
    requires |s.db.tokens| <= i < |Exec(s, run).db.tokens| && Exec(s, run).db.tokens[i].origin.SignIn?
    ensures j < k && IdentifiedAt(s, run, j, c, Exec(s, run).db.tokens[i].userId)
    ensures Moves(s, run, k, c) && At(s, run, k).calls[c].pc.IssueTokens? && |At(s, run, k).db.tokens| == i
  {
    c, k := InsertedBy(s, run, i);
    j := IssueIdentified(s, run[..k], c);
    PrefixMoves(s, run, k, j, c);
  }
}
