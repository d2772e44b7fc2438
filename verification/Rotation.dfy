/** Refresh-token rotation under every interleaving of all the service's statements. */
module RotationTheorems {
  import opened Wrappers
  import opened Models
  import opened Database
  import opened Handlers
  import opened Machine

  // ---- The rotation forest ----

  /** `a` is `d`, or its parent, or its parent's parent, and so on. */
  ghost predicate DescendsFrom(tokens: seq<TokenRow>, d: nat, a: nat) {
    d == a || (d < |tokens| && tokens[d].origin.Rotation? && tokens[d].origin.parent < d
               && DescendsFrom(tokens, tokens[d].origin.parent, a))
  }

  ghost function Root(tokens: seq<TokenRow>, d: nat): nat {
    if d < |tokens| && tokens[d].origin.Rotation? && tokens[d].origin.parent < d
    then Root(tokens, tokens[d].origin.parent) else d
  }

  /** Following parents ends at a row made by `issue_tokens`, and stays with one user. */
  lemma {:induction false} RootIsSignIn(db: Db, d: nat)
    requires TokensOk(db) && d < |db.tokens|
    ensures var r := Root(db.tokens, d);
            r <= d && db.tokens[r].origin.SignIn? && db.tokens[r].userId == db.tokens[d].userId
                && DescendsFrom(db.tokens, d, r)
  {
    assert RotationOk(db.tokens, d);
    if db.tokens[d].origin.Rotation? {
      RootIsSignIn(db, db.tokens[d].origin.parent);
    }
  }

  lemma {:induction false} AncestorIsRevoked(db: Db, d: nat, a: nat)
    requires TokensOk(db) && d < |db.tokens| && a != d && DescendsFrom(db.tokens, d, a)
    ensures a < d && db.tokens[a].revoked && db.tokens[a].userId == db.tokens[d].userId
  {
    assert RotationOk(db.tokens, d);
    var q := db.tokens[d].origin.parent;
    if q != a {
      AncestorIsRevoked(db, q, a);
    }
  }

  /**
    In every run the rows form an acyclic forest: each row hangs under one row made by a
    sign-in of the same user, and no proper ancestor of a row is unrevoked.
  */
  lemma Forest(s: State, run: seq<Label>)
    requires Inv(s)
    ensures var ts := Exec(s, run).db.tokens;
            && (forall d :: 0 <= d < |ts| ==>
                  Root(ts, d) <= d && ts[Root(ts, d)].origin.SignIn? && ts[Root(ts, d)].userId == ts[d].userId
                  && DescendsFrom(ts, d, Root(ts, d)))
            && (forall d, a :: 0 <= d < |ts| && 0 <= a && a != d && DescendsFrom(ts, d, a) ==>
                  a < d && ts[a].revoked && ts[a].userId == ts[d].userId)
  {
    ExecKeeps(s, run);
    var db := Exec(s, run).db;
    forall d | 0 <= d < |db.tokens|
      ensures var r := Root(db.tokens, d);
              r <= d && db.tokens[r].origin.SignIn? && db.tokens[r].userId == db.tokens[d].userId
                  && DescendsFrom(db.tokens, d, r)
    {
      RootIsSignIn(db, d);
    }
    forall d, a | 0 <= d < |db.tokens| && 0 <= a && a != d && DescendsFrom(db.tokens, d, a)
      ensures a < d && db.tokens[a].revoked && db.tokens[a].userId == db.tokens[d].userId
    {
      AncestorIsRevoked(db, d, a);
    }
  }

  /** A revoked row is never unrevoked, and keeps its user, its keys and its origin, in every run. */
  lemma RevocationIsFinal(s: State, run: seq<Label>, i: nat)
    requires Inv(s) && i < |s.db.tokens|
    ensures var ts := Exec(s, run).db.tokens;
            && i < |ts|
            && (s.db.tokens[i].revoked ==> ts[i] == s.db.tokens[i])
            && ts[i].(revoked := false, revokedAt := 0) == s.db.tokens[i].(revoked := false, revokedAt := 0)
  {
    ExecKeeps(s, run);
    assert RowEvolves(s.db.tokens[i], Exec(s, run).db.tokens[i], s.db.tick);
  }

  // ---- The cut-off of a revoke-all ----

  /** The row was inserted after `p` by a sign-in, or by a rotation that had selected its parent before `p`. */
  ghost predicate Excused(row: TokenRow, p: nat) {
    row.bornAt > p && (row.origin.SignIn? || row.origin.selectedAt < p)
  }

  lemma {:induction false} ExcusedAncestor(db: Db, cut: Cut, r: nat) returns (a: nat)
    requires TokensOk(db) && cut in db.cuts && r < |db.tokens|
    requires db.tokens[r].userId == cut.user && db.tokens[r].bornAt > cut.at
    ensures a <= r && DescendsFrom(db.tokens, r, a) && db.tokens[a].userId == cut.user && Excused(db.tokens[a], cut.at)
  {
    if Excused(db.tokens[r], cut.at) {
      a := r;
    } else {
      assert RotationOk(db.tokens, r);
      assert CutOk(db.tokens, cut);
      a := ExcusedAncestor(db, cut, db.tokens[r].origin.parent);
    }
  }

  /** A call about to revoke all tokens of a user: logout, password change, deactivation, or replay of a dead token. */
  ghost predicate AboutToRevokeAll(s: State, c: CallId, user: UserId) {
    c in s.calls && (s.calls[c].pc == RevokeSessions(user) || s.calls[c].pc == RefreshRevokeAll(user))
  }

  lemma RevokesAllNow(s: State, c: CallId, e: Env, user: UserId)
    requires Inv(s) && Enabled(s, Run(c, e)) && AboutToRevokeAll(s, c, user)
    ensures var t := Next(s, Run(c, e));
            && Inv(t) && Cut(user, s.db.tick) in t.db.cuts && NoLiveRow(t.db, user)
            && t.calls == s.calls[c := t.calls[c]] && t.calls[c].pc.Done?
  {
    NextKeeps(s, Run(c, e));
  }

  /**
    After a revoke-all at point p, an unrevoked row of that user in any later state descends
    from a row inserted after p by a sign-in, or by a rotation whose SELECT came before p.
  */
  lemma CutOff(s: State, c: CallId, e: Env, user: UserId, run: seq<Label>, r: nat) returns (a: nat)
    requires Inv(s) && Enabled(s, Run(c, e)) && AboutToRevokeAll(s, c, user)
    requires var ts := Exec(Next(s, Run(c, e)), run).db.tokens; r < |ts| && ts[r].userId == user && !ts[r].revoked
    ensures var ts := Exec(Next(s, Run(c, e)), run).db.tokens;
            a <= r && DescendsFrom(ts, r, a) && ts[a].userId == user && Excused(ts[a], s.db.tick)
  {
    var mid := Next(s, Run(c, e));
    RevokesAllNow(s, c, e, user);
    ExecKeeps(mid, run);
    var db := Exec(mid, run).db;
    var cut := Cut(user, s.db.tick);
    assert CutOk(db.tokens, cut);
    a := ExcusedAncestor(db, cut, r);
  }

  /** A rotation of one of the user's rows sits between its SELECT and its INSERT. */
  ghost predicate RotationInFlight(s: State, user: UserId) {
    exists c :: c in s.calls && Rotating(s.calls[c].pc, user)
  }

  /** Rows inserted between two states by a sign-in of the user. */
  ghost predicate SignedIn(a: Db, b: Db, user: UserId) {
    exists i :: |a.tokens| <= i < |b.tokens| && b.tokens[i].userId == user && b.tokens[i].origin.SignIn?
  }

  /** The call holds a row of the user that it saw unrevoked. */
  predicate Rotating(pc: Pc, user: UserId) {
    (pc.RefreshUpdate? || pc.RefreshInsert?) && pc.user == user
  }

  /** One statement gives a user a row only by a sign-in, or by a rotation already in flight. */
  lemma NewRow(db: Db, begun: nat, pc: Pc, e: Env, user: UserId)
    requires DbInv(db) && begun < db.tick && PcOk(db, begun, pc) && !Settled(pc)
    requires NoLiveRow(db, user) && !Rotating(pc, user)
    ensures var next := Advance(db, pc, e);
            SignedIn(db, next.db, user) || (NoLiveRow(next.db, user) && !Rotating(next.pc, user))
  {
    var next := Advance(db, pc, e);
    if pc.IssueTokens? {
      if |next.db.tokens| > |db.tokens| && pc.who.id == user {
        assert next.db.tokens[|db.tokens|].userId == user;
      }
    } else if !WritesTokens(pc) {
      OthersLeaveTokens(db, pc, e);
    }
  }

  /** A step that runs no statement on Postgres. */
  lemma IdleStep(s: State, l: Label, user: UserId)
    requires NoLiveRow(s.db, user) && !RotationInFlight(s, user)
    requires !(l.Run? && Enabled(s, l) && !Outside(s.calls[l.call].pc))
    ensures NoLiveRow(Next(s, l).db, user) && !RotationInFlight(Next(s, l), user)
  {
    assert Next(s, l).db.tokens == s.db.tokens;
  }

  lemma QuietStep(s: State, l: Label, user: UserId)
    requires Inv(s) && NoLiveRow(s.db, user) && !RotationInFlight(s, user)
    ensures var t := Next(s, l);
            SignedIn(s.db, t.db, user) || (NoLiveRow(t.db, user) && !RotationInFlight(t, user))
  {
    if l.Run? && Enabled(s, l) && !Outside(s.calls[l.call].pc) {
      assert CallOk(s.db, s.calls[l.call]);
      NewRow(s.db, s.calls[l.call].begun, s.calls[l.call].pc, l.e, user);
    } else {
      IdleStep(s, l, user);
    }
  }

  /** With all rows revoked, no rotation in flight and no sign-in since, a user has no unrevoked row ever again. */
  lemma {:induction false} NoRevival(s: State, run: seq<Label>, user: UserId)
    requires Inv(s) && NoLiveRow(s.db, user) && !RotationInFlight(s, user)
    requires !SignedIn(s.db, Exec(s, run).db, user)
    ensures NoLiveRow(Exec(s, run).db, user)
    decreases |run|
  {
    if run == [] {
    } else {
      var mid, end := Next(s, run[0]), Exec(s, run);
      NextKeeps(s, run[0]);
      ExecKeeps(mid, run[1..]);
      QuietStep(s, run[0], user);
      forall i | 0 <= i < |mid.db.tokens| ensures RowEvolves(mid.db.tokens[i], end.db.tokens[i], mid.db.tick) {
      }
      NoRevival(mid, run[1..], user);
    }
  }

  /** A revoke-all with no rotation of the user in flight ends all its sessions for good, until it signs in again. */
  lemma RevokedForGood(s: State, c: CallId, e: Env, user: UserId, run: seq<Label>)
    requires Inv(s) && Enabled(s, Run(c, e)) && AboutToRevokeAll(s, c, user) && !RotationInFlight(s, user)
    requires !SignedIn(Next(s, Run(c, e)).db, Exec(Next(s, Run(c, e)), run).db, user)
    ensures NoLiveRow(Exec(Next(s, Run(c, e)), run).db, user)
  {
    var mid := Next(s, Run(c, e));
    RevokesAllNow(s, c, e, user);
    forall d | d in mid.calls ensures !Rotating(mid.calls[d].pc, user) {
      assert d != c ==> mid.calls[d] == s.calls[d];
    }
    NoRevival(mid, run, user);
  }

  // ---- How often one row can be rotated ----

  /**
    Two rotations of the same row both selected it before either marked it revoked, in every
    run: where no two rotations of a row overlap, each row is rotated at most once.
  */
  lemma RotationsOfOneRowOverlap(s: State, run: seq<Label>, i: nat, j: nat)
    requires Inv(s)
    requires var ts := Exec(s, run).db.tokens;
             i < |ts| && j < |ts| && i != j && ts[i].origin.Rotation? && ts[j].origin.Rotation?
             && ts[i].origin.parent == ts[j].origin.parent
    ensures var ts := Exec(s, run).db.tokens;
            ts[i].origin.selectedAt < ts[j].origin.updatedAt && ts[j].origin.selectedAt < ts[i].origin.updatedAt
  {
    ExecKeeps(s, run);
    assert RotationOk(Exec(s, run).db.tokens, i) && RotationOk(Exec(s, run).db.tokens, j);
  }

  // ---- Indexed lookup ----

  /** The plain scan that the lookup key replaces: the row whose hash verifies the raw token. */
  function ScanByHash(tokens: seq<TokenRow>, raw: string): Option<nat> {
    if tokens == [] then None
    else if Verify(raw, tokens[|tokens| - 1].tokenHash) then Some(|tokens| - 1)
    else ScanByHash(tokens[..|tokens| - 1], raw)
  }

  lemma {:induction false} LookupIsScanOn(tokens: seq<TokenRow>, raw: string)
    requires forall i :: 0 <= i < |tokens| ==> tokens[i].lookupKey == Hmac(tokens[i].tokenHash.text)
    ensures FindByLookupKey(tokens, Hmac(raw)) == ScanByHash(tokens, raw)
  {
    if tokens == [] {
    } else {
      LookupIsScanOn(tokens[..|tokens| - 1], raw);
    }
  }

  lemma LookupIsScanIn(db: Db, raw: string)
    requires TokensOk(db)
    ensures FindByLookupKey(db.tokens, Hmac(raw)) == ScanByHash(db.tokens, raw)
  {
    forall i | 0 <= i < |db.tokens| ensures db.tokens[i].lookupKey == Hmac(db.tokens[i].tokenHash.text) {
      assert RowOk(db, i);
    }
    LookupIsScanOn(db.tokens, raw);
  }

  lemma OnlyOneVerifies(db: Db, raw: string, i: nat)
    requires TokensOk(db) && i < |db.tokens|
    ensures Verify(raw, db.tokens[i].tokenHash) <==> FindByLookupKey(db.tokens, Hmac(raw)) == Some(i)
  {
    assert RowOk(db, i);
  }

  /**
    In every run the lookup key finds the row a scan over all hashes would, it is the only such
    row, and its hash verifies.
  */
  lemma LookupIsScan(s: State, run: seq<Label>, raw: string)
    requires Inv(s)
    ensures var ts := Exec(s, run).db.tokens;
            var found := FindByLookupKey(ts, Hmac(raw));
            && found == ScanByHash(ts, raw)
            && (forall i :: 0 <= i < |ts| ==> (Verify(raw, ts[i].tokenHash) <==> found == Some(i)))
  {
    ExecKeeps(s, run);
    var db := Exec(s, run).db;
    LookupIsScanIn(db, raw);
    forall i | 0 <= i < |db.tokens|
      ensures Verify(raw, db.tokens[i].tokenHash) <==> FindByLookupKey(db.tokens, Hmac(raw)) == Some(i)
    {
      OnlyOneVerifies(db, raw, i);
    }
  }
}
