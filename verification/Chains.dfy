/**
  How often one refresh token can be rotated, under every interleaving. The UPDATE of a
  rotation does not look at the row's state, so everything depends on the SELECTs: a row
  is rotated at most once exactly as long as no SELECT accepts a row another call holds.
*/
module ChainTheorems {
  import opened Wrappers
  import opened Models
  import opened Database
  import opened Handlers
  import opened Machine

  ghost predicate NoChild(tokens: seq<TokenRow>, q: nat) {
    forall i :: 0 <= i < |tokens| && tokens[i].origin.Rotation? ==> tokens[i].origin.parent != q
  }

  /** No row has two children. */
  ghost predicate Chained(tokens: seq<TokenRow>) {
    forall i, j ::
      0 <= i < |tokens| && 0 <= j < |tokens| && i != j && tokens[i].origin.Rotation? && tokens[j].origin.Rotation? ==>
        tokens[i].origin.parent != tokens[j].origin.parent
  }

  /** The call's SELECT has accepted the row, and its INSERT has not run. */
  predicate Holds(pc: Pc, row: nat) {
    (pc.RefreshUpdate? || pc.RefreshInsert?) && pc.row == row
  }

  // ---- One statement ----

  ghost predicate ChainMid(db: Db, pc: Pc) {
    && Chained(db.tokens)
    && (pc.RefreshUpdate? || pc.RefreshInsert? ==> NoChild(db.tokens, pc.row))
  }

  /** A row without a child gets one only from the INSERT of a call that holds it. */
  lemma NoChildStep(db: Db, pc: Pc, e: Env, q: nat)
    requires !Settled(pc) && NoChild(db.tokens, q) && !(pc.RefreshInsert? && pc.row == q)
    ensures NoChild(Advance(db, pc, e).db.tokens, q)
  {
    if !WritesTokens(pc) {
      OthersLeaveTokens(db, pc, e);
    }
  }

  lemma ChainedInsert(db: Db, pc: Pc, e: Env)
    requires pc.RefreshInsert? && Chained(db.tokens) && NoChild(db.tokens, pc.row)
    ensures Chained(AdvanceRefresh(db, pc, e).db.tokens)
  {
  }

  lemma ChainedStep(db: Db, pc: Pc, e: Env)
    requires !Settled(pc) && ChainMid(db, pc)
    ensures Chained(Advance(db, pc, e).db.tokens)
  {
    if pc.RefreshInsert? {
      ChainedInsert(db, pc, e);
    } else if !WritesTokens(pc) {
      OthersLeaveTokens(db, pc, e);
    }
  }

  /** An accepted row is unrevoked, so it has no child. */
  lemma AcceptedHasNoChild(db: Db, pc: Pc, e: Env)
    requires TokensOk(db) && pc.RefreshSelect? && AdvanceRefresh(db, pc, e).pc.RefreshUpdate?
    ensures var i := AdvanceRefresh(db, pc, e).pc.row; i < |db.tokens| && !db.tokens[i].revoked && NoChild(db.tokens, i)
  {
    forall k | 0 <= k < |db.tokens| && db.tokens[k].origin.Rotation?
      ensures db.tokens[k].origin.parent != AdvanceRefresh(db, pc, e).pc.row
    {
      assert RotationOk(db.tokens, k);
    }
  }

  /** Rows keep their origins except that a pending rotation may add its row. */
  lemma ChainStep(db: Db, pc: Pc, e: Env)
    requires TokensOk(db) && !Settled(pc) && ChainMid(db, pc)
    ensures var next := Advance(db, pc, e); ChainMid(next.db, next.pc)
  {
    var next := Advance(db, pc, e);
    ChainedStep(db, pc, e);
    OthersLeaveTokens(db, pc, e);
    if next.pc.RefreshUpdate? {
      AcceptedHasNoChild(db, pc, e);
    } else if next.pc.RefreshInsert? {
      NoChildStep(db, pc, e, next.pc.row);
    }
  }

  // ---- The exact condition ----

  /** No row has two children or two holders, and a held row has no child. */
  ghost predicate ChainInv(s: State) {
    && Chained(s.db.tokens)
    && (forall c, row :: c in s.calls && Holds(s.calls[c].pc, row) ==> NoChild(s.db.tokens, row))
    && (forall c, d, row :: c in s.calls && d in s.calls && c != d && Holds(s.calls[c].pc, row) ==>
          !Holds(s.calls[d].pc, row))
  }

  /** The step is a SELECT that accepts a row another call holds. */
  ghost predicate Overlaps(s: State, l: Label) {
    && l.Run? && Enabled(s, l) && s.calls[l.call].pc.RefreshSelect?
    && var next := Advance(s.db, s.calls[l.call].pc, l.e).pc;
       next.RefreshUpdate? && exists d :: d in s.calls && d != l.call && Holds(s.calls[d].pc, next.row)
  }

  lemma MoverHolds(s: State, c: CallId, e: Env, row: nat)
    requires Enabled(s, Run(c, e)) && Holds(Next(s, Run(c, e)).calls[c].pc, row)
    ensures !Outside(s.calls[c].pc)
    ensures Holds(s.calls[c].pc, row)
            || (s.calls[c].pc.RefreshSelect? && Advance(s.db, s.calls[c].pc, e).pc.RefreshUpdate?)
  {
    if !Outside(s.calls[c].pc) {
      OthersLeaveTokens(s.db, s.calls[c].pc, e);
    }
  }

  lemma RunKeepsChains(s: State, c: CallId, e: Env)
    requires Inv(s) && ChainInv(s) && Enabled(s, Run(c, e)) && !Outside(s.calls[c].pc) && !Overlaps(s, Run(c, e))
    ensures ChainInv(Next(s, Run(c, e)))
  {
    var t := Next(s, Run(c, e));
    assert forall d :: d in t.calls && d != c ==> t.calls[d] == s.calls[d];
    var pc := s.calls[c].pc;
    assert pc.RefreshUpdate? || pc.RefreshInsert? ==> Holds(pc, pc.row);
    ChainStep(s.db, pc, e);
    forall d, row | d in t.calls && Holds(t.calls[d].pc, row) ensures NoChild(t.db.tokens, row) {
      if d != c {
        NoChildStep(s.db, pc, e, row);
      }
    }
    forall d, row | d in t.calls && d != c && Holds(t.calls[c].pc, row) ensures !Holds(t.calls[d].pc, row) {
      MoverHolds(s, c, e, row);
    }
  }

  lemma TwoHolders(s: State, l: Label)
    requires Overlaps(s, l)
    ensures !ChainInv(Next(s, l))
  {
    var t := Next(s, l);
    var row := t.calls[l.call].pc.row;
    var d :| d in s.calls && d != l.call && Holds(s.calls[d].pc, row);
    assert Holds(t.calls[d].pc, row) && Holds(t.calls[l.call].pc, row);
  }

  /** A step that runs no statement on Postgres. */
  lemma IdleKeepsChains(s: State, l: Label)
    requires ChainInv(s) && !(l.Run? && Enabled(s, l) && !Outside(s.calls[l.call].pc))
    ensures ChainInv(Next(s, l))
  {
    var t := Next(s, l);
    assert t.db.tokens == s.db.tokens;
    forall c, row | c in t.calls && Holds(t.calls[c].pc, row) ensures c in s.calls && Holds(s.calls[c].pc, row) {
    }
  }

  /** One step keeps the chains exactly when it is not a SELECT that accepts a held row. */
  lemma ChainStepExact(s: State, l: Label)
    requires Inv(s) && ChainInv(s)
    ensures ChainInv(Next(s, l)) <==> !Overlaps(s, l)
  {
    if Overlaps(s, l) {
      TwoHolders(s, l);
    } else if l.Run? && Enabled(s, l) && !Outside(s.calls[l.call].pc) {
      RunKeepsChains(s, l.call, l.e);
    } else {
      IdleKeepsChains(s, l);
    }
  }

  ghost predicate NeverOverlaps(s: State, run: seq<Label>)
    decreases |run|
  {
    run == [] || (!Overlaps(s, run[0]) && NeverOverlaps(Next(s, run[0]), run[1..]))
  }

  /** In a run none of whose SELECTs accepts a held row, every token is rotated at most once. */
  lemma {:induction false} NoOverlapKeepsChains(s: State, run: seq<Label>)
    requires Inv(s) && ChainInv(s) && NeverOverlaps(s, run)
    ensures ChainInv(Exec(s, run))
    decreases |run|
  {
    if run == [] {
    } else {
      NextKeeps(s, run[0]);
      ChainStepExact(s, run[0]);
      NoOverlapKeepsChains(Next(s, run[0]), run[1..]);
    }
  }

  // ---- An overlap lets both rotations through ----

  /** Two rows were added after the first `n`, both unrevoked rotations of the same row. */
  ghost predicate RotatedTwice(tokens: seq<TokenRow>, n: nat, row: nat) {
    && |tokens| == n + 2
    && !tokens[n].revoked && tokens[n].origin.Rotation? && tokens[n].origin.parent == row
    && !tokens[n + 1].revoked && tokens[n + 1].origin.Rotation? && tokens[n + 1].origin.parent == row
  }

  /** The UPDATE of a rotation: the row is revoked whoever else holds it, and no key changes. */
  lemma UpdateRuns(s: State, c: CallId, e: Env) returns (t: State)
    requires Inv(s) && c in s.calls && s.calls[c].pc.RefreshUpdate? && s.now <= e.now
    ensures t == Next(s, Run(c, e)) && Inv(t) && t.now == e.now && |t.db.tokens| == |s.db.tokens|
    ensures forall i :: 0 <= i < |s.db.tokens| ==> t.db.tokens[i].lookupKey == s.db.tokens[i].lookupKey
    ensures c in t.calls && t.calls[c].pc.RefreshInsert? && t.calls[c].pc.row == s.calls[c].pc.row
    ensures forall d :: d in s.calls && d != c ==> d in t.calls && t.calls[d] == s.calls[d]
  {
    t := Next(s, Run(c, e));
    NextKeeps(s, Run(c, e));
    assert CallOk(s.db, s.calls[c]);
  }

  /** The INSERT of a rotation with an unused secret. */
  lemma InsertRuns(s: State, c: CallId, e: Env) returns (t: State)
    requires Inv(s) && c in s.calls && s.calls[c].pc.RefreshInsert? && s.now <= e.now && FreshDraw(s.db, e)
    ensures t == Next(s, Run(c, e)) && Inv(t) && t.now == e.now && |t.db.tokens| == |s.db.tokens| + 1
    ensures t.db.tokens[..|s.db.tokens|] == s.db.tokens
    ensures var row := t.db.tokens[|s.db.tokens|];
            !row.revoked && row.origin.Rotation? && row.origin.parent == s.calls[c].pc.row
    ensures forall f: Env :: FreshDraw(s.db, f) && f.raw != e.raw ==> FreshDraw(t.db, f)
    ensures forall d :: d in s.calls && d != c ==> d in t.calls && t.calls[d] == s.calls[d]
  {
    t := Next(s, Run(c, e));
    NextKeeps(s, Run(c, e));
    var pc := s.calls[c].pc;
    assert CallOk(s.db, s.calls[c]) && RowOk(s.db, pc.row);
    var next := AdvanceRefresh(s.db, pc, e);
    assert t.db == next.db && FindByLookupKey(s.db.tokens, Hmac(e.raw)).None?;
    assert next.db.tokens[..|s.db.tokens|] == s.db.tokens;
    assert forall i :: 0 <= i < |s.db.tokens| ==> next.db.tokens[i] == s.db.tokens[i];
  }

  lemma BothUpdate(s: State, c: CallId, d: CallId, e: Env, f: Env) returns (t: State)
    requires Inv(s) && c in s.calls && d in s.calls && c != d
    requires s.calls[c].pc.RefreshUpdate? && s.calls[d].pc.RefreshUpdate? && s.calls[c].pc.row == s.calls[d].pc.row
    requires s.now <= e.now <= f.now
    ensures t == Next(Next(s, Run(c, e)), Run(d, f)) && Inv(t) && t.now == f.now && |t.db.tokens| == |s.db.tokens|
    ensures forall i :: 0 <= i < |s.db.tokens| ==> t.db.tokens[i].lookupKey == s.db.tokens[i].lookupKey
    ensures c in t.calls && t.calls[c].pc.RefreshInsert? && t.calls[c].pc.row == s.calls[c].pc.row
    ensures d in t.calls && t.calls[d].pc.RefreshInsert? && t.calls[d].pc.row == s.calls[c].pc.row
  {
    var mid := UpdateRuns(s, c, e);
    t := UpdateRuns(mid, d, f);
  }

  lemma BothInsert(s: State, c: CallId, d: CallId, e: Env, f: Env, row: nat)
    requires Inv(s) && c in s.calls && d in s.calls && c != d
    requires s.calls[c].pc.RefreshInsert? && s.calls[d].pc.RefreshInsert?
             && s.calls[c].pc.row == s.calls[d].pc.row == row
    requires s.now <= e.now <= f.now && FreshDraw(s.db, e) && FreshDraw(s.db, f) && e.raw != f.raw
    ensures RotatedTwice(Next(Next(s, Run(c, e)), Run(d, f)).db.tokens, |s.db.tokens|, row)
  {
    var mid := InsertRuns(s, c, e);
    var t := InsertRuns(mid, d, f);
    assert t.db.tokens[|s.db.tokens|] == t.db.tokens[..|mid.db.tokens|][|s.db.tokens|];
  }

  /** Two calls at the UPDATE of one row: however the row stands, both go through and give it two unrevoked children. */
  lemma BothRotate(s: State, c: CallId, d: CallId, e0: Env, f0: Env, e1: Env, f1: Env)
    requires Inv(s) && c in s.calls && d in s.calls && c != d
    requires s.calls[c].pc.RefreshUpdate? && s.calls[d].pc.RefreshUpdate? && s.calls[c].pc.row == s.calls[d].pc.row
    requires s.now <= e0.now <= f0.now <= e1.now <= f1.now
    requires FreshDraw(s.db, e1) && FreshDraw(s.db, f1) && e1.raw != f1.raw
    ensures var ts := Exec(s, [Run(c, e0), Run(d, f0), Run(c, e1), Run(d, f1)]).db.tokens;
            RotatedTwice(ts, |s.db.tokens|, s.calls[c].pc.row) && !Chained(ts)
  {
    ExecFour(s, [Run(c, e0), Run(d, f0), Run(c, e1), Run(d, f1)]);
    var t := BothUpdate(s, c, d, e0, f0);
    BothInsert(t, c, d, e1, f1, s.calls[c].pc.row);
  }

  /** Whoever holds a row that a SELECT accepts has not revoked it yet. */
  lemma HolderIsWaiting(s: State, l: Label, d: CallId)
    requires Inv(s) && Overlaps(s, l) && d in s.calls && Holds(s.calls[d].pc, Next(s, l).calls[l.call].pc.row)
    ensures s.calls[d].pc.RefreshUpdate?
  {
    AcceptedHasNoChild(s.db, s.calls[l.call].pc, l.e);
    assert CallOk(s.db, s.calls[d]);
  }

  /** After a SELECT that accepts a held row, four more statements rotate the row twice. */
  lemma OverlapBreaksChains(s: State, l: Label, e0: Env, f0: Env, e1: Env, f1: Env) returns (d: CallId)
    requires Inv(s) && Overlaps(s, l)
    requires l.e.now <= e0.now <= f0.now <= e1.now <= f1.now
    requires FreshDraw(s.db, e1) && FreshDraw(s.db, f1) && e1.raw != f1.raw
    ensures var t := Next(s, l);
            var ts := Exec(t, [Run(l.call, e0), Run(d, f0), Run(l.call, e1), Run(d, f1)]).db.tokens;
            && t.calls[l.call].pc.RefreshUpdate?
            && RotatedTwice(ts, |s.db.tokens|, t.calls[l.call].pc.row) && !Chained(ts)
  {
    var t := Next(s, l);
    var row := t.calls[l.call].pc.row;
    d :| d in s.calls && d != l.call && Holds(s.calls[d].pc, row);
    NextKeeps(s, l);
    HolderIsWaiting(s, l, d);
    BothRotate(t, l.call, d, e0, f0, e1, f1);
  }

  // ---- Every live token is exposed ----

  ghost predicate Presentable(s: State, row: nat, raw: string, at: nat) {
    row < |s.db.tokens| && s.db.tokens[row].tokenHash.text == raw && !s.db.tokens[row].revoked
        && at <= s.db.tokens[row].expiresAt
  }

  lemma BeginRuns(s: State, c: CallId, raw: string) returns (t: State)
    requires Inv(s) && c !in s.calls
    ensures t == Next(s, Begin(c, Refresh(raw))) && Inv(t) && t.now == s.now && t.db.tokens == s.db.tokens
    ensures c in t.calls && t.calls[c].pc == RefreshSelect(raw)
    ensures forall d :: d in s.calls ==> d in t.calls && t.calls[d] == s.calls[d]
    ensures t.calls.Keys == s.calls.Keys + {c}
  {
    t := Next(s, Begin(c, Refresh(raw)));
    NextKeeps(s, Begin(c, Refresh(raw)));
  }

  lemma SelectRuns(s: State, c: CallId, row: nat, e: Env) returns (t: State)
    requires Inv(s) && c in s.calls && s.calls[c].pc.RefreshSelect? && s.now <= e.now
    requires Presentable(s, row, s.calls[c].pc.raw, e.now)
    ensures t == Next(s, Run(c, e)) && Inv(t) && t.now == e.now && t.db.tokens == s.db.tokens
    ensures c in t.calls && t.calls[c].pc.RefreshUpdate? && t.calls[c].pc.row == row
    ensures forall d :: d in s.calls && d != c ==> d in t.calls && t.calls[d] == s.calls[d]
  {
    t := Next(s, Run(c, e));
    NextKeeps(s, Run(c, e));
    assert RowOk(s.db, row);
    assert FindByLookupKey(s.db.tokens, Hmac(s.calls[c].pc.raw)) == Some(row);
  }

  /** In every state, any unrevoked, unexpired token is rotated twice by two refreshes whose statements alternate. */
  lemma AnyLiveTokenRotatesTwice(s: State, row: nat, raw: string, c: CallId, d: CallId, e: Env, f: Env)
    requires Inv(s) && c !in s.calls && d !in s.calls && c != d && s.now <= e.now == f.now
             && Presentable(s, row, raw, e.now)
    requires FreshDraw(s.db, e) && FreshDraw(s.db, f) && e.raw != f.raw
    ensures var ts := Exec(Exec(s, [Begin(c, Refresh(raw)), Begin(d, Refresh(raw)), Run(c, e), Run(d, f)]),
                           [Run(c, e), Run(d, f), Run(c, e), Run(d, f)]).db.tokens;
            RotatedTwice(ts, |s.db.tokens|, row) && !Chained(ts)
  {
    ExecFour(s, [Begin(c, Refresh(raw)), Begin(d, Refresh(raw)), Run(c, e), Run(d, f)]);
    var s1 := BeginRuns(s, c, raw);
    var s2 := BeginRuns(s1, d, raw);
    var s3 := SelectRuns(s2, c, row, e);
    var s4 := SelectRuns(s3, d, row, f);
    BothRotate(s4, c, d, e, f, e, f);
  }
}
