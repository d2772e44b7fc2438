/**
  The documented invariant that every user has a credential, under every interleaving
  and with calls cut off anywhere: which steps break it.
*/
module CredentialTheorems {
  import opened Models
  import opened Database
  import opened Handlers
  import opened Machine

  ghost predicate HasLink(db: Db, u: UserId) {
    exists x :: x in db.links && db.links[x].user == u
  }

  ghost predicate HasCredential(db: Db, u: UserId) {
    u in db.locals || HasLink(db, u)
  }

  ghost predicate HasOther(db: Db, u: UserId, p: Provider) {
    exists x :: x in db.links && db.links[x].user == u && x.provider != p
  }

  // ---- One statement ----

  lemma LinksGrow(a: Db, b: Db, u: UserId)
    requires HasLink(a, u) && forall x :: x in a.links ==> x in b.links && b.links[x] == a.links[x]
    ensures HasLink(b, u)
  {
    var x :| x in a.links && a.links[x].user == u;
    assert x in b.links && b.links[x].user == u;
  }

  /** The INSERT of a link gives its user one exactly when the identity is free, and changes nobody else's. */
  lemma LinkGives(db: Db, identity: Identity, user: UserId, u: UserId)
    ensures var after := InsertLink(db, identity, user);
            HasLink(after, u) <==> HasLink(db, u) || (u == user && identity !in db.links)
  {
    var after := InsertLink(db, identity, user);
    if HasLink(db, u) {
      LinksGrow(db, after, u);
    } else if u == user && identity !in db.links {
      assert identity in after.links && after.links[identity].user == u;
    }
  }

  /** After an unlink exactly the links that are not this user's to this provider are left. */
  lemma UnlinkLeaves(db: Db, pc: Pc, e: Env, u: UserId)
    requires pc.UnlinkDelete?
    ensures var after := Advance(db, pc, e).db;
            && (forall x :: x in after.links <==>
                  x in db.links && !(db.links[x].user == pc.user && x.provider == pc.provider))
            && (forall x :: x in after.links ==> after.links[x] == db.links[x])
            && (HasLink(after, u) <==>
                  if u == pc.user && Linked(db, u, pc.provider) then HasOther(db, u, pc.provider) else HasLink(db, u))
  {
    var after := Advance(db, pc, e).db;
    forall x | x in db.links && !(db.links[x].user == pc.user && x.provider == pc.provider) ensures x in after.links {
    }
    if HasLink(after, u) {
      var x :| x in after.links && after.links[x].user == u;
      assert x in db.links && db.links[x].user == u;
    }
    if HasOther(db, u, pc.provider) {
      var x :| x in db.links && db.links[x].user == u && x.provider != pc.provider;
      assert x in after.links && after.links[x].user == u;
    }
    if HasLink(db, u) && (u != pc.user || !Linked(db, u, pc.provider)) {
      var x :| x in db.links && db.links[x].user == u;
      assert x in after.links && after.links[x].user == u;
    }
  }

  /** No other statement touches the links, and users made outside OAuth come with a password. */
  lemma CredentialElsewhere(db: Db, pc: Pc, e: Env)
    requires DbInv(db) && !Settled(pc) && !pc.UnlinkDelete?
    requires !InOAuth(pc)
    ensures var next := Advance(db, pc, e);
            && next.db.links == db.links && db.locals.Keys <= next.db.locals.Keys
            && (forall u: UserId :: |db.users| <= u < |next.db.users| ==> u in next.db.locals)
            && !(next.pc.OAuthFindEmail? || next.pc.OAuthCreate? || next.pc.OAuthLink? || next.pc.UnlinkDelete?)
  {
    if InRefresh(pc) {
      RefreshLeavesAccounts(db, pc, e);
    } else if InManage(pc) {
      ManageLeavesLinks(db, pc, e);
    }
  }

  lemma ManageLeavesLinks(db: Db, pc: Pc, e: Env)
    requires InManage(pc) && !pc.UnlinkDelete?
    ensures var next := AdvanceManage(db, pc, e);
            && next.db.links == db.links && next.db.locals.Keys == db.locals.Keys && |next.db.users| == |db.users|
            && (next.pc.Done? || next.pc.PasswordUpdate? || next.pc.RevokeSessions?)
  {
  }

  // ---- The exact condition ----

  /** The call is about to insert a link for the user. */
  predicate Linking(pc: Pc, u: UserId) {
    pc.OAuthLink? && pc.who.id == u
  }

  ghost predicate Pending(s: State, u: UserId) {
    exists c :: c in s.calls && Linking(s.calls[c].pc, u)
  }

  ghost predicate PendingBut(s: State, c: CallId, u: UserId) {
    exists d :: d in s.calls && d != c && Linking(s.calls[d].pc, u)
  }

  /** Every user has a credential, or a call about to link one. */
  ghost predicate Covered(s: State) {
    forall u: UserId :: u < |s.db.users| ==> HasCredential(s.db, u) || Pending(s, u)
  }

  /**
    The step takes a user's only prospect of a credential: its call is cut off before the
    INSERT of its link, or finds the identity linked by now, or its last link is removed.
  */
  ghost predicate Strands(s: State, l: Label) {
    && !l.Begin? && Enabled(s, l)
    && var pc := s.calls[l.call].pc;
    if pc.OAuthLink? then
      && (l.Abort? || pc.profile.identity in s.db.links)
      && !HasCredential(s.db, pc.who.id) && !PendingBut(s, l.call, pc.who.id)
    else
      && l.Run? && pc.UnlinkDelete? && Linked(s.db, pc.user, pc.provider)
      && pc.user !in s.db.locals && !HasOther(s.db, pc.user, pc.provider) && !PendingBut(s, l.call, pc.user)
  }

  /** Only call `c` moved, so what other calls will link is still to come. */
  lemma PendingMoves(s: State, t: State, c: CallId, u: UserId)
    requires c in t.calls && forall d :: d != c ==>
             (d in t.calls <==> d in s.calls) && (d in t.calls ==> t.calls[d] == s.calls[d])
    ensures Pending(t, u) <==> PendingBut(s, c, u) || Linking(t.calls[c].pc, u)
    ensures Pending(s, u) <==> PendingBut(s, c, u) || (c in s.calls && Linking(s.calls[c].pc, u))
  {
    if PendingBut(s, c, u) {
      var d :| d in s.calls && d != c && Linking(s.calls[d].pc, u);
      assert t.calls[d] == s.calls[d];
    }
    if Pending(t, u) && !Linking(t.calls[c].pc, u) {
      var d :| d in t.calls && Linking(t.calls[d].pc, u);
      assert d in s.calls && t.calls[d] == s.calls[d];
    }
  }

  /** A step that leaves the tables alone and ends no call about to link. */
  lemma TablesStay(s: State, t: State, c: CallId)
    requires Covered(s) && t.db.users == s.db.users && t.db.locals == s.db.locals && t.db.links == s.db.links
    requires c in t.calls && forall d :: d != c ==>
             (d in t.calls <==> d in s.calls) && (d in t.calls ==> t.calls[d] == s.calls[d])
    requires c in s.calls ==> !s.calls[c].pc.OAuthLink?
    ensures Covered(t)
  {
    forall u: UserId | u < |t.db.users| ensures HasCredential(t.db, u) || Pending(t, u) {
      assert HasCredential(s.db, u) || Pending(s, u);
      PendingMoves(s, t, c, u);
    }
  }

  lemma AbortExact(s: State, c: CallId)
    requires Inv(s) && Covered(s) && Enabled(s, Abort(c))
    ensures Covered(Next(s, Abort(c))) <==> !Strands(s, Abort(c))
  {
    var t := Next(s, Abort(c));
    var pc := s.calls[c].pc;
    if pc.OAuthLink? {
      assert CallOk(s.db, s.calls[c]);
      forall u: UserId ensures HasCredential(t.db, u) == HasCredential(s.db, u) {
        assert t.db.links == s.db.links;
      }
      forall u: UserId ensures Pending(t, u) <==> PendingBut(s, c, u) {
        PendingMoves(s, t, c, u);
      }
      forall u: UserId | u < |s.db.users| && u != pc.who.id ensures HasCredential(t.db, u) || Pending(t, u) {
        PendingMoves(s, t, c, u);
        assert HasCredential(s.db, u) || Pending(s, u);
      }
    } else {
      TablesStay(s, t, c);
    }
  }

  lemma LinkRunFacts(s: State, c: CallId, e: Env, u: UserId)
    requires Enabled(s, Run(c, e)) && s.calls[c].pc.OAuthLink?
    ensures var t := Next(s, Run(c, e));
            var pc := s.calls[c].pc;
            && t.db.users == s.db.users
            && (HasCredential(t.db, u) <==>
                  HasCredential(s.db, u) || (u == pc.who.id && pc.profile.identity !in s.db.links))
            && (Pending(t, u) <==> PendingBut(s, c, u))
            && (Pending(s, u) <==> PendingBut(s, c, u) || u == pc.who.id)
  {
    var pc := s.calls[c].pc;
    assert Next(s, Run(c, e)).db == InsertLink(s.db, pc.profile.identity, pc.who.id);
    LinkGives(s.db, pc.profile.identity, pc.who.id, u);
    PendingMoves(s, Next(s, Run(c, e)), c, u);
  }

  lemma LinkRunExact(s: State, c: CallId, e: Env)
    requires Inv(s) && Covered(s) && Enabled(s, Run(c, e)) && s.calls[c].pc.OAuthLink?
    ensures Covered(Next(s, Run(c, e))) <==> !Strands(s, Run(c, e))
  {
    var t := Next(s, Run(c, e));
    assert CallOk(s.db, s.calls[c]);
    LinkRunFacts(s, c, e, s.calls[c].pc.who.id);
    forall u: UserId | u < |s.db.users| && u != s.calls[c].pc.who.id ensures HasCredential(t.db, u) || Pending(t, u) {
      LinkRunFacts(s, c, e, u);
      assert HasCredential(s.db, u) || Pending(s, u);
    }
  }

  lemma UnlinkRunExact(s: State, c: CallId, e: Env)
    requires Inv(s) && Covered(s) && Enabled(s, Run(c, e)) && s.calls[c].pc.UnlinkDelete?
    ensures Covered(Next(s, Run(c, e))) <==> !Strands(s, Run(c, e))
  {
    var t := Next(s, Run(c, e));
    var pc := s.calls[c].pc;
    var gone := Linked(s.db, pc.user, pc.provider);
    forall u: UserId
      ensures HasLink(t.db, u) <==> if u == pc.user && gone then HasOther(s.db, u, pc.provider) else HasLink(s.db, u)
      ensures Pending(t, u) <==> PendingBut(s, c, u)
      ensures Pending(s, u) <==> PendingBut(s, c, u)
    {
      UnlinkLeaves(s.db, pc, e, u);
      PendingMoves(s, t, c, u);
    }
    assert t.db.users == s.db.users && t.db.locals == s.db.locals;
    assert gone ==> pc.user < |s.db.users|;
    forall u: UserId | u < |s.db.users| && !(u == pc.user && gone) ensures HasCredential(t.db, u) || Pending(t, u) {
      assert HasCredential(s.db, u) || Pending(s, u);
    }
  }

  /** The lookups and the INSERT of a user before its link: a new user's own call is about to link it. */
  lemma OAuthStatementCovers(db: Db, pc: Pc, e: Env, u: UserId)
    requires InOAuth(pc) && !pc.OAuthLink?
    ensures var next := AdvanceOAuth(db, pc, e);
            && next.db.locals == db.locals && next.db.links == db.links
            && (|db.users| <= u < |next.db.users| ==> Linking(next.pc, u))
  {
  }

  lemma OAuthRunCovers(s: State, c: CallId, e: Env)
    requires Inv(s) && Covered(s) && Enabled(s, Run(c, e)) && InOAuth(s.calls[c].pc) && !s.calls[c].pc.OAuthLink?
    ensures Covered(Next(s, Run(c, e)))
  {
    var t := Next(s, Run(c, e));
    forall u: UserId | u < |t.db.users| ensures HasCredential(t.db, u) || Pending(t, u) {
      OAuthStatementCovers(s.db, s.calls[c].pc, e, u);
      PendingMoves(s, t, c, u);
      if u < |s.db.users| {
        assert HasCredential(s.db, u) || Pending(s, u);
      }
    }
  }

  lemma OtherRunCovers(s: State, c: CallId, e: Env)
    requires Inv(s) && Covered(s) && Enabled(s, Run(c, e))
    requires !Settled(s.calls[c].pc) && !InOAuth(s.calls[c].pc) && !s.calls[c].pc.UnlinkDelete?
    ensures Covered(Next(s, Run(c, e)))
  {
    var t := Next(s, Run(c, e));
    CredentialElsewhere(s.db, s.calls[c].pc, e);
    forall u: UserId | u < |t.db.users| ensures HasCredential(t.db, u) || Pending(t, u) {
      PendingMoves(s, t, c, u);
      if u < |s.db.users| {
        assert HasCredential(s.db, u) || Pending(s, u);
        assert HasLink(s.db, u) == HasLink(t.db, u);
      }
    }
  }

  lemma OutsideRunCovers(s: State, c: CallId, e: Env)
    requires Covered(s) && Enabled(s, Run(c, e)) && Outside(s.calls[c].pc)
    ensures Covered(Next(s, Run(c, e)))
  {
    TablesStay(s, Next(s, Run(c, e)), c);
  }

  lemma RunExact(s: State, c: CallId, e: Env)
    requires Inv(s) && Covered(s) && Enabled(s, Run(c, e))
    ensures Covered(Next(s, Run(c, e))) <==> !Strands(s, Run(c, e))
  {
    var pc := s.calls[c].pc;
    if pc.OAuthLink? {
      LinkRunExact(s, c, e);
    } else if pc.UnlinkDelete? {
      UnlinkRunExact(s, c, e);
    } else {
      assert !Strands(s, Run(c, e));
      if Outside(pc) {
        OutsideRunCovers(s, c, e);
      } else if InOAuth(pc) {
        OAuthRunCovers(s, c, e);
      } else {
        OtherRunCovers(s, c, e);
      }
    }
  }

  /** One step leaves every user covered exactly when it strands nobody. */
  lemma CoveredStepExact(s: State, l: Label)
    requires Inv(s) && Covered(s)
    ensures Covered(Next(s, l)) <==> !Strands(s, l)
  {
    if Enabled(s, l) {
      match l
      case Begin(c, request) => TablesStay(s, Next(s, l), c);
      case Abort(c) => AbortExact(s, c);
      case Run(c, e) => RunExact(s, c, e);
    }
  }

  ghost predicate CoveredThroughout(s: State, run: seq<Label>)
    decreases |run|
  {
    Covered(s) && (run == [] || CoveredThroughout(Next(s, run[0]), run[1..]))
  }

  ghost predicate NeverStrands(s: State, run: seq<Label>)
    decreases |run|
  {
    run == [] || (!Strands(s, run[0]) && NeverStrands(Next(s, run[0]), run[1..]))
  }

  /** In every run, cut-off calls included, all users stay covered exactly when no step strands one. */
  lemma {:induction false} CoveredExactly(s: State, run: seq<Label>)
    requires Inv(s) && Covered(s)
    ensures CoveredThroughout(s, run) <==> NeverStrands(s, run)
    decreases |run|
  {
    if run == [] {
    } else {
      NextKeeps(s, run[0]);
      CoveredStepExact(s, run[0]);
      if Covered(Next(s, run[0])) {
        CoveredExactly(Next(s, run[0]), run[1..]);
      }
    }
  }

  /**
    A user without a credential whose call reaches its link gets one exactly when the call goes
    on and the identity is free.
  */
  lemma LinkedOrBare(s: State, c: CallId, l: Label)
    requires Inv(s) && c in s.calls && s.calls[c].pc.OAuthLink? && !HasCredential(s.db, s.calls[c].pc.who.id)
    requires Enabled(s, l) && !l.Begin? && l.call == c
    ensures HasCredential(Next(s, l).db, s.calls[c].pc.who.id) <==>
            l.Run? && s.calls[c].pc.profile.identity !in s.db.links
  {
    var pc := s.calls[c].pc;
    if l.Run? {
      assert Next(s, l).db == InsertLink(s.db, pc.profile.identity, pc.who.id);
      LinkGives(s.db, pc.profile.identity, pc.who.id, pc.who.id);
    } else {
      assert Next(s, l).db.links == s.db.links;
    }
  }
}
