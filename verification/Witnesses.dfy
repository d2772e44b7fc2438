/** Runs from the empty service that break what one might have expected of it. */
module Witnesses {
  import opened Wrappers
  import opened Models
  import opened Database
  import opened Handlers
  import opened Machine
  import opened Atomic
  import opened AccountTheorems
  import opened ChainTheorems
  import opened CredentialTheorems
  import opened Refinement

  function Draw(raw: string): Env {
    Env(0, 1, 0, raw, "state", "verifier", "code", "subject", "a@b", None, true)
  }

  // ---- One token, two successors ----

  lemma FreshRegistration() returns (run: seq<Label>)
    ensures var s := Exec(FRESH, run);
            Inv(s) && s.now == 0 && |s.db.tokens| == 1 && Presentable(s, 0, "r", 0)
                && s.db.tokens[0].lookupKey == Hmac("r")
  {
    var op := Op(Register("a@b", "abc", "password"), Draw("r"));
    run := OpIsARun(FRESH, op);
    FreshInv();
    ExecKeeps(FRESH, run);
    RegisterExact(FRESH.db, "a@b", "abc", "password", Draw("r"));
    assert MayRegister(Abs(FRESH.db), "a@b", "abc", "password");
    assert RowOk(Exec(FRESH, run).db, 0);
  }

  /** From the empty service: one registration, and two refreshes of its token that both succeed. */
  lemma OneTokenTwoSuccessors() returns (run: seq<Label>)
    ensures RotatedTwice(Exec(FRESH, run).db.tokens, 1, 0) && !Chained(Exec(FRESH, run).db.tokens)
  {
    var first := FreshRegistration();
    var s := Exec(FRESH, first);
    var c := UnusedId(s.calls.Keys);
    var both := [Begin(c, Refresh("r")), Begin(c + 1, Refresh("r")), Run(c, Draw("x")), Run(c + 1, Draw("y"))];
    var rest := [Run(c, Draw("x")), Run(c + 1, Draw("y")), Run(c, Draw("x")), Run(c + 1, Draw("y"))];
    AnyLiveTokenRotatesTwice(s, 0, "r", c, c + 1, Draw("x"), Draw("y"));
    ExecAppend(FRESH, first, both);
    ExecAppend(FRESH, first + both, rest);
    run := first + both + rest;
  }

  // ---- Users without a credential ----

  /** Nobody has the profile's identity, email or name. */
  ghost predicate Stranger(db: Db, profile: Profile) {
    && profile.identity !in db.links && !EmailUsed(db, profile.email) && !DisplayNameUsed(db, OAuthName(profile))
  }

  /** The unlink request of a user who has just come in by OAuth. */
  function UnlinkSelf(db: Db, profile: Profile, e: Env): Op
    requires Delivered(Apply(db, OAuthLogin(profile, e)).pc).Some?
  {
    Op(UnlinkConnection(Delivered(Apply(db, OAuthLogin(profile, e)).pc).value.claims,
        Slug(profile.identity.provider)), e)
  }

  /** An unlink of the only link takes the only credential. */
  lemma LastLinkGoes(db: Db, u: UserId, p: Provider, e: Env)
    requires u !in db.locals && Linked(db, u, p) && !HasOther(db, u, p)
    ensures var f := Finish(db, UnlinkDelete(u, p), e); f.db.users == db.users && !HasCredential(f.db, u)
  {
    var last := AdvanceManage(db, UnlinkDelete(u, p), e);
    assert Finish(db, UnlinkDelete(u, p), e) == Finish(last.db, last.pc, e) == last;
    UnlinkLeaves(db, UnlinkDelete(u, p), e, u);
  }

  /** After a stranger's OAuth login its new user has no password, one link, and an issued token to unlink it with. */
  lemma StrangerComesIn(db: Db, profile: Profile, e: Env)
    requires DbInv(db) && FreshDraw(db, e) && Stranger(db, profile)
    ensures var f := Apply(db, OAuthLogin(profile, e));
            var u := |db.users|;
            && Delivered(f.pc).Some? && u < |f.db.users|
            && First(f.db, UnlinkSelf(db, profile, e)) == UnlinkDelete(u, profile.identity.provider)
            && u !in f.db.locals && Linked(f.db, u, profile.identity.provider)
            && !HasOther(f.db, u, profile.identity.provider)
  {
    var f := Apply(db, OAuthLogin(profile, e));
    OAuthExact(db, profile, e);
    DeliveredIsIssued(db, profile, e);
    assert f.db.links[profile.identity].user == |db.users|;
  }

  lemma DeliveredIsIssued(db: Db, profile: Profile, e: Env)
    requires DbInv(db) && Delivered(Apply(db, OAuthLogin(profile, e)).pc).Some?
    ensures var f := Apply(db, OAuthLogin(profile, e)); Delivered(f.pc).value.claims in f.db.issued
  {
    ApplyKeeps(db, OAuthLogin(profile, e));
  }

  /** In every state, a stranger who logs in by OAuth and unlinks the provider is left without a credential. */
  lemma UnlinkLeavesBare(db: Db, profile: Profile, e: Env)
    requires DbInv(db) && FreshDraw(db, e) && Stranger(db, profile)
    ensures var f := Apply(db, OAuthLogin(profile, e));
            && Delivered(f.pc).Some?
            && var g := Apply(f.db, UnlinkSelf(db, profile, e));
            |db.users| < |g.db.users| && !HasCredential(g.db, |db.users|)
  {
    var f := Apply(db, OAuthLogin(profile, e));
    StrangerComesIn(db, profile, e);
    LastLinkGoes(Read(f.db), |db.users|, profile.identity.provider, e);
  }

  /** From the empty service: an OAuth login and an unlink. */
  lemma UnlinkedUser() returns (run: seq<Label>)
    ensures var db := Exec(FRESH, run).db; |db.users| > 0 && !HasCredential(db, 0)
  {
    var profile := Profile(Identity(Google, "subject"), "a@b", None);
    var e := Draw("r");
    FreshInv();
    UnlinkLeavesBare(FRESH.db, profile, e);
    var first := OAuthLogin(profile, e);
    var second := UnlinkSelf(FRESH.db, profile, e);
    run := PlayIsARun(FRESH, [first, second]);
    var f := Apply(FRESH.db, first).db;
    assert [first, second][1..] == [second] && [second][1..] == [];
    assert Play(FRESH.db, [first, second]) == Play(f, [second]) == Play(Apply(f, second).db, []);
  }

  lemma IdentityIsUnknown(s: State, c: CallId, e: Env) returns (t: State)
    requires Inv(s) && c in s.calls && s.calls[c].pc.OAuthFindLink? && Stranger(s.db, s.calls[c].pc.profile)
    requires s.now <= e.now
    ensures t == Next(s, Run(c, e)) && Inv(t) && t.now == e.now && t.db == Read(s.db)
    ensures c in t.calls && t.calls[c].pc == OAuthFindEmail(s.calls[c].pc.profile)
  {
    t := Next(s, Run(c, e));
    NextKeeps(s, Run(c, e));
  }

  lemma EmailIsUnknown(s: State, c: CallId, e: Env) returns (t: State)
    requires Inv(s) && c in s.calls && s.calls[c].pc.OAuthFindEmail? && Stranger(s.db, s.calls[c].pc.profile)
    requires s.now <= e.now
    ensures t == Next(s, Run(c, e)) && Inv(t) && t.now == e.now && t.db == Read(s.db)
    ensures c in t.calls && t.calls[c].pc == OAuthCreate(s.calls[c].pc.profile)
  {
    t := Next(s, Run(c, e));
    NextKeeps(s, Run(c, e));
  }

  /** The lookups by identity and by email, which find nobody. */
  lemma StrangerIsUnknown(s: State, c: CallId, e: Env) returns (t: State)
    requires Inv(s) && c in s.calls && s.calls[c].pc.OAuthFindLink? && Stranger(s.db, s.calls[c].pc.profile)
             && s.now <= e.now
    ensures t == Next(Next(s, Run(c, e)), Run(c, e)) && Inv(t) && t.now == e.now && t.db == Read(Read(s.db))
    ensures c in t.calls && t.calls[c].pc == OAuthCreate(s.calls[c].pc.profile)
  {
    var mid := IdentityIsUnknown(s, c, e);
    t := EmailIsUnknown(mid, c, e);
  }

  /** The INSERT of its user. */
  lemma StrangerIsCreated(s: State, c: CallId, e: Env) returns (t: State)
    requires Inv(s) && c in s.calls && s.calls[c].pc.OAuthCreate? && Stranger(s.db, s.calls[c].pc.profile)
             && s.now <= e.now
    ensures t == Next(s, Run(c, e)) && Inv(t) && |t.db.users| == |s.db.users| + 1
    ensures t.db.locals == s.db.locals && t.db.links == s.db.links
    ensures c in t.calls && t.calls[c].pc.OAuthLink? && t.calls[c].pc.who.id == |s.db.users|
  {
    t := Next(s, Run(c, e));
    NextKeeps(s, Run(c, e));
  }

  lemma CutOff(s: State, c: CallId)
    requires Enabled(s, Abort(c))
    ensures var t := Next(s, Abort(c)); t.db == Read(s.db)
  {
  }

  /** The rest of a stranger's first login, cut off before its link. */
  lemma CutOffBeforeLink(s: State, c: CallId, e: Env)
    requires Inv(s) && c in s.calls && s.calls[c].pc.OAuthFindLink? && Stranger(s.db, s.calls[c].pc.profile)
    requires s.now <= e.now
    ensures var db := Exec(s, [Run(c, e), Run(c, e), Run(c, e), Abort(c)]).db;
            |db.users| == |s.db.users| + 1 && db.locals == s.db.locals && db.links == s.db.links
  {
    ExecFour(s, [Run(c, e), Run(c, e), Run(c, e), Abort(c)]);
    var s2 := StrangerIsUnknown(s, c, e);
    var s3 := StrangerIsCreated(s2, c, e);
    CutOff(s3, c);
  }

  /**
    In every state, a stranger's first OAuth login that is cut off before its link leaves a user
    without a credential.
  */
  lemma CutOffLeavesBare(s: State, profile: Profile, e: Env) returns (run: seq<Label>)
    requires Inv(s) && s.now <= e.now && Stranger(s.db, profile)
    ensures var db := Exec(s, run).db; |s.db.users| < |db.users| && !HasCredential(db, |s.db.users|)
  {
    var open, c := OpenCallback(s, profile, e);
    ExecKeeps(s, open);
    var t := Exec(s, open);
    var rest := [Run(c, e), Run(c, e), Run(c, e), Abort(c)];
    CutOffBeforeLink(t, c, e);
    ExecAppend(s, open, rest);
    run := open + rest;
  }

  /** From the empty service: a first OAuth login cut off between its user and its link. */
  lemma CutOffUser() returns (run: seq<Label>)
    ensures var db := Exec(FRESH, run).db; |db.users| > 0 && !HasCredential(db, 0)
  {
    FreshInv();
    run := CutOffLeavesBare(FRESH, Profile(Identity(Google, "subject"), "a@b", None), Draw("r"));
  }
}
