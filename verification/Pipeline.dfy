/**
  The authorize, callback and session pipeline under every interleaving: which call
  wrote each Valkey entry, which call consumed it, and when.
*/
module PipelineTheorems {
  import opened Wrappers
  import opened Models
  import opened Valkey
  import opened Keys
  import opened Handlers
  import opened Machine
  import OAuthStore

  /** A callback between consuming its state entry and storing its exchange entry. */
  predicate InCallback(pc: Pc) {
    pc.CallbackFetch? || InOAuth(pc)
    || (pc.IssueTokens? && pc.door.ViaCallback?) || pc.CallbackStore?
  }

  ghost predicate PendingOk(s: State, key: string) {
    key in s.valkey && s.valkey[key].value.Pending? ==>
      var entry := s.valkey[key];
      && entry.origin in s.calls && s.calls[entry.origin].pc.Done? && s.calls[entry.origin].pc.outcome.Redirected?
      && var o := s.calls[entry.origin].pc.outcome;
      && key == StateKey(o.state)
      && entry.value.auth == StoredAuth(o.verifier, Slug(o.provider))
      && entry.deadline == Some(o.at + OAuthStore.STATE_TTL_SECS)
      && o.at <= s.now
  }

  ghost predicate PayloadOk(s: State, key: string) {
    key in s.valkey && s.valkey[key].value.Payload? ==>
      var entry := s.valkey[key];
      && entry.origin in s.calls && s.calls[entry.origin].pc.Done? && s.calls[entry.origin].pc.outcome.Stored?
      && var o := s.calls[entry.origin].pc.outcome;
      && key == ExchangeKey(o.code)
      && entry.value.response == o.response
      && entry.deadline == Some(o.at + OAuthStore.EXCHANGE_TTL_SECS)
      && o.at <= s.now
  }

  predicate IsOpened(pc: Pc) {
    pc.Done? && pc.outcome.Opened?
  }

  /** The route a call works for. */
  ghost predicate RouteOk(call: Call) {
    match call.pc
    case AuthorizeInsert(p) => call.request.Authorize? && FromSlug(call.request.slug) == Some(p)
    case Done(Redirected(p, _, _, _)) => call.request.Authorize? && FromSlug(call.request.slug) == Some(p)
    case CallbackTake(p, state) =>
      call.request.Callback? && FromSlug(call.request.slug) == Some(p) && call.request.state == Some(state)
    case SessionTake(code) => call.request == Session(code)
    case _ => true
  }

  /** A callback that consumed a state entry did so within its lifetime, for its own provider, and got its verifier. */
  ghost predicate TakenOk(s: State, c: CallId)
    requires c in s.calls
  {
    && (InCallback(s.calls[c].pc) || (s.calls[c].pc.Done? && s.calls[c].pc.outcome.Stored?) ==> s.calls[c].taken.Some?)
    && (s.calls[c].taken.Some? ==>
          var t := s.calls[c].taken.value;
          && t.at <= s.now
          && t.origin in s.calls && s.calls[t.origin].pc.Done? && s.calls[t.origin].pc.outcome.Redirected?
          && var o := s.calls[t.origin].pc.outcome;
          && o.provider == t.provider && o.verifier == t.verifier
          && s.calls[c].request.Callback?
          && FromSlug(s.calls[c].request.slug) == Some(t.provider) && s.calls[c].request.state == Some(o.state)
          && o.at <= t.at <= o.at + OAuthStore.STATE_TTL_SECS)
    && (ProfileOf(s.calls[c].pc).Some? ==>
          s.calls[c].taken.Some? && ProfileOf(s.calls[c].pc).value.identity.provider == s.calls[c].taken.value.provider)
    && (s.calls[c].pc.CallbackFetch? ==>
          s.calls[c].taken.Some? && s.calls[c].pc.verifier == s.calls[c].taken.value.verifier
          && s.calls[c].pc.provider == s.calls[c].taken.value.provider)
    && (s.calls[c].pc.Done? && s.calls[c].pc.outcome.Stored? ==>
          s.calls[c].taken.Some? && s.calls[c].taken.value.at <= s.calls[c].pc.outcome.at <= s.now)
  }

  /** A session that opened an exchange entry did so within its lifetime, and got its payload. */
  ghost predicate OpenedOk(s: State, c: CallId)
    requires c in s.calls
  {
    IsOpened(s.calls[c].pc) ==>
      var got := s.calls[c].pc.outcome;
      && got.origin in s.calls && s.calls[got.origin].pc.Done? && s.calls[got.origin].pc.outcome.Stored?
      && var o := s.calls[got.origin].pc.outcome;
      && o.response == got.response && s.calls[c].request == Session(o.code)
      && o.at <= got.at <= o.at + OAuthStore.EXCHANGE_TTL_SECS
      && got.at <= s.now
  }

  /** No state entry serves two callbacks, and no exchange entry two sessions. */
  ghost predicate Distinct(s: State) {
    && (forall c, d :: c in s.calls && d in s.calls && c != d && s.calls[c].taken.Some? && s.calls[d].taken.Some? ==>
          s.calls[c].taken.value.origin != s.calls[d].taken.value.origin)
    && (forall c, d :: c in s.calls && d in s.calls && c != d && IsOpened(s.calls[c].pc) && IsOpened(s.calls[d].pc) ==>
          s.calls[c].pc.outcome.origin != s.calls[d].pc.outcome.origin)
  }

  /** An entry still in Valkey has served nobody. */
  ghost predicate Unconsumed(s: State) {
    && (forall key, c :: key in s.valkey && s.valkey[key].value.Pending? && c in s.calls && s.calls[c].taken.Some? ==>
          s.calls[c].taken.value.origin != s.valkey[key].origin)
    && (forall key, c :: key in s.valkey && s.valkey[key].value.Payload? && c in s.calls && IsOpened(s.calls[c].pc) ==>
          s.calls[c].pc.outcome.origin != s.valkey[key].origin)
  }

  ghost predicate EntriesOk(s: State) {
    forall key :: key in s.valkey ==> PendingOk(s, key) && PayloadOk(s, key)
  }

  ghost predicate CallsOk(s: State) {
    forall c :: c in s.calls ==> TakenOk(s, c) && OpenedOk(s, c)
  }

  ghost predicate RoutesOk(s: State) {
    forall c :: c in s.calls ==> RouteOk(s.calls[c])
  }

  ghost predicate PipelineInv(s: State) {
    EntriesOk(s) && RoutesOk(s) && CallsOk(s) && Unconsumed(s) && Distinct(s)
  }

  lemma FreshPipeline()
    ensures PipelineInv(FRESH)
  {
  }

  /** A call stays in its callback, leaves it, or was never in one, and finishes none of the three routes. */
  predicate StaysInside(pc: Pc, next: Pc) {
    && (InCallback(next) ==> InCallback(pc) && ProfileOf(next) == ProfileOf(pc))
    && (ProfileOf(next).Some? ==> InCallback(next))
    && (Outside(next) ==> next.CallbackStore?)
    && (next.Done? ==> !next.outcome.Stored? && !next.outcome.Redirected? && !next.outcome.Opened?)
  }

  lemma AdvanceAccountInside(db: Database.Db, pc: Pc, e: Env)
    requires InAccount(pc)
    ensures StaysInside(pc, AdvanceAccount(db, pc, e).pc)
  {
  }

  lemma AdvanceOAuthInside(db: Database.Db, pc: Pc, e: Env)
    requires InOAuth(pc)
    ensures StaysInside(pc, AdvanceOAuth(db, pc, e).pc)
  {
  }

  lemma AdvanceManageInside(db: Database.Db, pc: Pc, e: Env)
    requires InManage(pc)
    ensures StaysInside(pc, AdvanceManage(db, pc, e).pc)
  {
  }

  lemma AdvanceRefreshInside(db: Database.Db, pc: Pc, e: Env)
    requires InRefresh(pc)
    ensures StaysInside(pc, AdvanceRefresh(db, pc, e).pc)
  {
  }

  /** A Postgres statement leaves a callback in its callback or ends it, and starts none. */
  lemma AdvanceCallback(db: Database.Db, pc: Pc, e: Env)
    requires !Settled(pc)
    ensures StaysInside(pc, Advance(db, pc, e).pc)
  {
    if InRefresh(pc) {
      AdvanceRefreshInside(db, pc, e);
    } else if InOAuth(pc) {
      AdvanceOAuthInside(db, pc, e);
    } else if InAccount(pc) {
      AdvanceAccountInside(db, pc, e);
    } else {
      AdvanceManageInside(db, pc, e);
    }
  }

  /** Time passes and unfinished calls move; finished ones are final. */
  ghost predicate Ahead(s: State, t: State, c: CallId) {
    && s.now <= t.now
    && c in t.calls && t.calls == s.calls[c := t.calls[c]]
    && (c in s.calls ==> !s.calls[c].pc.Done? && t.calls[c].request == s.calls[c].request)
  }

  lemma EntryKept(s: State, t: State, c: CallId, key: string)
    requires Ahead(s, t, c) && PendingOk(s, key) && PayloadOk(s, key)
    requires key in s.valkey && key in t.valkey && t.valkey[key] == s.valkey[key]
    ensures PendingOk(t, key) && PayloadOk(t, key)
  {
  }

  lemma OthersKept(s: State, t: State, c: CallId)
    requires CallsOk(s) && Ahead(s, t, c) && TakenOk(t, c) && OpenedOk(t, c)
    ensures CallsOk(t)
  {
    forall d | d in t.calls ensures TakenOk(t, d) && OpenedOk(t, d) {
      if d != c {
        assert TakenOk(s, d) && OpenedOk(s, d);
      }
    }
  }

  lemma EntriesKept(s: State, t: State, c: CallId)
    requires EntriesOk(s) && Ahead(s, t, c)
    requires forall key :: key in t.valkey ==> key in s.valkey && t.valkey[key] == s.valkey[key]
    ensures EntriesOk(t)
  {
    forall key | key in t.valkey ensures PendingOk(t, key) && PayloadOk(t, key) {
      assert PendingOk(s, key) && PayloadOk(s, key);
      EntryKept(s, t, c, key);
    }
  }

  lemma EntryWritten(s: State, t: State, c: CallId, key: string)
    requires EntriesOk(s) && Ahead(s, t, c) && PendingOk(t, key) && PayloadOk(t, key)
    requires forall k :: k in t.valkey && k != key ==> k in s.valkey && t.valkey[k] == s.valkey[k]
    ensures EntriesOk(t)
  {
    forall k | k in t.valkey ensures PendingOk(t, k) && PayloadOk(t, k) {
      if k != key {
        assert PendingOk(s, k) && PayloadOk(s, k);
        EntryKept(s, t, c, k);
      }
    }
  }

  /** The call ends, or moves on, without consuming or writing an entry. */
  ghost predicate Plain(s: State, t: State, c: CallId) {
    && Ahead(s, t, c)
    && (c in s.calls ==> t.calls[c].taken == s.calls[c].taken)
    && (c !in s.calls ==> t.calls[c].taken.None?)
    && (InCallback(t.calls[c].pc) ==> t.calls[c].taken.Some?)
    && (ProfileOf(t.calls[c].pc).Some? ==>
          t.calls[c].taken.Some? && ProfileOf(t.calls[c].pc).value.identity.provider == t.calls[c].taken.value.provider)
    && !t.calls[c].pc.CallbackFetch?
    && (t.calls[c].pc.Done? ==> var o := t.calls[c].pc.outcome; !o.Stored? && !o.Redirected? && !o.Opened?)
  }

  lemma PlainCalls(s: State, t: State, c: CallId)
    requires CallsOk(s) && Plain(s, t, c)
    ensures CallsOk(t)
  {
    assert TakenOk(t, c) && OpenedOk(t, c) by {
      assert c in s.calls ==> TakenOk(s, c);
    }
    OthersKept(s, t, c);
  }

  lemma PlainLedger(s: State, t: State, c: CallId)
    requires Unconsumed(s) && Distinct(s) && Plain(s, t, c)
    requires forall key :: key in t.valkey ==> key in s.valkey && t.valkey[key] == s.valkey[key]
    ensures Unconsumed(t) && Distinct(t)
  {
  }

  /** A plain move keeps the accounts, whatever entries it loses. */
  lemma PlainStep(s: State, t: State, c: CallId)
    requires PipelineInv(s) && Plain(s, t, c) && RouteOk(t.calls[c])
    requires forall key :: key in t.valkey ==> key in s.valkey && t.valkey[key] == s.valkey[key]
    ensures PipelineInv(t)
  {
    EntriesKept(s, t, c);
    PlainCalls(s, t, c);
    PlainLedger(s, t, c);
    OthersRouted(s, t, c);
  }

  /** Writing an entry in the name of a call that nobody has consumed. */
  lemma WriteLedger(s: State, t: State, c: CallId, key: string)
    requires Unconsumed(s) && Distinct(s) && c in s.calls && c in t.calls && t.calls == s.calls[c := t.calls[c]]
    requires t.calls[c].taken == s.calls[c].taken && !IsOpened(t.calls[c].pc)
    requires key in t.valkey && t.valkey[key].origin == c
    requires forall k :: k in t.valkey && k != key ==> k in s.valkey && t.valkey[k] == s.valkey[k]
    requires forall d :: d in s.calls && s.calls[d].taken.Some? ==> s.calls[d].taken.value.origin != c
    requires forall d :: d in s.calls && IsOpened(s.calls[d].pc) ==> s.calls[d].pc.outcome.origin != c
    ensures Unconsumed(t) && Distinct(t)
  {
  }

  /** An unfinished call is the origin of nothing. */
  lemma OriginOfNothing(s: State, c: CallId)
    requires CallsOk(s) && c in s.calls && !s.calls[c].pc.Done?
    ensures forall d :: d in s.calls && s.calls[d].taken.Some? ==> s.calls[d].taken.value.origin != c
    ensures forall d :: d in s.calls && IsOpened(s.calls[d].pc) ==> s.calls[d].pc.outcome.origin != c
  {
    forall d | d in s.calls
      ensures s.calls[d].taken.Some? ==> s.calls[d].taken.value.origin != c
      ensures IsOpened(s.calls[d].pc) ==> s.calls[d].pc.outcome.origin != c
    {
      assert TakenOk(s, d) && OpenedOk(s, d);
    }
  }

  /** Consuming a state entry: no other entry has the same origin, and nobody had consumed it. */
  lemma TakeLedger(s: State, t: State, c: CallId, key: string)
    requires EntriesOk(s) && Unconsumed(s) && Distinct(s) && c in s.calls && c in t.calls
             && t.calls == s.calls[c := t.calls[c]]
    requires key in s.valkey && s.valkey[key].value.Pending? && t.valkey == s.valkey - {key}
    requires t.calls[c].taken.Some? && t.calls[c].taken.value.origin == s.valkey[key].origin && !IsOpened(t.calls[c].pc)
    ensures Unconsumed(t) && Distinct(t)
  {
    assert PendingOk(s, key);
    forall k | k in t.valkey && t.valkey[k].value.Pending? ensures t.valkey[k].origin != s.valkey[key].origin {
      assert PendingOk(s, k);
    }
  }

  lemma SessionLedger(s: State, t: State, c: CallId, key: string)
    requires EntriesOk(s) && Unconsumed(s) && Distinct(s) && c in s.calls && c in t.calls
             && t.calls == s.calls[c := t.calls[c]]
    requires key in s.valkey && s.valkey[key].value.Payload? && t.valkey == s.valkey - {key}
    requires t.calls[c].taken == s.calls[c].taken && IsOpened(t.calls[c].pc)
    requires t.calls[c].pc.outcome.origin == s.valkey[key].origin
    ensures Unconsumed(t) && Distinct(t)
  {
    assert PayloadOk(s, key);
    forall k | k in t.valkey && t.valkey[k].value.Payload? ensures t.valkey[k].origin != s.valkey[key].origin {
      assert PayloadOk(s, k);
    }
  }

  /** The calls' own accounts after call `c` moved. */
  lemma OthersRouted(s: State, t: State, c: CallId)
    requires RoutesOk(s) && Ahead(s, t, c) && RouteOk(t.calls[c])
    ensures RoutesOk(t)
  {
  }

  lemma AuthorizeCalls(s: State, c: CallId, p: Provider, e: Env)
    requires CallsOk(s) && Enabled(s, Run(c, e)) && s.calls[c].pc == AuthorizeInsert(p)
    ensures CallsOk(AuthorizeStep(s, c, p, e).(now := e.now))
  {
    assert TakenOk(s, c);
    OthersKept(s, AuthorizeStep(s, c, p, e).(now := e.now), c);
  }

  lemma AuthorizeEntries(s: State, c: CallId, p: Provider, e: Env)
    requires EntriesOk(s) && Enabled(s, Run(c, e)) && s.calls[c].pc == AuthorizeInsert(p)
    ensures EntriesOk(AuthorizeStep(s, c, p, e).(now := e.now))
  {
    EntryWritten(s, AuthorizeStep(s, c, p, e).(now := e.now), c, StateKey(e.state));
  }

  lemma AuthorizeOk(s: State, c: CallId, p: Provider, e: Env)
    requires PipelineInv(s) && Enabled(s, Run(c, e)) && s.calls[c].pc == AuthorizeInsert(p)
    ensures PipelineInv(AuthorizeStep(s, c, p, e).(now := e.now))
  {
    var t := AuthorizeStep(s, c, p, e).(now := e.now);
    assert RouteOk(s.calls[c]);
    AuthorizeCalls(s, c, p, e);
    OthersRouted(s, t, c);
    AuthorizeEntries(s, c, p, e);
    OriginOfNothing(s, c);
    WriteLedger(s, t, c, StateKey(e.state));
  }

  lemma SlugRoundTrip(p: Provider)
    ensures FromSlug(Slug(p)) == Some(p)
  {
  }

  lemma TakeCalls(s: State, c: CallId, p: Provider, state: string, e: Env)
    requires EntriesOk(s) && CallsOk(s) && Enabled(s, Run(c, e)) && s.calls[c].pc == CallbackTake(p, state)
             && RouteOk(s.calls[c])
    requires OAuthStore.Take(s.valkey, state, p, e.now).1.Success?
    ensures CallsOk(TakeStep(s, c, p, state, e).(now := e.now))
  {
    var t := TakeStep(s, c, p, state, e).(now := e.now);
    var key := StateKey(state);
    assert PendingOk(s, key) && TakenOk(s, c);
    var origin := s.valkey[key].origin;
    SlugRoundTrip(s.calls[origin].pc.outcome.provider);
    StoreKeysInjective(state, s.calls[origin].pc.outcome.state);
    OthersKept(s, t, c);
  }

  lemma TakeOk(s: State, c: CallId, p: Provider, state: string, e: Env)
    requires PipelineInv(s) && Enabled(s, Run(c, e)) && s.calls[c].pc == CallbackTake(p, state)
    requires OAuthStore.Take(s.valkey, state, p, e.now).1.Success?
    ensures PipelineInv(TakeStep(s, c, p, state, e).(now := e.now))
  {
    var t := TakeStep(s, c, p, state, e).(now := e.now);
    assert RouteOk(s.calls[c]);
    TakeCalls(s, c, p, state, e);
    OthersRouted(s, t, c);
    EntriesKept(s, t, c);
    TakeLedger(s, t, c, StateKey(state));
  }

  lemma StoreCalls(s: State, c: CallId, profile: Profile, response: AuthResponse, e: Env)
    requires CallsOk(s) && Enabled(s, Run(c, e)) && s.calls[c].pc == CallbackStore(profile, response)
    ensures CallsOk(StoreStep(s, c, profile, response, e).(now := e.now))
    ensures TakenOk(StoreStep(s, c, profile, response, e).(now := e.now), c)
  {
    var t := StoreStep(s, c, profile, response, e).(now := e.now);
    assert TakenOk(s, c);
    OthersKept(s, t, c);
  }

  lemma StoreEntries(s: State, c: CallId, profile: Profile, response: AuthResponse, e: Env)
    requires EntriesOk(s) && Enabled(s, Run(c, e)) && s.calls[c].pc == CallbackStore(profile, response)
    ensures EntriesOk(StoreStep(s, c, profile, response, e).(now := e.now))
  {
    EntryWritten(s, StoreStep(s, c, profile, response, e).(now := e.now), c, ExchangeKey(e.code));
  }

  lemma StoreOk(s: State, c: CallId, profile: Profile, response: AuthResponse, e: Env)
    requires PipelineInv(s) && Enabled(s, Run(c, e)) && s.calls[c].pc == CallbackStore(profile, response)
    ensures PipelineInv(StoreStep(s, c, profile, response, e).(now := e.now))
  {
    var t := StoreStep(s, c, profile, response, e).(now := e.now);
    StoreCalls(s, c, profile, response, e);
    OthersRouted(s, t, c);
    StoreEntries(s, c, profile, response, e);
    OriginOfNothing(s, c);
    WriteLedger(s, t, c, ExchangeKey(e.code));
  }

  lemma SessionCall(s: State, c: CallId, code: string, e: Env)
    requires EntriesOk(s) && CallsOk(s) && Enabled(s, Run(c, e)) && s.calls[c].pc == SessionTake(code)
    requires RouteOk(s.calls[c]) && OAuthStore.TakeExchange(s.valkey, code, e.now).1.Success?
    ensures var t := SessionStep(s, c, code, e).(now := e.now); TakenOk(t, c) && OpenedOk(t, c)
  {
    var key := ExchangeKey(code);
    assert PayloadOk(s, key) && TakenOk(s, c);
    StoreKeysInjective(code, s.calls[s.valkey[key].origin].pc.outcome.code);
  }

  lemma SessionCalls(s: State, c: CallId, code: string, e: Env)
    requires EntriesOk(s) && CallsOk(s) && Enabled(s, Run(c, e)) && s.calls[c].pc == SessionTake(code)
    requires RouteOk(s.calls[c]) && OAuthStore.TakeExchange(s.valkey, code, e.now).1.Success?
    ensures CallsOk(SessionStep(s, c, code, e).(now := e.now))
  {
    SessionCall(s, c, code, e);
    OthersKept(s, SessionStep(s, c, code, e).(now := e.now), c);
  }

  lemma SessionOk(s: State, c: CallId, code: string, e: Env)
    requires PipelineInv(s) && Enabled(s, Run(c, e)) && s.calls[c].pc == SessionTake(code)
    requires OAuthStore.TakeExchange(s.valkey, code, e.now).1.Success?
    ensures PipelineInv(SessionStep(s, c, code, e).(now := e.now))
  {
    var t := SessionStep(s, c, code, e).(now := e.now);
    var key := ExchangeKey(code);
    assert RouteOk(s.calls[c]);
    SessionCalls(s, c, code, e);
    OthersRouted(s, t, c);
    EntriesKept(s, t, c);
    SessionLedger(s, t, c, key);
  }

  lemma TakeFails(s: State, c: CallId, p: Provider, state: string, e: Env)
    requires PipelineInv(s) && Enabled(s, Run(c, e)) && s.calls[c].pc == CallbackTake(p, state)
    requires OAuthStore.Take(s.valkey, state, p, e.now).1.Failure?
    ensures PipelineInv(TakeStep(s, c, p, state, e).(now := e.now))
  {
    PlainStep(s, TakeStep(s, c, p, state, e).(now := e.now), c);
  }

  lemma SessionFails(s: State, c: CallId, code: string, e: Env)
    requires PipelineInv(s) && Enabled(s, Run(c, e)) && s.calls[c].pc == SessionTake(code)
    requires OAuthStore.TakeExchange(s.valkey, code, e.now).1.Failure?
    ensures PipelineInv(SessionStep(s, c, code, e).(now := e.now))
  {
    PlainStep(s, SessionStep(s, c, code, e).(now := e.now), c);
  }

  lemma FetchPlain(s: State, c: CallId, p: Provider, verifier: string, e: Env)
    requires Enabled(s, Run(c, e)) && TakenOk(s, c) && s.calls[c].pc == CallbackFetch(p, verifier)
    ensures var t := FetchStep(s, c, p, e).(now := e.now); Plain(s, t, c) && RouteOk(t.calls[c])
  {
  }

  lemma FetchOk(s: State, c: CallId, p: Provider, verifier: string, e: Env)
    requires PipelineInv(s) && Enabled(s, Run(c, e)) && s.calls[c].pc == CallbackFetch(p, verifier)
    ensures PipelineInv(FetchStep(s, c, p, e).(now := e.now))
  {
    FetchPlain(s, c, p, verifier, e);
    PlainStep(s, FetchStep(s, c, p, e).(now := e.now), c);
  }

  lemma OutsideOk(s: State, c: CallId, e: Env)
    requires PipelineInv(s) && Enabled(s, Run(c, e)) && Outside(s.calls[c].pc)
    ensures PipelineInv(OutsideStep(s, c, e).(now := e.now))
  {
    match s.calls[c].pc
    case AuthorizeInsert(p) => AuthorizeOk(s, c, p, e);
    case CallbackTake(p, state) =>
      if OAuthStore.Take(s.valkey, state, p, e.now).1.Success? {
        TakeOk(s, c, p, state, e);
      } else {
        TakeFails(s, c, p, state, e);
      }
    case CallbackFetch(p, verifier) => FetchOk(s, c, p, verifier, e);
    case CallbackStore(profile, response) => StoreOk(s, c, profile, response, e);
    case SessionTake(code) =>
      if OAuthStore.TakeExchange(s.valkey, code, e.now).1.Success? {
        SessionOk(s, c, code, e);
      } else {
        SessionFails(s, c, code, e);
      }
  }

  lemma StartPlain(call: Call, issued: set<Claims>)
    requires call.pc == Start(issued, call.request)
    ensures !InCallback(call.pc) && ProfileOf(call.pc).None? && (call.pc.Done? ==> call.pc.outcome.Failed?)
            && RouteOk(call)
  {
  }

  lemma StatementOk(s: State, c: CallId, e: Env)
    requires PipelineInv(s) && Enabled(s, Run(c, e)) && !Outside(s.calls[c].pc)
    ensures PipelineInv(Next(s, Run(c, e)))
  {
    assert TakenOk(s, c);
    AdvanceCallback(s.db, s.calls[c].pc, e);
    PlainStep(s, Next(s, Run(c, e)), c);
  }

  lemma BeginOk(s: State, c: CallId, request: Request)
    requires PipelineInv(s) && c !in s.calls
    ensures PipelineInv(Next(s, Begin(c, request)))
  {
    var t := Next(s, Begin(c, request));
    StartPlain(t.calls[c], s.db.issued);
    PlainStep(s, t, c);
  }

  lemma NextPipeline(s: State, l: Label)
    requires PipelineInv(s)
    ensures PipelineInv(Next(s, l))
  {
    if Enabled(s, l) {
      match l
      case Begin(c, request) => BeginOk(s, c, request);
      case Abort(c) => PlainStep(s, Next(s, l), c);
      case Run(c, e) =>
        if Outside(s.calls[c].pc) {
          OutsideOk(s, c, e);
        } else {
          StatementOk(s, c, e);
        }
    }
  }

  lemma {:induction false} ExecPipeline(s: State, run: seq<Label>)
    requires PipelineInv(s)
    ensures PipelineInv(Exec(s, run))
    decreases |run|
  {
    if run == [] {
    } else {
      NextPipeline(s, run[0]);
      ExecPipeline(Next(s, run[0]), run[1..]);
    }
  }

  /** Session `c` opened, at most 120 s after it was written, the exchange entry of callback `k`. */
  ghost predicate OpenedFrom(s: State, c: CallId, k: CallId) {
    && c in s.calls && k in s.calls
    && IsOpened(s.calls[c].pc) && s.calls[c].pc.outcome.origin == k
    && s.calls[k].pc.Done? && s.calls[k].pc.outcome.Stored?
    && var session, exchange := s.calls[c].pc.outcome, s.calls[k].pc.outcome;
    && s.calls[c].request == Session(exchange.code) && session.response == exchange.response
    && exchange.at <= session.at <= exchange.at + 120
  }

  /**
    Callback `k` stored its entry after it had consumed, at most 600 s after it was written, the
    state entry of authorize `a`, for the same provider and with its verifier.
  */
  ghost predicate StoredFrom(s: State, k: CallId, a: CallId) {
    && k in s.calls && a in s.calls
    && s.calls[k].pc.Done? && s.calls[k].pc.outcome.Stored?
    && s.calls[k].taken.Some? && s.calls[k].taken.value.origin == a
    && s.calls[a].pc.Done? && s.calls[a].pc.outcome.Redirected?
    && var exchange, taken, state := s.calls[k].pc.outcome, s.calls[k].taken.value, s.calls[a].pc.outcome;
    && s.calls[k].request.Callback? && s.calls[k].request.state == Some(state.state)
    && FromSlug(s.calls[k].request.slug) == Some(state.provider)
    && s.calls[a].request.Authorize? && FromSlug(s.calls[a].request.slug) == Some(state.provider)
    && state.at <= taken.at <= state.at + 600 && taken.at <= exchange.at
    && exchange.profile.identity.provider == state.provider
    && taken.provider == state.provider && taken.verifier == state.verifier
  }

  ghost predicate Accounted(s: State, c: CallId, k: CallId, a: CallId) {
    OpenedFrom(s, c, k) && StoredFrom(s, k, a)
  }

  lemma SharesNothing(s: State, c: CallId, k: CallId, a: CallId, c': CallId, k': CallId, a': CallId)
    requires Distinct(s) && Accounted(s, c, k, a) && Accounted(s, c', k', a') && c' != c
    ensures k' != k && a' != a
  {
  }

  /** Every session in every run is accounted for, and no two share an exchange entry or a state entry. */
  lemma OAuthPipeline(s: State, run: seq<Label>, c: CallId) returns (k: CallId, a: CallId)
    requires PipelineInv(s)
    requires var t := Exec(s, run); c in t.calls && IsOpened(t.calls[c].pc)
    ensures Accounted(Exec(s, run), c, k, a)
    ensures forall c', k', a' :: Accounted(Exec(s, run), c', k', a') && c' != c ==> k' != k && a' != a
  {
    ExecPipeline(s, run);
    k, a := SessionAccounted(Exec(s, run), c);
    forall c', k', a' | Accounted(Exec(s, run), c', k', a') && c' != c ensures k' != k && a' != a {
      SharesNothing(Exec(s, run), c, k, a, c', k', a');
    }
  }

  lemma SessionOpened(s: State, c: CallId) returns (k: CallId)
    requires PipelineInv(s) && c in s.calls && IsOpened(s.calls[c].pc)
    ensures OpenedFrom(s, c, k)
  {
    assert OpenedOk(s, c);
    k := s.calls[c].pc.outcome.origin;
  }

  lemma CallbackStored(s: State, k: CallId) returns (a: CallId)
    requires PipelineInv(s) && k in s.calls && s.calls[k].pc.Done? && s.calls[k].pc.outcome.Stored?
    ensures StoredFrom(s, k, a)
  {
    assert TakenOk(s, k);
    a := s.calls[k].taken.value.origin;
    assert RouteOk(s.calls[a]);
  }

  lemma SessionAccounted(s: State, c: CallId) returns (k: CallId, a: CallId)
    requires PipelineInv(s) && c in s.calls && IsOpened(s.calls[c].pc)
    ensures Accounted(s, c, k, a)
  {
    k := SessionOpened(s, c);
    a := CallbackStored(s, k);
  }

  /** The verifier a callback hands to the provider is the one generated with the state it consumed. */
  lemma VerifierMatchesState(s: State, run: seq<Label>, c: CallId)
    requires PipelineInv(s)
    requires var t := Exec(s, run); c in t.calls && t.calls[c].pc.CallbackFetch?
    ensures var t := Exec(s, run);
            && t.calls[c].taken.Some?
            && var a := t.calls[c].taken.value.origin;
            && a in t.calls && t.calls[a].pc.Done? && t.calls[a].pc.outcome.Redirected?
            && t.calls[a].pc.outcome.verifier == t.calls[c].pc.verifier
            && t.calls[a].pc.outcome.provider == t.calls[c].pc.provider
  {
    ExecPipeline(s, run);
    assert TakenOk(Exec(s, run), c);
  }
}
