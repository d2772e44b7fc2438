/**
  The whole service as a transition system: any number of calls in flight, one
  statement at a time, in any order. A label that is not enabled changes nothing, so
  every sequence of labels is a run.
*/
module Machine {
  import opened Wrappers
  import opened Models
  import opened Database
  import opened Valkey
  import opened Keys
  import opened Handlers
  import OAuthStore

  type CallId = nat

  /** History of a callback that consumed a state entry: who wrote the entry, and the verifier handed on. */
  datatype Taken = Taken(origin: CallId, provider: Provider, verifier: string, at: nat)

  datatype Call = Call(request: Request, begun: nat, pc: Pc, taken: Option<Taken>)

  datatype State = State(db: Db, valkey: Keyspace, calls: map<CallId, Call>, now: nat)

  datatype Label =
    | Begin(call: CallId, request: Request)
    | Run(call: CallId, e: Env)
    | Abort(call: CallId)              // a database, Valkey or network error ends the call here

  // ---- Steps ----

  function AuthorizeStep(s: State, c: CallId, p: Provider, e: Env): State
    requires c in s.calls
  {
    s.(valkey := OAuthStore.Insert(s.valkey, e.state, p, e.verifier, e.now, c),
       calls := s.calls[c := s.calls[c].(pc := Done(Redirected(p, e.state, e.verifier, e.now)))])
  }

  function TakeStep(s: State, c: CallId, p: Provider, state: string, e: Env): State
    requires c in s.calls
  {
    var (after, got) := OAuthStore.Take(s.valkey, state, p, e.now);
    match got
    case Failure(error) => s.(valkey := after, calls := s.calls[c := s.calls[c].(pc := Done(Failed(error)))])
    case Success(verifier) =>
      var origin := s.valkey[StateKey(state)].origin;
      s.(valkey := after,
         calls := s.calls[c := s.calls[c].(pc := CallbackFetch(p, verifier),
             taken := Some(Taken(origin, p, verifier, e.now)))])
  }

  function FetchStep(s: State, c: CallId, p: Provider, e: Env): State
    requires c in s.calls
  {
    var next := if e.providerAnswers then OAuthFindLink(Profile(Identity(p, e.subject), e.email, e.displayName))
                else Done(Failed(ProviderFailed));
    s.(calls := s.calls[c := s.calls[c].(pc := next)])
  }

  function StoreStep(s: State, c: CallId, profile: Profile, response: AuthResponse, e: Env): State
    requires c in s.calls
  {
    s.(valkey := OAuthStore.StoreExchange(s.valkey, e.code, response, e.now, c),
       calls := s.calls[c := s.calls[c].(pc := Done(Stored(profile, response, e.code, e.now)))])
  }

  function SessionStep(s: State, c: CallId, code: string, e: Env): State
    requires c in s.calls
  {
    var (after, got) := OAuthStore.TakeExchange(s.valkey, code, e.now);
    match got
    case Failure(error) => s.(valkey := after, calls := s.calls[c := s.calls[c].(pc := Done(Failed(error)))])
    case Success(response) =>
      var origin := s.valkey[ExchangeKey(code)].origin;
      s.(valkey := after, calls := s.calls[c := s.calls[c].(pc := Done(Opened(response, origin, e.now)))])
  }

  function OutsideStep(s: State, c: CallId, e: Env): State
    requires c in s.calls && Outside(s.calls[c].pc)
  {
    match s.calls[c].pc
    case AuthorizeInsert(p) => AuthorizeStep(s, c, p, e)
    case CallbackTake(p, state) => TakeStep(s, c, p, state, e)
    case CallbackFetch(p, _) => FetchStep(s, c, p, e)
    case CallbackStore(profile, response) => StoreStep(s, c, profile, response, e)
    case SessionTake(code) => SessionStep(s, c, code, e)
  }

  predicate Enabled(s: State, l: Label) {
    match l
    case Begin(c, _) => c !in s.calls
    case Run(c, e) => c in s.calls && !s.calls[c].pc.Done? && s.now <= e.now
    case Abort(c) => c in s.calls && !s.calls[c].pc.Done?
  }

  function Next(s: State, l: Label): State {
    if !Enabled(s, l) then s
    else
      match l
      case Begin(c, request) =>
        s.(db := Read(s.db), calls := s.calls[c := Call(request, s.db.tick, Start(s.db.issued, request), None)])
      case Abort(c) =>
        s.(db := Read(s.db), calls := s.calls[c := s.calls[c].(pc := Done(Failed(DatabaseFailed)))])
      case Run(c, e) =>
        if Outside(s.calls[c].pc) then OutsideStep(s, c, e).(now := e.now)
        else
          var next := Advance(s.db, s.calls[c].pc, e);
          s.(db := next.db, calls := s.calls[c := s.calls[c].(pc := next.pc)], now := e.now)
  }

  function Exec(s: State, run: seq<Label>): State
    decreases |run|
  {
    if run == [] then s else Exec(Next(s, run[0]), run[1..])
  }

  // ---- The invariant of every interleaving ----

  ghost predicate CallOk(db: Db, call: Call) {
    call.begun < db.tick && PcOk(db, call.begun, call.pc)
  }

  ghost predicate Inv(s: State) {
    && DbInv(s.db)
    && (forall c :: c in s.calls ==> CallOk(s.db, s.calls[c]))
  }

  /** Empty tables, nothing issued, nobody calling. */
  const FRESH := State(Db([], map[], map[], [], {}, 0, {}, map[], []), map[], map[], 0)

  lemma FreshInv()
    ensures Inv(FRESH)
  {
  }

  /** Calls other than the one that moved keep what they know. */
  lemma OthersKeep(s: State, t: State, c: CallId)
    requires Inv(s) && DbInv(t.db) && Evolves(s.db, t.db)
    requires c in t.calls && CallOk(t.db, t.calls[c])
    requires forall d :: d in t.calls && d != c ==> d in s.calls && t.calls[d] == s.calls[d]
    ensures Inv(t)
  {
    forall d | d in t.calls ensures CallOk(t.db, t.calls[d]) {
      if d != c {
        assert CallOk(s.db, s.calls[d]);
        PcOkStable(s.db, t.db, s.calls[d].begun, s.calls[d].pc);
      }
    }
  }

  lemma OutsideKeeps(s: State, c: CallId, e: Env)
    requires Inv(s) && c in s.calls && Outside(s.calls[c].pc)
    ensures var t := OutsideStep(s, c, e);
            && t.db == s.db && t.calls.Keys == s.calls.Keys
            && t.calls[c].begun == s.calls[c].begun && PcOk(s.db, s.calls[c].begun, t.calls[c].pc)
            && forall d :: d in t.calls && d != c ==> t.calls[d] == s.calls[d]
  {
    assert CallOk(s.db, s.calls[c]);
  }

  lemma BeginKeeps(s: State, c: CallId, request: Request)
    requires Inv(s) && c !in s.calls
    ensures Inv(Next(s, Begin(c, request))) && Evolves(s.db, Next(s, Begin(c, request)).db)
  {
    var t := Next(s, Begin(c, request));
    ReadKeeps(s.db);
    StartOk(t.db, s.db.tick, s.db.issued, request);
    OthersKeep(s, t, c);
  }

  lemma AbortKeeps(s: State, c: CallId)
    requires Inv(s) && Enabled(s, Abort(c))
    ensures Inv(Next(s, Abort(c))) && Evolves(s.db, Next(s, Abort(c)).db)
  {
    ReadKeeps(s.db);
    assert CallOk(s.db, s.calls[c]);
    OthersKeep(s, Next(s, Abort(c)), c);
  }

  lemma OutsideRunKeeps(s: State, c: CallId, e: Env)
    requires Inv(s) && Enabled(s, Run(c, e)) && Outside(s.calls[c].pc)
    ensures Inv(Next(s, Run(c, e))) && Evolves(s.db, Next(s, Run(c, e)).db)
  {
    assert CallOk(s.db, s.calls[c]);
    OutsideKeeps(s, c, e);
    OthersKeep(s, Next(s, Run(c, e)), c);
  }

  lemma StatementKeeps(s: State, c: CallId, e: Env)
    requires Inv(s) && Enabled(s, Run(c, e)) && !Outside(s.calls[c].pc)
    ensures Inv(Next(s, Run(c, e))) && Evolves(s.db, Next(s, Run(c, e)).db)
  {
    assert CallOk(s.db, s.calls[c]);
    AdvanceKeeps(s.db, s.calls[c].begun, s.calls[c].pc, e);
    OthersKeep(s, Next(s, Run(c, e)), c);
  }

  /** What a single step keeps, and the relation it establishes between the tables before and after it. */
  lemma NextKeeps(s: State, l: Label)
    requires Inv(s)
    ensures Inv(Next(s, l)) && Evolves(s.db, Next(s, l).db)
  {
    if Enabled(s, l) {
      match l
      case Begin(c, request) => BeginKeeps(s, c, request);
      case Abort(c) => AbortKeeps(s, c);
      case Run(c, e) =>
        if Outside(s.calls[c].pc) {
          OutsideRunKeeps(s, c, e);
        } else {
          StatementKeeps(s, c, e);
        }
    }
  }

  /**
    The tables stay consistent and every call stays sound under every interleaving, and nothing
    ever runs backwards.
  */
  lemma {:induction false} ExecKeeps(s: State, run: seq<Label>)
    requires Inv(s)
    ensures Inv(Exec(s, run)) && Evolves(s.db, Exec(s, run).db)
    decreases |run|
  {
    if run == [] {
    } else {
      NextKeeps(s, run[0]);
      ExecKeeps(Next(s, run[0]), run[1..]);
      EvolvesTransitive(s.db, Next(s, run[0]).db, Exec(s, run).db);
    }
  }

  /** Runs compose. */
  lemma {:induction false} ExecAppend(s: State, run: seq<Label>, more: seq<Label>)
    ensures Exec(s, run + more) == Exec(Exec(s, run), more)
    decreases |run|
  {
    if run == [] {
      assert run + more == more;
    } else {
      assert (run + more)[0] == run[0] && (run + more)[1..] == run[1..] + more;
      ExecAppend(Next(s, run[0]), run[1..], more);
    }
  }

  lemma ExecSnoc(s: State, run: seq<Label>, l: Label)
    ensures Exec(s, run + [l]) == Next(Exec(s, run), l)
  {
    ExecAppend(s, run, [l]);
    assert [l][1..] == [];
  }

  lemma ExecFour(s: State, run: seq<Label>)
    requires |run| == 4
    ensures Exec(s, run) == Next(Next(Next(Next(s, run[0]), run[1]), run[2]), run[3])
  {
    assert run == run[..3] + [run[3]] && run[..3] == run[..2] + [run[2]] && run[..2] == [run[0]] + [run[1]];
    ExecSnoc(s, run[..3], run[3]);
    ExecSnoc(s, run[..2], run[2]);
    ExecSnoc(s, [run[0]], run[1]);
    ExecSnoc(s, [], run[0]);
    assert [run[0]] == [] + [run[0]];
  }
}
