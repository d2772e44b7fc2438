/**
  The state store, inside a keyspace shared with the exchange store and the limiter, behaves
  as a log of its own operations.
*/
module StateLog {
  import opened Wrappers
  import opened Models
  import opened Valkey
  import opened Keys
  import opened OAuthStore
  import RateLimiting

  datatype Event =
    | Inserted(state: string, provider: Provider, verifier: string, at: nat)
    | Taken(state: string, expected: Provider, at: nat)
    | ExchangeStored(code: string, response: AuthResponse, at: nat)
    | ExchangeTaken(code: string, at: nat)
    | Checked(e: Endpoint, ip: string, limits: RateLimiting.Limits, at: nat, fault: RateLimiting.Fault)

  function Happen(ks: Keyspace, ev: Event): Keyspace {
    match ev
    case Inserted(state, p, verifier, at) => Insert(ks, state, p, verifier, at, 0)
    case Taken(state, expected, at) => Take(ks, state, expected, at).0
    case ExchangeStored(code, response, at) => StoreExchange(ks, code, response, at, 0)
    case ExchangeTaken(code, at) => TakeExchange(ks, code, at).0
    case Checked(e, ip, limits, at, fault) =>
      if limits.size > 0 then RateLimiting.Check(ks, e, ip, at, limits, fault).0 else ks
  }

  /** The keyspace after a history, latest event last. */
  function After(history: seq<Event>): Keyspace {
    if history == [] then map[] else Happen(After(history[..|history| - 1]), history[|history| - 1])
  }

  datatype Waiting = Waiting(provider: Provider, verifier: string, at: nat)

  /** The log: the latest insert of the state, unless any take of it came since. */
  function Latest(history: seq<Event>, state: string): Option<Waiting> {
    if history == [] then None
    else
      match history[|history| - 1]
      case Inserted(s, p, verifier, at) =>
        if s == state then Some(Waiting(p, verifier, at)) else Latest(history[..|history| - 1], state)
      case Taken(s, _, _) =>
        if s == state then None else Latest(history[..|history| - 1], state)
      case _ => Latest(history[..|history| - 1], state)
  }

  ghost predicate Holds(ks: Keyspace, state: string, waiting: Option<Waiting>) {
    match waiting
    case None => StateKey(state) !in ks
    case Some(w) =>
      && StateKey(state) in ks
      && ks[StateKey(state)].value == Pending(StoredAuth(w.verifier, Slug(w.provider)))
      && ks[StateKey(state)].deadline == Some(w.at + STATE_TTL_SECS)
  }

  /** Events of other states, and of the other two components, leave a state's key alone. */
  lemma Untouched(ks: Keyspace, ev: Event, state: string)
    requires ev.Inserted? || ev.Taken? ==> ev.state != state
    ensures StateKey(state) in Happen(ks, ev) <==> StateKey(state) in ks
    ensures StateKey(state) in ks ==> Happen(ks, ev)[StateKey(state)] == ks[StateKey(state)]
  {
    match ev
    case Inserted(s, _, _, _) => StoreKeysInjective(s, state);
    case Taken(s, _, _) => StoreKeysInjective(s, state);
    case ExchangeStored(code, _, _) => KeysDisjoint(state, code, Endpoint("", ""), "", 0);
    case ExchangeTaken(code, _) => KeysDisjoint(state, code, Endpoint("", ""), "", 0);
    case Checked(e, ip, limits, at, _) =>
      if limits.size > 0 {
        KeysDisjoint(state, "", e, ip, RateLimiting.Window(at, limits.size));
      }
  }

  lemma {:induction false} KeyHoldsLatest(history: seq<Event>, state: string)
    ensures Holds(After(history), state, Latest(history, state))
  {
    if history == [] {
    } else {
      var before, ev := history[..|history| - 1], history[|history| - 1];
      KeyHoldsLatest(before, state);
      if !((ev.Inserted? || ev.Taken?) && ev.state == state) {
        Untouched(After(before), ev, state);
      }
    }
  }

  /**
    After any history, `take` succeeds exactly when the latest insert of the state was by the
    expected provider, is within its lifetime and no take has come since, and it returns the
    verifier of that insert; otherwise it reports a mismatch or an invalid state.
  */
  lemma TakeRefinesLog(history: seq<Event>, state: string, expected: Provider, now: nat)
    ensures Take(After(history), state, expected, now).1 ==
              match Latest(history, state)
              case None => Failure(InvalidState)
              case Some(w) =>
                if now > w.at + STATE_TTL_SECS then Failure(InvalidState)
                else if w.provider != expected then Failure(ProviderMismatch(expected, w.provider))
                else Success(w.verifier)
  {
    KeyHoldsLatest(history, state);
    if Latest(history, state).Some? {
      assert FromSlug(Slug(Latest(history, state).value.provider)) == Some(Latest(history, state).value.provider);
    }
  }

  /** Whatever its outcome, a take leaves the state unknown to every later take, until it is inserted again. */
  lemma TakenOnce(history: seq<Event>, state: string, first: Provider, at: nat, second: Provider, now: nat)
    ensures Take(After(history + [Taken(state, first, at)]), state, second, now).1 == Failure(InvalidState)
  {
    var all := history + [Taken(state, first, at)];
    assert all[..|all| - 1] == history;
    TakeRefinesLog(all, state, second, now);
  }
}
