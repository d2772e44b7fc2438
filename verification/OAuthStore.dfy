/** `StateStore` of src/services/oauth.rs as functions of the keyspace. */
module OAuthStore {
  import opened Wrappers
  import opened Models
  import opened Valkey
  import opened Keys

  const STATE_TTL_SECS: nat := 600
  const EXCHANGE_TTL_SECS: nat := 120

  function Insert(ks: Keyspace, state: string, p: Provider, verifier: string, now: nat, origin: nat): Keyspace {
    SetEx(ks, StateKey(state), Pending(StoredAuth(verifier, Slug(p))), now, STATE_TTL_SECS, origin)
  }

  /** What `take` makes of the text it got back. */
  function Parse(got: Option<Entry>, expected: Provider): Result<string, Error> {
    if got.None? || !got.value.value.Pending? then Failure(InvalidState)
    else
      var auth := got.value.value.auth;
      match FromSlug(auth.provider)
      case None => Failure(InvalidState)
      case Some(actual) =>
        if actual != expected then Failure(ProviderMismatch(expected, actual)) else Success(auth.verifier)
  }

  function Take(ks: Keyspace, state: string, expected: Provider, now: nat): (Keyspace, Result<string, Error>) {
    var (after, got) := GetDel(ks, StateKey(state), now);
    (after, Parse(got, expected))
  }

  function StoreExchange(ks: Keyspace, code: string, response: AuthResponse, now: nat, origin: nat): Keyspace {
    SetEx(ks, ExchangeKey(code), Payload(response), now, EXCHANGE_TTL_SECS, origin)
  }

  /** `take_exchange` followed by the parse in the session route. */
  function TakeExchange(ks: Keyspace, code: string, now: nat): (Keyspace, Result<AuthResponse, Error>) {
    var (after, got) := GetDel(ks, ExchangeKey(code), now);
    (after, if got.Some? && got.value.value.Payload? then Success(got.value.value.response)
        else Failure(ExchangeCodeInvalid))
  }
}
