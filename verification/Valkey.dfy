/** The commands the service sends to Valkey, each one atomic, over one shared keyspace. */
module Valkey {
  import opened Wrappers
  import opened Models

  /** The JSON object stored under a pending OAuth state; the provider travels as its slug. */
  datatype StoredAuth = StoredAuth(verifier: string, provider: string)

  datatype Value = Counter(count: nat) | Pending(auth: StoredAuth) | Payload(response: AuthResponse)

  datatype Entry = Entry(
    value: Value,
    deadline: Option<nat>,   // None: no expiry set
    origin: nat,             // history: the call that wrote the entry
    writtenAt: nat)          // history

  type Keyspace = map<string, Entry>

  const I64_MAX: int := 0x7FFF_FFFF_FFFF_FFFF

  /** A key is visible up to and including its deadline. */
  predicate Alive(ks: Keyspace, key: string, now: nat) {
    key in ks && (ks[key].deadline.None? || now <= ks[key].deadline.value)
  }

  function SetEx(ks: Keyspace, key: string, value: Value, now: nat, ttl: nat, origin: nat): Keyspace {
    ks[key := Entry(value, Some(now + ttl), origin, now)]
  }

  /** GETDEL: the live entry, if any; the key is gone either way. */
  function GetDel(ks: Keyspace, key: string, now: nat): (Keyspace, Option<Entry>) {
    (ks - {key}, if Alive(ks, key, now) then Some(ks[key]) else None)
  }

  /** INCR: a missing or expired key starts at 1 with no expiry; an existing one keeps its expiry. */
  function Incr(ks: Keyspace, key: string, now: nat): Option<(Keyspace, nat)> {
    if !Alive(ks, key, now) then Some((ks[key := Entry(Counter(1), None, 0, now)], 1))
    else if ks[key].value.Counter? && ks[key].value.count < I64_MAX then
      var n := ks[key].value.count + 1;
      Some((ks[key := ks[key].(value := Counter(n))], n))
    else None
  }

  /** EXPIRE: a time to live that is not positive deletes the key. */
  function Expire(ks: Keyspace, key: string, now: nat, seconds: int): Keyspace {
    if !Alive(ks, key, now) then ks
    else if seconds <= 0 then ks - {key}
    else ks[key := ks[key].(deadline := Some(now + seconds))]
  }
}
