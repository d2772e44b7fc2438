/**
  The limiter under concurrency: each request reads the clock, increments and sets the
  expiry at three different moments, requests interleave freely, and Valkey may fail.
*/
module LimiterTrace {
  import opened Wrappers
  import opened Valkey
  import opened Keys
  import opened RateLimiting

  /** The counter a request belongs to. */
  datatype Slot = Slot(e: Endpoint, ip: string, window: nat)

  function SlotKey(s: Slot): string {
    RateKey(s.e, s.ip, s.window)
  }

  datatype Phase =
    | Reading                                       // clock read, INCR to come
    | Expiring                                      // INCR returned 1, EXPIRE to come
    | Answered(admitted: bool, failed: bool)

  /** `rank` is the count Valkey reached for this request, if its INCR took effect. */
  datatype Req = Req(slot: Slot, readAt: nat, rank: Option<nat>, phase: Phase)

  datatype Trace = Trace(now: nat, ks: Keyspace, reqs: seq<Req>)

  datatype Event =
    | Arrive(e: Endpoint, ip: string, at: nat)
    | Increment(i: nat, at: nat, lost: bool)        // lost: the reply never arrives
    | Unreachable(i: nat, at: nat)                  // the command never reached Valkey
    | SetExpiry(i: nat, at: nat, applied: bool, lost: bool)

  // ---- Counting requests ----

  function Count(reqs: seq<Req>, p: Req -> bool): nat {
    if reqs == [] then 0
    else Count(reqs[..|reqs| - 1], p) + if p(reqs[|reqs| - 1]) then 1 else 0
  }

  lemma CountAppend(reqs: seq<Req>, r: Req, p: Req -> bool)
    ensures Count(reqs + [r], p) == Count(reqs, p) + if p(r) then 1 else 0
  {
    assert (reqs + [r])[..|reqs|] == reqs;
  }

  lemma {:induction false} CountUpdate(reqs: seq<Req>, i: nat, r: Req, p: Req -> bool)
    requires i < |reqs|
    ensures Count(reqs[i := r], p) == Count(reqs, p) - (if p(reqs[i]) then 1 else 0) + (if p(r) then 1 else 0)
  {
    var n := |reqs| - 1;
    if i == n {
      assert reqs[i := r][..n] == reqs[..n];
    } else {
      assert reqs[i := r][..n] == reqs[..n][i := r];
      CountUpdate(reqs[..n], i, r, p);
    }
  }

  /** Requests counted by `p` are counted by one of `q1`, `q2`, `q3`. */
  lemma {:induction false} CountCover(reqs: seq<Req>, p: Req -> bool, q1: Req -> bool, q2: Req -> bool, q3: Req -> bool)
    requires forall i :: 0 <= i < |reqs| && p(reqs[i]) ==> q1(reqs[i]) || q2(reqs[i]) || q3(reqs[i])
    ensures Count(reqs, p) <= Count(reqs, q1) + Count(reqs, q2) + Count(reqs, q3)
  {
    if reqs == [] {
    } else {
      var n := |reqs| - 1;
      assert forall i :: 0 <= i < n ==> reqs[..n][i] == reqs[i];
      CountCover(reqs[..n], p, q1, q2, q3);
    }
  }

  lemma {:induction false} CountSame(reqs: seq<Req>, p: Req -> bool, q: Req -> bool)
    requires forall i :: 0 <= i < |reqs| ==> p(reqs[i]) == q(reqs[i])
    ensures Count(reqs, p) == Count(reqs, q)
  {
    if reqs == [] {
    } else {
      var n := |reqs| - 1;
      assert forall i :: 0 <= i < n ==> reqs[..n][i] == reqs[i];
      CountSame(reqs[..n], p, q);
    }
  }

  lemma {:induction false} CountNone(reqs: seq<Req>, p: Req -> bool)
    requires forall i :: 0 <= i < |reqs| ==> !p(reqs[i])
    ensures Count(reqs, p) == 0
  {
    if reqs == [] {
    } else {
      var n := |reqs| - 1;
      assert forall i :: 0 <= i < n ==> reqs[..n][i] == reqs[i];
      CountNone(reqs[..n], p);
    }
  }

  function Arrived(s: Slot): Req -> bool {
    (r: Req) => r.slot == s
  }

  function Counted(s: Slot): Req -> bool {
    (r: Req) => r.slot == s && r.rank.Some?
  }

  function WithinLimit(s: Slot, max: nat): Req -> bool {
    (r: Req) => r.slot == s && r.rank.Some? && r.rank.value <= max
  }

  function Admitted(s: Slot): Req -> bool {
    (r: Req) => r.slot == s && r.phase.Answered? && r.phase.admitted
  }

  function Broken(s: Slot): Req -> bool {
    (r: Req) => r.slot == s && r.phase.Answered? && r.phase.failed
  }

  function Never(): Req -> bool {
    (r: Req) => false
  }

  // ---- Steps ----

  /** Commands of one request come in order, on one clock that does not run backwards. */
  predicate Possible(t: Trace, ev: Event) {
    match ev
    case Arrive(e, ip, at) => Limited(e) && t.now <= at
    case Increment(i, at, _) => i < |t.reqs| && t.reqs[i].phase.Reading? && t.now <= at
    case Unreachable(i, at) => i < |t.reqs| && t.reqs[i].phase.Reading? && t.now <= at
    case SetExpiry(i, at, _, _) => i < |t.reqs| && t.reqs[i].phase.Expiring? && t.now <= at
  }

  /** The INCR takes effect at most `delay` seconds after its clock reading. */
  predicate Within(t: Trace, ev: Event, delay: nat) {
    ev.Increment? && Possible(t, ev) ==> ev.at <= t.reqs[ev.i].readAt + delay
  }

  /** The answer `check` gives for a count, or for a Valkey error. */
  function Answer(count: nat, at: nat, limits: Limits): Phase
    requires limits.size > 0
  {
    Answered(Judge(count, at, limits).Allowed?, false)
  }

  const FAIL_OPEN := Answered(true, true)

  function IncrementStep(t: Trace, i: nat, at: nat, lost: bool, limits: Limits): Trace
    requires limits.size > 0 && i < |t.reqs|
  {
    var r := t.reqs[i];
    match Incr(t.ks, SlotKey(r.slot), at)
    case None => t.(now := at, reqs := t.reqs[i := r.(phase := FAIL_OPEN)])
    case Some((after, count)) =>
      var phase := if lost then FAIL_OPEN else if count == 1 then Expiring else Answer(count, r.readAt, limits);
      t.(now := at, ks := after, reqs := t.reqs[i := r.(rank := Some(count), phase := phase)])
  }

  function Step(t: Trace, ev: Event, limits: Limits): Trace
    requires limits.size > 0
  {
    if !Possible(t, ev) then t
    else
      match ev
      case Arrive(e, ip, at) =>
        t.(now := at, reqs := t.reqs + [Req(Slot(e, ip, Window(at, limits.size)), at, None, Reading)])
      case Increment(i, at, lost) => IncrementStep(t, i, at, lost, limits)
      case Unreachable(i, at) => t.(now := at, reqs := t.reqs[i := t.reqs[i].(phase := FAIL_OPEN)])
      case SetExpiry(i, at, applied, lost) =>
        var r := t.reqs[i];
        t.(now := at,
           ks := if applied then Expire(t.ks, SlotKey(r.slot), at, Ttl(limits.size)) else t.ks,
           reqs := t.reqs[i := r.(phase := if lost || !applied then FAIL_OPEN else Answer(1, r.readAt, limits))])
  }

  function Play(t: Trace, events: seq<Event>, limits: Limits): Trace
    requires limits.size > 0
    decreases |events|
  {
    if events == [] then t else Play(Step(t, events[0], limits), events[1..], limits)
  }

  ghost predicate AllWithin(t: Trace, events: seq<Event>, delay: nat, limits: Limits)
    requires limits.size > 0
    decreases |events|
  {
    events == [] || (Within(t, events[0], delay) && AllWithin(Step(t, events[0], limits), events[1..], delay, limits))
  }

  /** The delay that the time to live of two windows allows for: one window and a second. */
  ghost predicate AllPrompt(t: Trace, events: seq<Event>, limits: Limits)
    requires limits.size > 0
  {
    AllWithin(t, events, limits.size + 1, limits)
  }

  const QUIET := Trace(0, map[], [])

  // ---- The invariant ----

  ghost predicate ReqOk(r: Req, now: nat, limits: Limits)
    requires limits.size > 0
  {
    && Limited(r.slot.e) && r.slot.window == Window(r.readAt, limits.size) && r.readAt <= now
    && (r.phase.Reading? ==> r.rank.None?)
    && (r.phase.Expiring? ==> r.rank == Some(1))
    && (r.phase.Answered? && !r.phase.failed ==> r.rank.Some? && (r.phase.admitted <==> r.rank.value <= limits.max))
    && (r.phase.Answered? && r.phase.failed ==> r.phase.admitted)
  }

  /**
    While its window's requests may still come, a counter is where it was left: nothing is lost,
    because the time to live is two windows.
  */
  ghost predicate SlotOk(t: Trace, s: Slot, limits: Limits) {
    t.now <= (s.window + 2) * limits.size ==>
      if Count(t.reqs, Counted(s)) == 0 then SlotKey(s) !in t.ks
      else
        && SlotKey(s) in t.ks
        && t.ks[SlotKey(s)].value == Counter(Count(t.reqs, Counted(s)))
        && (t.ks[SlotKey(s)].deadline.Some? ==> t.ks[SlotKey(s)].deadline.value >= (s.window + 2) * limits.size)
  }

  function Min(a: nat, b: nat): nat {
    if a < b then a else b
  }

  /** Of the requests counted, the first `max` are within the limit. */
  ghost predicate RanksOk(t: Trace, s: Slot, limits: Limits) {
    Count(t.reqs, WithinLimit(s, limits.max)) == Min(Count(t.reqs, Counted(s)), limits.max)
  }

  ghost predicate TraceInv(t: Trace, limits: Limits)
    requires limits.size > 0
  {
    && (forall i :: 0 <= i < |t.reqs| ==> ReqOk(t.reqs[i], t.now, limits))
    && (forall s: Slot :: Limited(s.e) ==> SlotOk(t, s, limits))
    && (forall s: Slot :: Limited(s.e) ==> RanksOk(t, s, limits))
  }

  lemma QuietInv(limits: Limits)
    requires limits.size > 0
    ensures TraceInv(QUIET, limits)
  {
  }

  lemma SlotKeyInjective(a: Slot, b: Slot)
    requires Limited(a.e) && Limited(b.e) && SlotKey(a) == SlotKey(b)
    ensures a == b
  {
    RateKeyInjective(a.e, a.ip, a.window, b.e, b.ip, b.window);
  }

  /** Replacing a request by one with the same slot and rank changes no count of ranks. */
  lemma SameRank(t: Trace, i: nat, r: Req, s: Slot, max: nat)
    requires i < |t.reqs| && r.slot == t.reqs[i].slot && r.rank == t.reqs[i].rank
    ensures Count(t.reqs[i := r], Counted(s)) == Count(t.reqs, Counted(s))
    ensures Count(t.reqs[i := r], WithinLimit(s, max)) == Count(t.reqs, WithinLimit(s, max))
  {
    CountUpdate(t.reqs, i, r, Counted(s));
    CountUpdate(t.reqs, i, r, WithinLimit(s, max));
  }

  lemma ArriveKeeps(t: Trace, ev: Event, limits: Limits)
    requires limits.size > 0 && TraceInv(t, limits) && ev.Arrive? && Possible(t, ev)
    ensures TraceInv(Step(t, ev, limits), limits)
  {
    var u := Step(t, ev, limits);
    var r := u.reqs[|t.reqs|];
    forall i | 0 <= i < |u.reqs| ensures ReqOk(u.reqs[i], u.now, limits) {
      assert i < |t.reqs| ==> ReqOk(t.reqs[i], t.now, limits);
    }
    forall s: Slot | Limited(s.e) ensures SlotOk(u, s, limits) && RanksOk(u, s, limits) {
      assert SlotOk(t, s, limits) && RanksOk(t, s, limits);
      CountAppend(t.reqs, r, Counted(s));
      CountAppend(t.reqs, r, WithinLimit(s, limits.max));
    }
  }

  /** An answer that leaves Valkey alone. */
  lemma AnswerKeeps(t: Trace, u: Trace, i: nat, r: Req, limits: Limits)
    requires limits.size > 0 && TraceInv(t, limits) && i < |t.reqs|
    requires r.slot == t.reqs[i].slot && r.rank == t.reqs[i].rank && t.now <= u.now && ReqOk(r, u.now, limits)
    requires u == t.(now := u.now, reqs := t.reqs[i := r])
    ensures TraceInv(u, limits)
  {
    forall j | 0 <= j < |u.reqs| ensures ReqOk(u.reqs[j], u.now, limits) {
      assert ReqOk(t.reqs[j], t.now, limits);
    }
    forall s: Slot | Limited(s.e) ensures SlotOk(u, s, limits) && RanksOk(u, s, limits) {
      assert SlotOk(t, s, limits) && RanksOk(t, s, limits);
      SameRank(t, i, r, s, limits.max);
    }
  }

  /** The delay bound puts the INCR no later than the end of the window after its own. */
  lemma InTime(r: Req, at: nat, limits: Limits)
    requires limits.size > 0 && r.slot.window == Window(r.readAt, limits.size) && at <= r.readAt + limits.size + 1
    ensures at <= (r.slot.window + 2) * limits.size
  {
    WindowBounds(r.readAt, limits.size);
    assert (r.slot.window + 2) * limits.size == (r.slot.window + 1) * limits.size + limits.size;
  }

  lemma IncrementKeepsSlots(t: Trace, i: nat, at: nat, lost: bool, limits: Limits, s: Slot)
    requires limits.size > 0 && TraceInv(t, limits) && Possible(t, Increment(i, at, lost)) && Limited(s.e)
    requires Within(t, Increment(i, at, lost), limits.size + 1)
    requires Incr(t.ks, SlotKey(t.reqs[i].slot), at).Some?
    ensures var u := IncrementStep(t, i, at, lost, limits); SlotOk(u, s, limits) && RanksOk(u, s, limits)
  {
    var u := IncrementStep(t, i, at, lost, limits);
    var own := t.reqs[i].slot;
    assert ReqOk(t.reqs[i], t.now, limits);
    assert SlotOk(t, s, limits) && RanksOk(t, s, limits) && SlotOk(t, own, limits);
    InTime(t.reqs[i], at, limits);
    CountUpdate(t.reqs, i, u.reqs[i], Counted(s));
    CountUpdate(t.reqs, i, u.reqs[i], WithinLimit(s, limits.max));
    if SlotKey(s) == SlotKey(own) {
      SlotKeyInjective(s, own);
    }
  }

  lemma IncrementKeeps(t: Trace, ev: Event, limits: Limits)
    requires limits.size > 0 && TraceInv(t, limits) && ev.Increment? && Possible(t, ev)
             && Within(t, ev, limits.size + 1)
    ensures TraceInv(Step(t, ev, limits), limits)
  {
    var u := Step(t, ev, limits);
    assert ReqOk(t.reqs[ev.i], t.now, limits);
    if Incr(t.ks, SlotKey(t.reqs[ev.i].slot), ev.at).None? {
      AnswerKeeps(t, u, ev.i, u.reqs[ev.i], limits);
      return;
    }
    forall j | 0 <= j < |u.reqs| ensures ReqOk(u.reqs[j], u.now, limits) {
      assert ReqOk(t.reqs[j], t.now, limits);
    }
    forall s: Slot | Limited(s.e) ensures SlotOk(u, s, limits) && RanksOk(u, s, limits) {
      IncrementKeepsSlots(t, ev.i, ev.at, ev.lost, limits, s);
    }
  }

  /** An EXPIRE comes after the clock reading, so the counter it touches outlives the window after its own. */
  lemma DeadlineReaches(r: Req, at: nat, limits: Limits)
    requires limits.size > 0 && r.slot.window == Window(r.readAt, limits.size) && r.readAt <= at
    ensures at + 2 * limits.size >= (r.slot.window + 2) * limits.size
  {
    WindowBounds(r.readAt, limits.size);
    assert (r.slot.window + 2) * limits.size == r.slot.window * limits.size + 2 * limits.size;
  }

  /** The keyspace of an EXPIRE changes in the deadline of its own key alone. */
  lemma ExpireTouches(ks: Keyspace, key: string, at: nat, ttl: int)
    requires ttl > 0
    ensures var after := Expire(ks, key, at, ttl);
            && after.Keys == ks.Keys
            && (forall k :: k in ks ==> after[k].value == ks[k].value)
            && (forall k :: k in ks && k != key ==> after[k] == ks[k])
            && (key in ks ==> after[key] == ks[key] || after[key].deadline == Some(at + ttl))
  {
  }

  lemma ExpiryKeepsSlot(t: Trace, ev: Event, limits: Limits, s: Slot)
    requires limits.size > 0 && Ttl(limits.size) == 2 * limits.size && TraceInv(t, limits)
    requires ev.SetExpiry? && Possible(t, ev) && Limited(s.e)
    ensures SlotOk(Step(t, ev, limits), s, limits) && RanksOk(Step(t, ev, limits), s, limits)
  {
    var u := Step(t, ev, limits);
    var own := t.reqs[ev.i].slot;
    assert ReqOk(t.reqs[ev.i], t.now, limits);
    assert SlotOk(t, s, limits) && RanksOk(t, s, limits);
    SameRank(t, ev.i, u.reqs[ev.i], s, limits.max);
    DeadlineReaches(t.reqs[ev.i], ev.at, limits);
    ExpireTouches(t.ks, SlotKey(own), ev.at, Ttl(limits.size));
    if SlotKey(s) == SlotKey(own) {
      SlotKeyInjective(s, own);
    }
  }

  lemma ExpiryKeeps(t: Trace, ev: Event, limits: Limits)
    requires limits.size > 0 && Ttl(limits.size) == 2 * limits.size
    requires TraceInv(t, limits) && ev.SetExpiry? && Possible(t, ev)
    ensures TraceInv(Step(t, ev, limits), limits)
  {
    var u := Step(t, ev, limits);
    assert ReqOk(t.reqs[ev.i], t.now, limits);
    forall j | 0 <= j < |u.reqs| ensures ReqOk(u.reqs[j], u.now, limits) {
      assert ReqOk(t.reqs[j], t.now, limits);
    }
    forall s: Slot | Limited(s.e) ensures SlotOk(u, s, limits) && RanksOk(u, s, limits) {
      ExpiryKeepsSlot(t, ev, limits, s);
    }
  }

  lemma StepKeeps(t: Trace, ev: Event, limits: Limits)
    requires limits.size > 0 && Ttl(limits.size) == 2 * limits.size && TraceInv(t, limits)
             && Within(t, ev, limits.size + 1)
    ensures TraceInv(Step(t, ev, limits), limits)
  {
    if Possible(t, ev) {
      match ev
      case Arrive(_, _, _) => ArriveKeeps(t, ev, limits);
      case Increment(_, _, _) => IncrementKeeps(t, ev, limits);
      case Unreachable(i, _) =>
        assert ReqOk(t.reqs[i], t.now, limits);
        AnswerKeeps(t, Step(t, ev, limits), i, t.reqs[i].(phase := FAIL_OPEN), limits);
      case SetExpiry(_, _, _, _) => ExpiryKeeps(t, ev, limits);
    }
  }

  lemma {:induction false} PlayKeeps(t: Trace, events: seq<Event>, limits: Limits)
    requires limits.size > 0 && Ttl(limits.size) == 2 * limits.size && TraceInv(t, limits)
             && AllPrompt(t, events, limits)
    ensures TraceInv(Play(t, events, limits), limits)
    decreases |events|
  {
    if events == [] {
    } else {
      StepKeeps(t, events[0], limits);
      PlayKeeps(Step(t, events[0], limits), events[1..], limits);
    }
  }

  // ---- What the limiter promises ----

  predicate Sane(limits: Limits) {
    0 < limits.size < 0x4000_0000_0000_0000
  }

  lemma TraceInvAlways(events: seq<Event>, limits: Limits)
    requires Sane(limits) && AllPrompt(QUIET, events, limits)
    ensures TraceInv(Play(QUIET, events, limits), limits)
  {
    NothingWraps(0, limits.size);
    PlayKeeps(QUIET, events, limits);
  }

  /** In every trace of prompt requests, a window admits at most `max` requests more than it had Valkey errors. */
  lemma WindowLimit(events: seq<Event>, s: Slot, limits: Limits)
    requires Sane(limits) && Limited(s.e) && AllPrompt(QUIET, events, limits)
    ensures var reqs := Play(QUIET, events, limits).reqs;
            Count(reqs, Admitted(s)) <= limits.max + Count(reqs, Broken(s))
  {
    TraceInvAlways(events, limits);
    var t := Play(QUIET, events, limits);
    assert RanksOk(t, s, limits);
    forall i | 0 <= i < |t.reqs| && Admitted(s)(t.reqs[i])
      ensures WithinLimit(s, limits.max)(t.reqs[i]) || Broken(s)(t.reqs[i])
    {
      assert ReqOk(t.reqs[i], t.now, limits);
    }
    CountCover(t.reqs, Admitted(s), WithinLimit(s, limits.max), Broken(s), Never());
    CountNone(t.reqs, Never());
  }

  predicate AnsweredWithoutError(reqs: seq<Req>, s: Slot) {
    forall i :: 0 <= i < |reqs| && reqs[i].slot == s ==> reqs[i].phase.Answered? && !reqs[i].phase.failed
  }

  /**
    Once its requests are all answered, promptly and without an error, a window of n requests
    has admitted exactly min(n, max).
  */
  lemma WindowExact(events: seq<Event>, s: Slot, limits: Limits)
    requires Sane(limits) && Limited(s.e) && AllPrompt(QUIET, events, limits)
    requires AnsweredWithoutError(Play(QUIET, events, limits).reqs, s)
    ensures var reqs := Play(QUIET, events, limits).reqs;
            Count(reqs, Admitted(s)) == Min(Count(reqs, Arrived(s)), limits.max)
  {
    TraceInvAlways(events, limits);
    var t := Play(QUIET, events, limits);
    assert RanksOk(t, s, limits);
    forall i | 0 <= i < |t.reqs|
      ensures Admitted(s)(t.reqs[i]) == WithinLimit(s, limits.max)(t.reqs[i])
              && Arrived(s)(t.reqs[i]) == Counted(s)(t.reqs[i])
    {
      assert ReqOk(t.reqs[i], t.now, limits);
    }
    CountSame(t.reqs, Admitted(s), WithinLimit(s, limits.max));
    CountSame(t.reqs, Arrived(s), Counted(s));
  }

  function AdmittedIn(e: Endpoint, ip: string, from: nat, size: nat): Req -> bool {
    (r: Req) => r.slot.e == e && r.slot.ip == ip && from <= r.readAt < from + size && r.phase.Answered?
        && r.phase.admitted
  }

  function BrokenIn(e: Endpoint, ip: string, from: nat, size: nat): Req -> bool {
    (r: Req) => r.slot.e == e && r.slot.ip == ip && from <= r.readAt < from + size && r.phase.Answered?
        && r.phase.failed
  }

  /**
    In every trace of prompt requests, clock readings within any W seconds give one endpoint and
    IP at most 2 * max admissions, beyond those due to errors.
  */
  lemma AnyInterval(events: seq<Event>, e: Endpoint, ip: string, from: nat, limits: Limits)
    requires Sane(limits) && Limited(e) && AllPrompt(QUIET, events, limits)
    ensures var reqs := Play(QUIET, events, limits).reqs;
            Count(reqs, AdmittedIn(e, ip, from, limits.size))
            <= 2 * limits.max + Count(reqs, BrokenIn(e, ip, from, limits.size))
  {
    TraceInvAlways(events, limits);
    var t := Play(QUIET, events, limits);
    var w := Window(from, limits.size);
    var s1, s2 := Slot(e, ip, w), Slot(e, ip, w + 1);
    var p, b := AdmittedIn(e, ip, from, limits.size), BrokenIn(e, ip, from, limits.size);
    assert RanksOk(t, s1, limits) && RanksOk(t, s2, limits);
    forall i | 0 <= i < |t.reqs| && p(t.reqs[i])
      ensures WithinLimit(s1, limits.max)(t.reqs[i]) || WithinLimit(s2, limits.max)(t.reqs[i]) || b(t.reqs[i])
    {
      assert ReqOk(t.reqs[i], t.now, limits);
      TwoWindows(from, t.reqs[i].readAt, limits.size);
    }
    CountCover(t.reqs, p, WithinLimit(s1, limits.max), WithinLimit(s2, limits.max), b);
  }

  lemma TwoWindows(from: nat, at: nat, size: nat)
    requires size > 0 && from <= at < from + size
    ensures Window(at, size) == Window(from, size) || Window(at, size) == Window(from, size) + 1
  {
    WindowMonotone(from, at, size);
    WindowBounds(from, size);
    assert (Window(from, size) + 2) * size == (Window(from, size) + 1) * size + size;
    WindowBelow(at, Window(from, size) + 2, size);
  }

  // ---- The check of one request is a trace ----

  /** The commands of one check, all at one time. */
  function CommandsOf(t: Trace, e: Endpoint, ip: string, at: nat, fault: Fault, limits: Limits): seq<Event>
    requires limits.size > 0
  {
    var i := |t.reqs|;
    var arrive := Arrive(e, ip, at);
    if fault == BeforeIncr then [arrive, Unreachable(i, at)]
    else if fault == AfterIncr then [arrive, Increment(i, at, true)]
    else
      match Incr(t.ks, RateKey(e, ip, Window(at, limits.size)), at)
      case Some((_, 1)) => [arrive, Increment(i, at, false), SetExpiry(i, at, fault == NoFault, false)]
      case _ => [arrive, Increment(i, at, false)]
  }

  lemma PlayTwo(t: Trace, a: Event, b: Event, limits: Limits)
    requires limits.size > 0
    ensures Play(t, [a, b], limits) == Step(Step(t, a, limits), b, limits)
  {
    var all := [a, b];
    assert all[1..] == [b] && [b][1..] == [];
    assert Play(t, all, limits) == Play(Step(t, a, limits), [b], limits);
    assert Play(Step(t, a, limits), [b], limits) == Play(Step(Step(t, a, limits), b, limits), [], limits);
  }

  lemma PlayThree(t: Trace, a: Event, b: Event, c: Event, limits: Limits)
    requires limits.size > 0
    ensures Play(t, [a, b, c], limits) == Step(Step(Step(t, a, limits), b, limits), c, limits)
  {
    assert [a, b, c][1..] == [b, c];
    PlayTwo(Step(t, a, limits), b, c, limits);
  }

  /** The requests so far are kept, and one more has been answered so. */
  predicate OneMoreAnswered(t: Trace, u: Trace, admitted: bool, failed: bool) {
    && |u.reqs| == |t.reqs| + 1 && u.reqs[..|t.reqs|] == t.reqs
    && u.reqs[|t.reqs|].phase == Answered(admitted, failed)
  }

  /**
    A check run in one go is a trace of its commands: the same keyspace, the same answer, and
    the same Valkey errors.
  */
  lemma CheckIsATrace(t: Trace, e: Endpoint, ip: string, at: nat, fault: Fault, limits: Limits)
    requires limits.size > 0 && Limited(e) && t.now <= at
    ensures var u := Play(t, CommandsOf(t, e, ip, at, fault, limits), limits);
            var key := RateKey(e, ip, Window(at, limits.size));
            var (after, verdict) := Check(t.ks, e, ip, at, limits, fault);
            u.ks == after
            && OneMoreAnswered(t, u, verdict.Allowed?, IncrAndExpire(t.ks, key, at, limits.size, fault).1.None?)
  {
    var events := CommandsOf(t, e, ip, at, fault, limits);
    var t1 := Step(t, events[0], limits);
    var r := Req(Slot(e, ip, Window(at, limits.size)), at, None, Reading);
    assert t1 == t.(now := at, reqs := t.reqs + [r]);
    if |events| == 2 {
      PlayTwo(t, events[0], events[1], limits);
    } else {
      PlayThree(t, events[0], events[1], events[2], limits);
    }
  }

  // ---- The delay bound is exact ----

  /** With INCRs at most `delay` seconds late, no window ever admits more than its limit and its errors. */
  ghost predicate LimitHolds(delay: nat, limits: Limits)
    requires limits.size > 0
  {
    forall events: seq<Event>, s: Slot :: Limited(s.e) && AllWithin(QUIET, events, delay, limits) ==>
      var reqs := Play(QUIET, events, limits).reqs;
      Count(reqs, Admitted(s)) <= limits.max + Count(reqs, Broken(s))
  }

  lemma {:induction false} WithinGrows(t: Trace, events: seq<Event>, a: nat, b: nat, limits: Limits)
    requires limits.size > 0 && a <= b && AllWithin(t, events, a, limits)
    ensures AllWithin(t, events, b, limits)
    decreases |events|
  {
    if events == [] {
    } else {
      WithinGrows(Step(t, events[0], limits), events[1..], a, b, limits);
    }
  }

  lemma {:induction false} PlayAppend(t: Trace, events: seq<Event>, ev: Event, delay: nat, limits: Limits)
    requires limits.size > 0 && AllWithin(t, events, delay, limits) && Within(Play(t, events, limits), ev, delay)
    ensures Play(t, events + [ev], limits) == Step(Play(t, events, limits), ev, limits)
    ensures AllWithin(t, events + [ev], delay, limits)
    decreases |events|
  {
    var all := events + [ev];
    if events == [] {
      assert all == [ev] && all[1..] == [];
    } else {
      assert all[0] == events[0] && all[1..] == events[1..] + [ev];
      PlayAppend(Step(t, events[0], limits), events[1..], ev, delay, limits);
    }
  }

  /** The `i`th request of slot `s`, read at `at`, counted `rank`, and admitted. */
  function Passed(s: Slot, at: nat, rank: nat): Req {
    Req(s, at, Some(rank), Answered(true, false))
  }

  function PassedUpTo(s: Slot, n: nat): seq<Req> {
    seq(n, i requires 0 <= i < n => Passed(s, 0, i + 1))
  }

  /** Window 0 with `n` requests counted at time 0: the counter expires after two windows. */
  function Filled(s: Slot, n: nat, limits: Limits): Trace
    requires n > 0
  {
    Trace(0, map[SlotKey(s) := Entry(Counter(n), Some(2 * limits.size), 0, 0)], PassedUpTo(s, n))
  }

  predicate Fillable(s: Slot, limits: Limits) {
    Limited(s.e) && s.window == 0 && Sane(limits) && 1 <= limits.max <= I64_MAX
  }

  /** The first request of a slot, from an empty keyspace. */
  lemma FillFirst(s: Slot, limits: Limits) returns (events: seq<Event>)
    requires Fillable(s, limits)
    ensures AllWithin(QUIET, events, 0, limits) && Play(QUIET, events, limits) == Filled(s, 1, limits)
  {
    NothingWraps(0, limits.size);
    WindowOf(0, 0, limits.size);
    events := [Arrive(s.e, s.ip, 0)];
    PlayAppend(QUIET, [], events[0], 0, limits);
    var t1 := Step(QUIET, events[0], limits);
    assert [] + events == events && t1.reqs == [Req(s, 0, None, Reading)];
    PlayAppend(QUIET, events, Increment(0, 0, false), 0, limits);
    events := events + [Increment(0, 0, false)];
    var t2 := Step(t1, Increment(0, 0, false), limits);
    assert t2.reqs == [Req(s, 0, Some(1), Expiring)];
    PlayAppend(QUIET, events, SetExpiry(0, 0, true, false), 0, limits);
    events := events + [SetExpiry(0, 0, true, false)];
    assert Step(t2, SetExpiry(0, 0, true, false), limits).reqs == [Passed(s, 0, 1)] == PassedUpTo(s, 1);
  }

  /** One more request in a filled slot. */
  lemma FillNext(s: Slot, n: nat, limits: Limits)
    requires Fillable(s, limits) && 1 <= n < limits.max
    ensures var t := Step(Filled(s, n, limits), Arrive(s.e, s.ip, 0), limits);
            Within(t, Increment(n, 0, false), 0) && Step(t, Increment(n, 0, false), limits) == Filled(s, n + 1, limits)
  {
    WindowOf(0, 0, limits.size);
    var t := Step(Filled(s, n, limits), Arrive(s.e, s.ip, 0), limits);
    var u := Step(t, Increment(n, 0, false), limits);
    assert t.reqs == PassedUpTo(s, n) + [Req(s, 0, None, Reading)];
    assert u.reqs == PassedUpTo(s, n) + [Passed(s, 0, n + 1)] == PassedUpTo(s, n + 1);
  }

  lemma {:induction false} FillAll(s: Slot, n: nat, limits: Limits) returns (events: seq<Event>)
    requires Fillable(s, limits) && 1 <= n <= limits.max
    ensures AllWithin(QUIET, events, 0, limits) && Play(QUIET, events, limits) == Filled(s, n, limits)
  {
    if n == 1 {
      events := FillFirst(s, limits);
    } else {
      var before := FillAll(s, n - 1, limits);
      FillNext(s, n - 1, limits);
      PlayAppend(QUIET, before, Arrive(s.e, s.ip, 0), 0, limits);
      PlayAppend(QUIET, before + [Arrive(s.e, s.ip, 0)], Increment(n - 1, 0, false), 0, limits);
      events := before + [Arrive(s.e, s.ip, 0)] + [Increment(n - 1, 0, false)];
    }
  }

  /** A request read in the window's last second, whose INCR comes one window and two seconds later. */
  function LateEvents(s: Slot, limits: Limits): seq<Event>
    requires limits.size > 0
  {
    [Arrive(s.e, s.ip, limits.size - 1),
     Increment(limits.max, 2 * limits.size + 1, false),
     SetExpiry(limits.max, 2 * limits.size + 1, true, false)]
  }

  /** It finds the full counter expired, counts one again, and is admitted. */
  lemma LateRequest(s: Slot, limits: Limits)
    requires Fillable(s, limits)
    ensures var full := Filled(s, limits.max, limits);
            var late := LateEvents(s, limits);
            var t1 := Step(full, late[0], limits);
            var t2 := Step(t1, late[1], limits);
            && Within(t1, late[1], limits.size + 2)
            && Step(t2, late[2], limits).reqs == PassedUpTo(s, limits.max) + [Passed(s, limits.size - 1, 1)]
  {
    WindowOf(limits.size - 1, 0, limits.size);
    var done := PassedUpTo(s, limits.max);
    var late := LateEvents(s, limits);
    var t1 := Step(Filled(s, limits.max, limits), late[0], limits);
    assert t1.reqs == done + [Req(s, limits.size - 1, None, Reading)];
    var t2 := Step(t1, late[1], limits);
    assert t2.reqs == done + [Req(s, limits.size - 1, Some(1), Expiring)];
  }

  lemma {:induction false} CountAll(reqs: seq<Req>, p: Req -> bool)
    requires forall i :: 0 <= i < |reqs| ==> p(reqs[i])
    ensures Count(reqs, p) == |reqs|
  {
    if reqs == [] {
    } else {
      CountAll(reqs[..|reqs| - 1], p);
    }
  }

  /**
    For every window size and limit, an INCR one window and two seconds late lets a window admit
    `max + 1` error-free requests.
  */
  lemma LateIncrementIsForgotten(e: Endpoint, ip: string, limits: Limits) returns (events: seq<Event>)
    requires Limited(e) && Sane(limits) && 1 <= limits.max <= I64_MAX
    ensures AllWithin(QUIET, events, limits.size + 2, limits)
    ensures var reqs := Play(QUIET, events, limits).reqs;
            var s := Slot(e, ip, 0);
            Count(reqs, Admitted(s)) == limits.max + 1 && Count(reqs, Broken(s)) == 0
  {
    var s := Slot(e, ip, 0);
    var late := LateEvents(s, limits);
    events := FillAll(s, limits.max, limits);
    WithinGrows(QUIET, events, 0, limits.size + 2, limits);
    LateRequest(s, limits);
    PlayAppend(QUIET, events, late[0], limits.size + 2, limits);
    events := events + [late[0]];
    PlayAppend(QUIET, events, late[1], limits.size + 2, limits);
    events := events + [late[1]];
    PlayAppend(QUIET, events, late[2], limits.size + 2, limits);
    events := events + [late[2]];
    CountAll(Play(QUIET, events, limits).reqs, Admitted(s));
    CountNone(Play(QUIET, events, limits).reqs, Broken(s));
  }

  /** The per-window limit holds exactly for delays of up to one window and a second. */
  lemma DelayBoundIsExact(delay: nat, limits: Limits)
    requires Sane(limits) && 1 <= limits.max <= I64_MAX
    ensures LimitHolds(delay, limits) <==> delay <= limits.size + 1
  {
    if delay <= limits.size + 1 {
      forall events: seq<Event>, s: Slot | Limited(s.e) && AllWithin(QUIET, events, delay, limits)
        ensures var reqs := Play(QUIET, events, limits).reqs;
                Count(reqs, Admitted(s)) <= limits.max + Count(reqs, Broken(s))
      {
        WithinGrows(QUIET, events, delay, limits.size + 1, limits);
        WindowLimit(events, s, limits);
      }
    } else {
      var e := Endpoint("post", "/auth/login");
      var events := LateIncrementIsForgotten(e, "", limits);
      WithinGrows(QUIET, events, limits.size + 2, delay, limits);
      assert Limited(Slot(e, "", 0).e);
    }
  }
}
