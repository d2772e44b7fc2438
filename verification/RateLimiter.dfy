/** The fixed-window limiter of src/rate_limit.rs: its machine arithmetic and its checks run one at a time. */
module RateLimiting {
  import opened Wrappers
  import opened Valkey
  import opened Keys

  const U64 := 0x1_0000_0000_0000_0000
  const I64 := 0x8000_0000_0000_0000

  /** u64 arithmetic of a release build. */
  function Wrap(n: int): nat {
    n % U64
  }

  /** The `as i64` cast. */
  function Cast(n: nat): int {
    if Wrap(n) < I64 then Wrap(n) else Wrap(n) - U64
  }

  function Window(now: nat, size: nat): nat
    requires size > 0
  {
    now / size
  }

  function RetryAfter(now: nat, size: nat): nat
    requires size > 0
  {
    var retry := Wrap(Wrap(Wrap(Window(now, size) + 1) * size) - now);
    if retry < 1 then 1 else retry
  }

  function Ttl(size: nat): int {
    Cast(Wrap(size * 2))
  }

  datatype Fault = NoFault | BeforeIncr | AfterIncr | AtExpire

  datatype Verdict = Allowed(remaining: nat) | Rejected(retryAfter: nat)

  datatype Limits = Limits(max: nat, size: nat)

  /** `incr`: the keyspace after it, and the count unless Valkey failed. */
  function IncrAndExpire(ks: Keyspace, key: string, now: nat, size: nat, fault: Fault): (Keyspace, Option<nat>) {
    if fault == BeforeIncr then (ks, None)
    else
      match Incr(ks, key, now)
      case None => (ks, None)
      case Some((after, count)) =>
        if fault == AfterIncr then (after, None)
        else if count != 1 then (after, Some(count))
        else if fault == AtExpire then (after, None)
        else (Expire(after, key, now, Ttl(size)), Some(count))
  }

  function Judge(count: nat, now: nat, limits: Limits): Verdict
    requires limits.size > 0
  {
    if count > limits.max then Rejected(RetryAfter(now, limits.size)) else Allowed(limits.max - count)
  }

  /** `check`, failing open. */
  function Check(ks: Keyspace, e: Endpoint, ip: string, now: nat, limits: Limits, fault: Fault): (Keyspace, Verdict)
    requires limits.size > 0
  {
    var (after, count) := IncrAndExpire(ks, RateKey(e, ip, Window(now, limits.size)), now, limits.size, fault);
    (after, if count.None? then Allowed(limits.max) else Judge(count.value, now, limits))
  }

  // ---- Arithmetic ----

  lemma MulMonotone(a: nat, b: nat, size: nat)
    requires a <= b
    ensures a * size <= b * size
  {
  }

  lemma WindowBounds(now: nat, size: nat)
    requires size > 0
    ensures Window(now, size) * size <= now < (Window(now, size) + 1) * size
    ensures (Window(now, size) + 1) * size == Window(now, size) * size + size
  {
    assert now == (now / size) * size + now % size;
  }

  lemma WindowMonotone(a: nat, b: nat, size: nat)
    requires size > 0 && a <= b
    ensures Window(a, size) <= Window(b, size)
  {
    WindowBounds(a, size);
    WindowBounds(b, size);
    if Window(b, size) < Window(a, size) {
      MulMonotone(Window(b, size) + 1, Window(a, size), size);
    }
  }

  /** A time in window `w` has window `w`. */
  lemma WindowOf(now: nat, w: nat, size: nat)
    requires size > 0 && w * size <= now < (w + 1) * size
    ensures Window(now, size) == w
  {
    WindowBounds(now, size);
    if Window(now, size) < w {
      MulMonotone(Window(now, size) + 1, w, size);
    } else if Window(now, size) > w {
      MulMonotone(w + 1, Window(now, size), size);
    }
  }

  lemma NextWindowFits(now: nat, size: nat)
    requires size > 0 && now + size < U64
    ensures var w := Window(now, size); w + 1 < U64 && (w + 1) * size < U64 && now < (w + 1) * size <= now + size
  {
    var w := Window(now, size);
    WindowBounds(now, size);
    MulMonotone(1, size, w + 1);
  }

  lemma WrapFits(n: int)
    requires 0 <= n < U64
    ensures Wrap(n) == n
  {
  }

  lemma RetryFits(now: nat, size: nat)
    requires size > 0 && now + size < U64
    ensures 1 <= RetryAfter(now, size) <= size
    ensures now + RetryAfter(now, size) == (Window(now, size) + 1) * size
  {
    NextWindowFits(now, size);
    var next := Window(now, size) + 1;
    WrapFits(next);
    WrapFits(next * size);
    WrapFits(next * size - now);
  }

  lemma TtlFits(size: nat)
    requires 0 < size < 0x4000_0000_0000_0000
    ensures Ttl(size) == 2 * size
  {
    WrapFits(size * 2);
  }

  /**
    Within these bounds nothing wraps: the retry delay leads exactly to the next window, and the
    time to live is two windows.
  */
  lemma NothingWraps(now: nat, size: nat)
    requires 0 < size < 0x4000_0000_0000_0000 && now + size < U64
    ensures 1 <= RetryAfter(now, size) <= size
    ensures now + RetryAfter(now, size) == (Window(now, size) + 1) * size
    ensures Ttl(size) == 2 * size
  {
    RetryFits(now, size);
    TtlFits(size);
  }

  // ---- Checks one after another, without Valkey errors ----

  datatype Probe = Probe(e: Endpoint, ip: string, at: nat)

  function Run(ks: Keyspace, probes: seq<Probe>, limits: Limits): Keyspace
    requires limits.size > 0
    decreases |probes|
  {
    if probes == [] then ks
    else Run(Check(ks, probes[0].e, probes[0].ip, probes[0].at, limits, NoFault).0, probes[1..], limits)
  }

  /** On limited endpoints, in clock order, from `from` on. */
  ghost predicate InOrder(probes: seq<Probe>, from: nat) {
    && (forall i :: 0 <= i < |probes| ==> Limited(probes[i].e) && from <= probes[i].at)
    && (forall i, j :: 0 <= i < j < |probes| ==> probes[i].at <= probes[j].at)
  }

  predicate Failed(ks: Keyspace, p: Probe, limits: Limits)
    requires limits.size > 0
  {
    Incr(ks, RateKey(p.e, p.ip, Window(p.at, limits.size)), p.at).None?
  }

  /** The counter stands at `count` or more, and lives until `until`. */
  ghost predicate Spent(ks: Keyspace, key: string, count: nat, until: nat) {
    && key in ks && ks[key].value.Counter? && ks[key].value.count >= count
    && (ks[key].deadline.Some? ==> ks[key].deadline.value >= until)
  }

  lemma SpentStays(ks: Keyspace, key: string, count: nat, until: nat, p: Probe, limits: Limits)
    requires limits.size > 0 && count > 0 && Spent(ks, key, count, until) && p.at <= until
    ensures Spent(Check(ks, p.e, p.ip, p.at, limits, NoFault).0, key, count, until)
  {
    assert Alive(ks, key, p.at);
  }

  lemma {:induction false} SpentStaysAll(ks: Keyspace, key: string, count: nat, until: nat, probes: seq<Probe>,
      limits: Limits)
    requires limits.size > 0 && count > 0 && Spent(ks, key, count, until)
    requires forall i :: 0 <= i < |probes| ==> probes[i].at <= until
    ensures Spent(Run(ks, probes, limits), key, count, until)
    decreases |probes|
  {
    if probes == [] {
    } else {
      SpentStays(ks, key, count, until, probes[0], limits);
      SpentStaysAll(Check(ks, probes[0].e, probes[0].ip, probes[0].at, limits, NoFault).0, key, count, until,
          probes[1..], limits);
    }
  }

  /** Every counter was first incremented in its own window, so it outlives it. */
  ghost predicate Outlives(ks: Keyspace, limits: Limits) {
    forall e: Endpoint, ip: string, w: nat :: Limited(e) && RateKey(e, ip, w) in ks ==>
      var entry := ks[RateKey(e, ip, w)];
      entry.value.Counter? && entry.value.count > 0 && entry.deadline.Some?
          && entry.deadline.value >= (w + 2) * limits.size
  }

  lemma ProbeOutlives(ks: Keyspace, p: Probe, limits: Limits)
    requires 0 < limits.size && Ttl(limits.size) == 2 * limits.size && Limited(p.e) && Outlives(ks, limits)
    ensures Outlives(Check(ks, p.e, p.ip, p.at, limits, NoFault).0, limits)
  {
    var size := limits.size;
    var after := Check(ks, p.e, p.ip, p.at, limits, NoFault).0;
    var w0 := Window(p.at, size);
    WindowBounds(p.at, size);
    forall e: Endpoint, ip: string, w: nat | Limited(e) && RateKey(e, ip, w) in after
      ensures var entry := after[RateKey(e, ip, w)];
              entry.value.Counter? && entry.value.count > 0 && entry.deadline.Some?
                  && entry.deadline.value >= (w + 2) * size
    {
      if RateKey(e, ip, w) == RateKey(p.e, p.ip, w0) {
        RateKeyInjective(e, ip, w, p.e, p.ip, w0);
        assert (w0 + 2) * size == w0 * size + 2 * size;
      }
    }
  }

  lemma {:induction false} RunOutlives(ks: Keyspace, probes: seq<Probe>, limits: Limits)
    requires 0 < limits.size && Ttl(limits.size) == 2 * limits.size && Outlives(ks, limits)
    requires forall i :: 0 <= i < |probes| ==> Limited(probes[i].e)
    ensures Outlives(Run(ks, probes, limits), limits)
    decreases |probes|
  {
    if probes == [] {
    } else {
      ProbeOutlives(ks, probes[0], limits);
      RunOutlives(Check(ks, probes[0].e, probes[0].ip, probes[0].at, limits, NoFault).0, probes[1..], limits);
    }
  }

  /** What one order over a rejected check and what comes around it says of the parts. */
  lemma OrderParts(history: seq<Probe>, p: Probe, more: seq<Probe>, again: Probe)
    requires InOrder(history + [p] + more + [again], 0)
    ensures Limited(p.e) && p.at <= again.at
    ensures forall i :: 0 <= i < |history| ==> Limited(history[i].e)
    ensures forall i :: 0 <= i < |more| ==> more[i].at <= again.at
  {
    var all := history + [p] + more + [again];
    assert all[|history|] == p && all[|all| - 1] == again;
    forall i | 0 <= i < |history| ensures Limited(history[i].e) {
      assert all[i] == history[i];
    }
    forall i | 0 <= i < |more| ensures more[i].at <= again.at {
      assert all[|history| + 1 + i] == more[i];
    }
  }

  /** A counter spent until the end of the window rejects every check in the window. */
  lemma SpentRejects(ks: Keyspace, p: Probe, again: Probe, limits: Limits)
    requires 0 < limits.size && again.e == p.e && again.ip == p.ip
    requires var w := Window(p.at, limits.size);
             && w * limits.size <= again.at < (w + 1) * limits.size
             && Spent(ks, RateKey(p.e, p.ip, w), limits.max + 1, (w + 1) * limits.size)
    ensures !Failed(ks, again, limits) ==> Check(ks, again.e, again.ip, again.at, limits, NoFault).1.Rejected?
  {
    WindowOf(again.at, Window(p.at, limits.size), limits.size);
  }

  /**
    After a rejection at `p.at`, every error-free check of the same endpoint and IP before
    the announced time is rejected too, whatever other checks run in between.
  */
  lemma RejectionLasts(history: seq<Probe>, p: Probe, more: seq<Probe>, again: Probe, limits: Limits)
    requires 0 < limits.size < 0x4000_0000_0000_0000 && p.at + limits.size < U64
    requires InOrder(history + [p] + more + [again], 0) && again.e == p.e && again.ip == p.ip
    requires var ks := Run(map[], history, limits); Check(ks, p.e, p.ip, p.at, limits, NoFault).1.Rejected?
    requires var ks := Run(map[], history, limits);
             again.at < p.at + Check(ks, p.e, p.ip, p.at, limits, NoFault).1.retryAfter
    ensures var ks := Run(Check(Run(map[], history, limits), p.e, p.ip, p.at, limits, NoFault).0, more, limits);
            !Failed(ks, again, limits) ==> Check(ks, again.e, again.ip, again.at, limits, NoFault).1.Rejected?
  {
    var ks := Run(map[], history, limits);
    var w, until := Window(p.at, limits.size), (Window(p.at, limits.size) + 1) * limits.size;
    var after := Check(ks, p.e, p.ip, p.at, limits, NoFault).0;
    NothingWraps(p.at, limits.size);
    WindowBounds(p.at, limits.size);
    OrderParts(history, p, more, again);
    RunOutlives(map[], history, limits);
    RejectionSpends(ks, p, limits);
    SpentStaysAll(after, RateKey(p.e, p.ip, w), limits.max + 1, until, more, limits);
    SpentRejects(Run(after, more, limits), p, again, limits);
  }

  lemma RejectionSpends(ks: Keyspace, p: Probe, limits: Limits)
    requires 0 < limits.size && Ttl(limits.size) == 2 * limits.size && Limited(p.e) && Outlives(ks, limits)
    requires Check(ks, p.e, p.ip, p.at, limits, NoFault).1.Rejected?
    ensures var w := Window(p.at, limits.size);
            Spent(Check(ks, p.e, p.ip, p.at, limits, NoFault).0, RateKey(p.e, p.ip, w), limits.max + 1,
                (w + 1) * limits.size)
  {
    ProbeOutlives(ks, p, limits);
    MulMonotone(Window(p.at, limits.size) + 1, Window(p.at, limits.size) + 2, limits.size);
  }

  lemma {:induction false} KeyNeedsProbe(ks: Keyspace, probes: seq<Probe>, e: Endpoint, ip: string, w: nat,
      limits: Limits)
    requires 0 < limits.size && Limited(e) && RateKey(e, ip, w) !in ks
    requires forall i :: 0 <= i < |probes| ==>
               Limited(probes[i].e) && !(probes[i].e == e && probes[i].ip == ip
                   && Window(probes[i].at, limits.size) == w)
    ensures RateKey(e, ip, w) !in Run(ks, probes, limits)
    decreases |probes|
  {
    if probes == [] {
    } else {
      var p := probes[0];
      var v := Window(p.at, limits.size);
      if RateKey(e, ip, w) == RateKey(p.e, p.ip, v) {
        RateKeyInjective(e, ip, w, p.e, p.ip, v);
      }
      KeyNeedsProbe(Check(ks, p.e, p.ip, p.at, limits, NoFault).0, probes[1..], e, ip, w, limits);
    }
  }

  /** The first check of an endpoint and IP in a window is allowed exactly when the limit is at least one. */
  lemma FirstInWindow(history: seq<Probe>, p: Probe, limits: Limits)
    requires 0 < limits.size && Limited(p.e)
    requires forall i :: 0 <= i < |history| ==>
               Limited(history[i].e)
               && !(history[i].e == p.e && history[i].ip == p.ip
                  && Window(history[i].at, limits.size) == Window(p.at, limits.size))
    ensures var verdict := Check(Run(map[], history, limits), p.e, p.ip, p.at, limits, NoFault).1;
            if limits.max >= 1 then verdict == Allowed(limits.max - 1) else verdict.Rejected?
  {
    KeyNeedsProbe(map[], history, p.e, p.ip, Window(p.at, limits.size), limits);
  }

  /** From every keyspace, a rejection announces between 1 and W seconds, and then the next window begins. */
  lemma RejectionDelay(ks: Keyspace, p: Probe, r: nat, limits: Limits, fault: Fault)
    requires 0 < limits.size < 0x4000_0000_0000_0000 && p.at + limits.size < U64
    requires Check(ks, p.e, p.ip, p.at, limits, fault).1 == Rejected(r)
    ensures 1 <= r <= limits.size && p.at + r == (p.at / limits.size + 1) * limits.size
  {
    RetryFits(p.at, limits.size);
  }

  /** The start of the next window parts earlier checks from later ones. */
  lemma RetryTimeOpensNewWindow(p: Probe, later: Probe, earlier: Probe, r: nat, size: nat)
    requires size > 0 && p.at + r == (p.at / size + 1) * size
    requires later.at >= p.at + r && earlier.at < p.at + r
    ensures Window(earlier.at, size) < Window(later.at, size)
  {
    var next := Window(p.at, size) + 1;
    WindowBelow(earlier.at, next, size);
    WindowAbove(later.at, next, size);
  }

  /**
    After a rejection that announced `r` seconds, the first check of the same endpoint and IP
    from then on is allowed exactly when the limit is at least one, whatever others run in between.
  */
  lemma AllowedAfterRetry(before: seq<Probe>, p: Probe, after: seq<Probe>, later: Probe, r: nat, limits: Limits)
    requires 0 < limits.size < 0x4000_0000_0000_0000 && p.at + limits.size < U64
    requires Limited(p.e) && later.e == p.e && later.ip == p.ip && later.at >= p.at + r
    requires Check(Run(map[], before, limits), p.e, p.ip, p.at, limits, NoFault).1 == Rejected(r)
    requires forall q :: q in before + [p] + after ==> Limited(q.e) && (q.e == p.e && q.ip == p.ip ==> q.at < p.at + r)
    ensures var verdict := Check(Run(map[], before + [p] + after, limits), later.e, later.ip, later.at, limits,
            NoFault).1;
            if limits.max >= 1 then verdict == Allowed(limits.max - 1) else verdict.Rejected?
  {
    var history := before + [p] + after;
    RejectionDelay(Run(map[], before, limits), p, r, limits, NoFault);
    forall i | 0 <= i < |history|
      ensures Limited(history[i].e)
      ensures history[i].e == p.e && history[i].ip == p.ip ==>
                Window(history[i].at, limits.size) != Window(later.at, limits.size)
    {
      assert history[i] in history;
      if history[i].e == p.e && history[i].ip == p.ip {
        RetryTimeOpensNewWindow(p, later, history[i], r, limits.size);
      }
    }
    FirstInWindow(history, later, limits);
  }

  // ---- The exact verdict ----

  /** How many checks of this endpoint and IP a history has in this window. */
  function Earlier(history: seq<Probe>, e: Endpoint, ip: string, w: nat, size: nat): nat
    requires size > 0
  {
    if history == [] then 0
    else
      var last := history[|history| - 1];
      Earlier(history[..|history| - 1], e, ip, w, size)
      + if last.e == e && last.ip == ip && Window(last.at, size) == w then 1 else 0
  }

  lemma {:induction false} RunSnoc(ks: Keyspace, probes: seq<Probe>, p: Probe, limits: Limits)
    requires limits.size > 0
    ensures Run(ks, probes + [p], limits) == Check(Run(ks, probes, limits), p.e, p.ip, p.at, limits, NoFault).0
    decreases |probes|
  {
    var all := probes + [p];
    if probes == [] {
      assert all == [p] && all[1..] == [];
    } else {
      assert all[0] == probes[0] && all[1..] == probes[1..] + [p];
      RunSnoc(Check(ks, probes[0].e, probes[0].ip, probes[0].at, limits, NoFault).0, probes[1..], p, limits);
    }
  }

  /** A counter stands at the number of its checks so far, and outlives its window. */
  ghost predicate Stands(ks: Keyspace, key: string, n: nat, until: nat) {
    if n == 0 then key !in ks
    else key in ks && ks[key].value == Counter(n) && ks[key].deadline.Some? && ks[key].deadline.value >= until
  }

  /** One more check of the same window counts one more; others leave the counter alone. */
  lemma CheckCounts(ks: Keyspace, e: Endpoint, ip: string, w: nat, n: nat, p: Probe, limits: Limits)
    requires 0 < limits.size && Ttl(limits.size) == 2 * limits.size && Limited(e) && Limited(p.e)
    requires Stands(ks, RateKey(e, ip, w), n, (w + 2) * limits.size) && n < I64_MAX
    ensures var own := p.e == e && p.ip == ip && Window(p.at, limits.size) == w;
            Stands(Check(ks, p.e, p.ip, p.at, limits, NoFault).0, RateKey(e, ip, w), if own then n + 1 else n,
                   (w + 2) * limits.size)
  {
    var v := Window(p.at, limits.size);
    if RateKey(e, ip, w) == RateKey(p.e, p.ip, v) {
      RateKeyInjective(e, ip, w, p.e, p.ip, v);
      WindowBounds(p.at, limits.size);
      assert (w + 2) * limits.size == w * limits.size + 2 * limits.size;
    }
  }

  lemma {:induction false} CounterStands(history: seq<Probe>, e: Endpoint, ip: string, w: nat, limits: Limits)
    requires 0 < limits.size && Ttl(limits.size) == 2 * limits.size && Limited(e) && |history| <= I64_MAX
    requires forall i :: 0 <= i < |history| ==> Limited(history[i].e)
    ensures Stands(Run(map[], history, limits), RateKey(e, ip, w), Earlier(history, e, ip, w, limits.size),
                   (w + 2) * limits.size)
    ensures Earlier(history, e, ip, w, limits.size) <= |history|
    decreases |history|
  {
    if history == [] {
    } else {
      var n := |history| - 1;
      var before, last := history[..n], history[n];
      assert history == before + [last];
      CounterStands(before, e, ip, w, limits);
      RunSnoc(map[], before, last, limits);
      CheckCounts(Run(map[], before, limits), e, ip, w, Earlier(before, e, ip, w, limits.size), last, limits);
    }
  }

  /**
    After any error-free history, a check that is the `n`th of its endpoint and IP in its window
    is allowed with max - n left, or, past the limit, told the seconds to the next window.
  */
  lemma VerdictExact(history: seq<Probe>, p: Probe, limits: Limits)
    requires 0 < limits.size < 0x4000_0000_0000_0000 && p.at + limits.size < U64 && |history| < I64_MAX
    requires Limited(p.e) && forall i :: 0 <= i < |history| ==> Limited(history[i].e)
    ensures var n := Earlier(history, p.e, p.ip, Window(p.at, limits.size), limits.size) + 1;
            var verdict := Check(Run(map[], history, limits), p.e, p.ip, p.at, limits, NoFault).1;
            if n <= limits.max then verdict == Allowed(limits.max - n)
            else verdict.Rejected? && p.at + verdict.retryAfter == (p.at / limits.size + 1) * limits.size
  {
    var w := Window(p.at, limits.size);
    var ks := Run(map[], history, limits);
    var verdict := Check(ks, p.e, p.ip, p.at, limits, NoFault).1;
    NothingWraps(p.at, limits.size);
    CounterStands(history, p.e, p.ip, w, limits);
    CounterAnswers(ks, p, Earlier(history, p.e, p.ip, w, limits.size), limits);
    if verdict.Rejected? {
      RejectionDelay(ks, p, verdict.retryAfter, limits, NoFault);
    }
  }

  lemma CounterAnswers(ks: Keyspace, p: Probe, n: nat, limits: Limits)
    requires 0 < limits.size && n < I64_MAX
    requires var w := Window(p.at, limits.size); Stands(ks, RateKey(p.e, p.ip, w), n, (w + 2) * limits.size)
    ensures var verdict := Check(ks, p.e, p.ip, p.at, limits, NoFault).1;
            if n + 1 <= limits.max then verdict == Allowed(limits.max - (n + 1)) else verdict.Rejected?
  {
    var w := Window(p.at, limits.size);
    WindowBounds(p.at, limits.size);
    MulMonotone(w + 1, w + 2, limits.size);
    assert Alive(ks, RateKey(p.e, p.ip, w), p.at) <==> n > 0;
  }

  /**
    With Valkey failing before the count is known, or at the first EXPIRE, the request is let
    through with the full limit.
  */
  lemma FailsOpen(ks: Keyspace, p: Probe, limits: Limits, fault: Fault)
    requires 0 < limits.size
    requires fault == BeforeIncr || fault == AfterIncr || Failed(ks, p, limits)
             || (fault == AtExpire && !Alive(ks, RateKey(p.e, p.ip, Window(p.at, limits.size)), p.at))
    ensures Check(ks, p.e, p.ip, p.at, limits, fault).1 == Allowed(limits.max)
  {
  }

  lemma WindowBelow(at: nat, w: nat, size: nat)
    requires size > 0 && at < w * size
    ensures Window(at, size) < w
  {
    WindowBounds(at, size);
    if w <= Window(at, size) {
      MulMonotone(w, Window(at, size), size);
    }
  }

  lemma WindowAbove(at: nat, w: nat, size: nat)
    requires size > 0 && w * size <= at
    ensures w <= Window(at, size)
  {
    WindowBounds(at, size);
    if Window(at, size) < w {
      MulMonotone(Window(at, size) + 1, w, size);
    }
  }
}
