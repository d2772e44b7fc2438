/** The Valkey key formats of the limiter and the OAuth stores, and why they never meet. */
module Keys {
  const STATE_PREFIX := "oauth_state:"
  const EXCHANGE_PREFIX := "oauth_exchange:"

  function StateKey(state: string): string {
    STATE_PREFIX + state
  }

  function ExchangeKey(code: string): string {
    EXCHANGE_PREFIX + code
  }

  /** A request's method and path, as the limited routes see them. */
  datatype Endpoint = Endpoint(verb: string, path: string)

  /** The four limited paths; an HTTP method holds no colon. */
  predicate Limited(e: Endpoint) {
    && ':' !in e.verb
    && (e.path == "/auth/login" || e.path == "/auth/register" || e.path == "/auth/refresh" || e.path == "/auth/session")
  }

  function EndpointKey(e: Endpoint): string {
    e.verb + ":" + e.path
  }

  function Digit(d: nat): char
    requires d < 10
  {
    '0' + d as char
  }

  function Decimal(n: nat): string {
    if n < 10 then [Digit(n)] else Decimal(n / 10) + [Digit(n % 10)]
  }

  /** `rl:{endpoint}:{ip}:{window}` */
  function RateKey(e: Endpoint, ip: string, window: nat): string {
    "rl:" + EndpointKey(e) + ":" + ip + ":" + Decimal(window)
  }

  lemma {:induction false} DecimalText(n: nat)
    ensures |Decimal(n)| > 0 && ':' !in Decimal(n)
  {
    if n >= 10 {
      DecimalText(n / 10);
    }
  }

  /** The number a string of decimal digits stands for. */
  function Number(digits: string): nat {
    if digits == "" then 0
    else
      var last := digits[|digits| - 1];
      10 * Number(digits[..|digits| - 1]) + if '0' <= last <= '9' then last as int - '0' as int else 0
  }

  /** A window number reads back from its text. */
  lemma {:induction false} DecimalReadsBack(n: nat)
    ensures Number(Decimal(n)) == n
  {
    var s := Decimal(n);
    assert s[|s| - 1] == Digit(n % 10);
    if n < 10 {
      assert s[..|s| - 1] == "";
    } else {
      assert s[..|s| - 1] == Decimal(n / 10);
      DecimalReadsBack(n / 10);
    }
  }

  lemma DecimalInjective(m: nat, n: nat)
    requires Decimal(m) == Decimal(n)
    ensures m == n
  {
    DecimalReadsBack(m);
    DecimalReadsBack(n);
  }

  /** A colon-free head is determined by the text it is followed by. */
  lemma {:induction false} HeadInjective(a: string, x: string, b: string, y: string)
    requires ':' !in a && ':' !in b && a + ":" + x == b + ":" + y
    ensures a == b && x == y
  {
    if a == [] || b == [] {
      assert (a + ":" + x)[0] == (b + ":" + y)[0];
      assert a == b;
      assert x == (a + ":" + x)[1..] && y == (b + ":" + y)[1..];
    } else {
      assert (a + ":" + x)[0] == a[0] && (b + ":" + y)[0] == b[0];
      assert (a + ":" + x)[1..] == a[1..] + ":" + x && (b + ":" + y)[1..] == b[1..] + ":" + y;
      HeadInjective(a[1..], x, b[1..], y);
    }
  }

  /** A colon-free tail is determined too, however many colons come before it. */
  lemma {:induction false} TailInjective(x: string, a: string, y: string, b: string)
    requires ':' !in a && ':' !in b && x + ":" + a == y + ":" + b
    ensures a == b && x == y
  {
    var s, t := x + ":" + a, y + ":" + b;
    if a == [] || b == [] {
      assert s[|s| - 1] == t[|t| - 1];
      assert a == b;
      assert x == s[..|s| - 1] && y == t[..|t| - 1];
    } else {
      assert s[|s| - 1] == a[|a| - 1] && t[|t| - 1] == b[|b| - 1];
      assert s[..|s| - 1] == x + ":" + a[..|a| - 1] && t[..|t| - 1] == y + ":" + b[..|b| - 1];
      TailInjective(x, a[..|a| - 1], y, b[..|b| - 1]);
    }
  }

  lemma EndpointInjective(e: Endpoint, ip: string, f: Endpoint, iq: string)
    requires Limited(e) && Limited(f) && EndpointKey(e) + ":" + ip == EndpointKey(f) + ":" + iq
    ensures e == f && ip == iq
  {
    var ex, fy := e.path + ":" + ip, f.path + ":" + iq;
    assert EndpointKey(e) + ":" + ip == e.verb + ":" + ex && EndpointKey(f) + ":" + iq == f.verb + ":" + fy;
    HeadInjective(e.verb, ex, f.verb, fy);
    assert ':' !in e.path && ':' !in f.path;
    HeadInjective(e.path, ip, f.path, iq);
  }

  lemma RateKeyInjective(e: Endpoint, ip: string, window: nat, f: Endpoint, iq: string, wq: nat)
    requires Limited(e) && Limited(f) && RateKey(e, ip, window) == RateKey(f, iq, wq)
    ensures e == f && ip == iq && window == wq
  {
    DecimalText(window);
    DecimalText(wq);
    var x, y := EndpointKey(e) + ":" + ip, EndpointKey(f) + ":" + iq;
    assert RateKey(e, ip, window) == "rl:" + x + ":" + Decimal(window)
        && RateKey(f, iq, wq) == "rl:" + y + ":" + Decimal(wq);
    TailInjective("rl:" + x, Decimal(window), "rl:" + y, Decimal(wq));
    DecimalInjective(window, wq);
    assert x == ("rl:" + x)[3..] && y == ("rl:" + y)[3..];
    EndpointInjective(e, ip, f, iq);
  }

  lemma StoreKeysInjective(a: string, b: string)
    ensures StateKey(a) == StateKey(b) <==> a == b
    ensures ExchangeKey(a) == ExchangeKey(b) <==> a == b
  {
    assert a == StateKey(a)[|STATE_PREFIX|..] && b == StateKey(b)[|STATE_PREFIX|..];
    assert a == ExchangeKey(a)[|EXCHANGE_PREFIX|..] && b == ExchangeKey(b)[|EXCHANGE_PREFIX|..];
  }

  /** Limiter, state and exchange keys are pairwise different, for any state, code, endpoint text, IP and window. */
  lemma KeysDisjoint(state: string, code: string, e: Endpoint, ip: string, window: nat)
    ensures StateKey(state) != ExchangeKey(code)
    ensures StateKey(state) != RateKey(e, ip, window)
    ensures ExchangeKey(code) != RateKey(e, ip, window)
  {
    assert StateKey(state)[0] == 'o' && ExchangeKey(code)[0] == 'o' && RateKey(e, ip, window)[0] == 'r';
    assert StateKey(state)[6] == 's' && ExchangeKey(code)[6] == 'e';
  }
}
