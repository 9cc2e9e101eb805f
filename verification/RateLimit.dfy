/**
 * The fixed-window rate limiter: one Redis counter per caller and window, raised by INCR and given
 * its lifetime by EXPIRE NX in the same round trip.
 */
module RateLimit {
  import opened Base

  /** Requests allowed per window, and the window's length in seconds. */
  datatype Rate = Rate(limit: int, seconds: int) {
    predicate Valid() {
      seconds > 0
    }

    function Length(): int {
      1000 * seconds
    }
  }

  /** `who` is the identity together with the handler. */
  datatype Key = Key(who: string, window: int)

  datatype Counter = Counter(count: nat, expiresAt: int)

  function WindowOf(rate: Rate, now: int): int
    requires rate.Valid()
  {
    now / rate.Length()
  }

  predicate Alive(counters: map<Key, Counter>, key: Key, now: int) {
    key in counters && now < counters[key].expiresAt
  }

  /** INCR, then EXPIRE NX: a key that is gone starts over, one that has a lifetime keeps it. */
  function Increment(counters: map<Key, Counter>, key: Key, now: int, seconds: int): map<Key, Counter> {
    counters[key := if Alive(counters, key, now) then Counter(counters[key].count + 1, counters[key].expiresAt)
                    else Counter(1, now + 1000 * seconds)]
  }

  /** Seconds to wait after a refusal. */
  function RetryAfter(rate: Rate, now: int): int
    requires rate.Valid()
  {
    rate.seconds - (now / 1000) % rate.seconds
  }

  class RateLimiter {
    var counters: map<Key, Counter>

    constructor ()
      ensures counters == map[]
    {
      counters := map[];
    }

    method CanActivate(who: string, rate: Rate, now: int) returns (admitted: bool, remaining: int, retryAfter: Option<int>)
      requires rate.Valid()
      modifies this
      ensures var key := Key(who, WindowOf(rate, now));
              && counters == Increment(old(counters), key, now, rate.seconds)
              && (admitted <==> counters[key].count <= rate.limit)
              && remaining == Max(0, rate.limit - counters[key].count)
              && retryAfter == if admitted then None else Some(RetryAfter(rate, now))
    {
      var key := Key(who, now / (1000 * rate.seconds));
      if !(key in counters && now < counters[key].expiresAt) {
        counters := counters[key := Counter(0, now + 1000 * rate.seconds)];
      }
      counters := counters[key := counters[key].(count := counters[key].count + 1)];
      var current := counters[key].count;
      remaining := Max(0, rate.limit - current);
      admitted := current <= rate.limit;
      retryAfter := if current > rate.limit then Some(RetryAfter(rate, now)) else None;
    }
  }

  /** Waiting as long as a refusal says leads into the next window, and not further. */
  lemma RetryReachesNextWindow(rate: Rate, now: int)
    requires rate.Valid()
    ensures 1 <= RetryAfter(rate, now) <= rate.seconds
    ensures WindowOf(rate, now + 1000 * RetryAfter(rate, now)) == WindowOf(rate, now) + 1
  {
    var s, n := rate.seconds, now / 1000;
    var q, r := n / s, n % s;
    Quotient(now, 1000 * s, q, 1000 * r + now % 1000);
    Quotient(now + 1000 * (s - r), 1000 * s, q + 1, now % 1000);
  }

  lemma Quotient(n: int, d: int, q: int, r: int)
    requires d > 0 && n == d * q + r && 0 <= r < d
    ensures n / d == q
  {
    var p := n / d;
    if p < q {
      Multiples(d, p + 1, q);
    } else if p > q {
      Multiples(d, q + 1, p);
    }
  }

  lemma Multiples(d: int, a: int, b: int)
    requires d > 0 && a <= b
    ensures d * a <= d * b
  {
  }

  // ---- Runs ----

  datatype Arrival = Arrival(who: string, now: int)

  /** Requests in the order Redis serves them, from any number of callers, each with its own rate. */
  function Counters(rates: string -> Rate, arrivals: seq<Arrival>): map<Key, Counter>
    requires forall who :: rates(who).Valid()
  {
    if arrivals == [] then map[]
    else
      var n := |arrivals| - 1;
      var a := arrivals[n];
      Increment(Counters(rates, arrivals[..n]), Key(a.who, WindowOf(rates(a.who), a.now)), a.now, rates(a.who).seconds)
  }

  predicate AdmittedAt(rates: string -> Rate, arrivals: seq<Arrival>, i: nat)
    requires (forall who :: rates(who).Valid()) && i < |arrivals|
  {
    var a := arrivals[i];
    var key := Key(a.who, WindowOf(rates(a.who), a.now));
    var counters := Counters(rates, arrivals[..i + 1]);
    key in counters && counters[key].count <= rates(a.who).limit
  }

  predicate In(rates: string -> Rate, a: Arrival, key: Key)
    requires forall who :: rates(who).Valid()
  {
    a.who == key.who && WindowOf(rates(a.who), a.now) == key.window
  }

  function Arrived(rates: string -> Rate, arrivals: seq<Arrival>, key: Key): nat
    requires forall who :: rates(who).Valid()
  {
    if arrivals == [] then 0
    else Arrived(rates, arrivals[..|arrivals| - 1], key) + if In(rates, arrivals[|arrivals| - 1], key) then 1 else 0
  }

  function Admitted(rates: string -> Rate, arrivals: seq<Arrival>, key: Key): nat
    requires forall who :: rates(who).Valid()
  {
    if arrivals == [] then 0
    else
      var n := |arrivals| - 1;
      Admitted(rates, arrivals[..n], key) + if In(rates, arrivals[n], key) && AdmittedAt(rates, arrivals, n) then 1 else 0
  }

  lemma WindowEnds(rate: Rate, now: int)
    requires rate.Valid()
    ensures rate.Length() * WindowOf(rate, now) <= now < rate.Length() * (WindowOf(rate, now) + 1)
  {
  }

  /** A counter holds every arrival of its window, and lives past the window's end: expiry loses nothing. */
  lemma {:induction false} CountersCount(rates: string -> Rate, arrivals: seq<Arrival>, key: Key)
    requires forall who :: rates(who).Valid()
    ensures var counters := Counters(rates, arrivals);
            && (key in counters <==> Arrived(rates, arrivals, key) > 0)
            && (key in counters ==> counters[key].count == Arrived(rates, arrivals, key) &&
                                    counters[key].expiresAt >= rates(key.who).Length() * (key.window + 1))
  {
    if arrivals != [] {
      var n := |arrivals| - 1;
      var a := arrivals[n];
      CountersCount(rates, arrivals[..n], key);
      WindowEnds(rates(a.who), a.now);
      var l, w := rates(a.who).Length(), WindowOf(rates(a.who), a.now);
      assert l * (w + 1) == l * w + l;
    }
  }

  /** Of the arrivals of one caller in one window exactly the first `limit` are admitted. */
  lemma {:induction false} WindowAdmits(rates: string -> Rate, arrivals: seq<Arrival>, key: Key)
    requires forall who :: rates(who).Valid()
    ensures Admitted(rates, arrivals, key) == Min(Max(0, rates(key.who).limit), Arrived(rates, arrivals, key))
  {
    if arrivals != [] {
      var n := |arrivals| - 1;
      WindowAdmits(rates, arrivals[..n], key);
      CountersCount(rates, arrivals, key);
      assert arrivals[..n + 1] == arrivals;
    }
  }

  /** Admitted requests of one caller from `from` on, for one window's length. */
  function AdmittedFrom(rates: string -> Rate, arrivals: seq<Arrival>, who: string, from: int): nat
    requires forall w :: rates(w).Valid()
  {
    if arrivals == [] then 0
    else
      var n := |arrivals| - 1;
      AdmittedFrom(rates, arrivals[..n], who, from) +
      if arrivals[n].who == who && from <= arrivals[n].now < from + rates(who).Length() && AdmittedAt(rates, arrivals, n) then 1 else 0
  }

  lemma TwoWindows(rate: Rate, from: int, now: int)
    requires rate.Valid() && from <= now < from + rate.Length()
    ensures WindowOf(rate, now) == WindowOf(rate, from) || WindowOf(rate, now) == WindowOf(rate, from) + 1
  {
    var l, v, w := rate.Length(), WindowOf(rate, from), WindowOf(rate, now);
    WindowEnds(rate, from);
    WindowEnds(rate, now);
    assert l * (v + 2) == l * (v + 1) + l;
    if w < v {
      Multiples(l, w + 1, v);
    } else if w > v + 1 {
      Multiples(l, v + 2, w);
    }
  }

  lemma {:induction false} SplitInterval(rates: string -> Rate, arrivals: seq<Arrival>, who: string, from: int)
    requires forall w :: rates(w).Valid()
    ensures var v := WindowOf(rates(who), from);
            AdmittedFrom(rates, arrivals, who, from) <= Admitted(rates, arrivals, Key(who, v)) + Admitted(rates, arrivals, Key(who, v + 1))
  {
    if arrivals != [] {
      var n := |arrivals| - 1;
      SplitInterval(rates, arrivals[..n], who, from);
      if arrivals[n].who == who && from <= arrivals[n].now < from + rates(who).Length() {
        TwoWindows(rates(who), from, arrivals[n].now);
      }
    }
  }

  /** Wherever an interval of one window's length begins, at most twice the limit is admitted in it. */
  lemma IntervalAdmitsTwice(rates: string -> Rate, arrivals: seq<Arrival>, who: string, from: int)
    requires forall w :: rates(w).Valid()
    ensures AdmittedFrom(rates, arrivals, who, from) <= 2 * Max(0, rates(who).limit)
  {
    var v := WindowOf(rates(who), from);
    SplitInterval(rates, arrivals, who, from);
    WindowAdmits(rates, arrivals, Key(who, v));
    WindowAdmits(rates, arrivals, Key(who, v + 1));
  }

  /** `n` requests of one caller at one instant. */
  function Burst(who: string, now: int, n: nat): seq<Arrival> {
    seq(n, _ => Arrival(who, now))
  }

  lemma {:induction false} BurstArrived(rates: string -> Rate, before: seq<Arrival>, who: string, now: int, n: nat, key: Key)
    requires forall w :: rates(w).Valid()
    ensures Arrived(rates, before + Burst(who, now, n), key) ==
            Arrived(rates, before, key) + if In(rates, Arrival(who, now), key) then n else 0
  {
    if n == 0 {
      assert before + Burst(who, now, 0) == before;
    } else {
      BurstArrived(rates, before, who, now, n - 1, key);
      var all := before + Burst(who, now, n);
      assert all[..|all| - 1] == before + Burst(who, now, n - 1);
      assert all[|all| - 1] == Arrival(who, now);
    }
  }

  /** When all arrivals lie in the interval and in two windows, nothing admitted is left out. */
  lemma {:induction false} WholeInterval(rates: string -> Rate, arrivals: seq<Arrival>, who: string, from: int, v: int)
    requires forall w :: rates(w).Valid()
    requires forall i | 0 <= i < |arrivals| ::
               && arrivals[i].who == who && from <= arrivals[i].now < from + rates(who).Length()
               && v <= WindowOf(rates(who), arrivals[i].now) <= v + 1
    ensures AdmittedFrom(rates, arrivals, who, from) ==
            Admitted(rates, arrivals, Key(who, v)) + Admitted(rates, arrivals, Key(who, v + 1))
  {
    if arrivals != [] {
      WholeInterval(rates, arrivals[..|arrivals| - 1], who, from, v);
    }
  }

  /** A full burst in the last millisecond of a window, and another in the first of the next. */
  function TwoBursts(rate: Rate, who: string): seq<Arrival>
    requires rate.Valid() && rate.limit >= 0
  {
    Burst(who, rate.Length() - 1, rate.limit) + Burst(who, rate.Length(), rate.limit)
  }

  lemma BurstWindows(rate: Rate)
    requires rate.Valid()
    ensures WindowOf(rate, rate.Length() - 1) == 0 && WindowOf(rate, rate.Length()) == 1
  {
    Quotient(rate.Length() - 1, rate.Length(), 0, rate.Length() - 1);
    Quotient(rate.Length(), rate.Length(), 1, 0);
  }

  lemma BurstsAdmitted(rates: string -> Rate, who: string, v: int)
    requires (forall w :: rates(w).Valid()) && rates(who).limit >= 0 && 0 <= v <= 1
    ensures Admitted(rates, TwoBursts(rates(who), who), Key(who, v)) == rates(who).limit
  {
    var rate, key := rates(who), Key(who, v);
    var first := Burst(who, rate.Length() - 1, rate.limit);
    assert [] + first == first;
    BurstWindows(rate);
    BurstArrived(rates, [], who, rate.Length() - 1, rate.limit, key);
    BurstArrived(rates, first, who, rate.Length(), rate.limit, key);
    WindowAdmits(rates, TwoBursts(rate, who), key);
  }

  /** The bound is met. */
  lemma TwiceIsReached(rates: string -> Rate, who: string)
    requires (forall w :: rates(w).Valid()) && rates(who).limit >= 0
    ensures AdmittedFrom(rates, TwoBursts(rates(who), who), who, rates(who).Length() - 1) == 2 * rates(who).limit
  {
    BurstsAdmitted(rates, who, 0);
    BurstsAdmitted(rates, who, 1);
    BurstWindows(rates(who));
    WholeInterval(rates, TwoBursts(rates(who), who), who, rates(who).Length() - 1, 0);
  }
}
