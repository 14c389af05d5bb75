/** Arrivals counted in fixed windows that start with the first arrival after the previous one has run out. */
module FixedWindow {

  /** How many of the times are at or after `a`. */
  function Since(times: seq<int>, a: int): nat {
    if times == [] then 0
    else Since(times[..|times| - 1], a) + if times[|times| - 1] >= a then 1 else 0
  }

  /** How many of the times lie in [a, b). */
  function CountIn(times: seq<int>, a: int, b: int): nat {
    if times == [] then 0
    else CountIn(times[..|times| - 1], a, b) + if a <= times[|times| - 1] < b then 1 else 0
  }

  lemma {:induction false} CountIsDifference(times: seq<int>, a: int, b: int)
    requires a <= b
    ensures CountIn(times, a, b) == Since(times, a) - Since(times, b)
  {
    if times != [] {
      CountIsDifference(times[..|times| - 1], a, b);
    }
  }

  lemma {:induction false} SinceAntitone(times: seq<int>, a: int, b: int)
    requires a <= b
    ensures Since(times, b) <= Since(times, a)
  {
    if times != [] {
      SinceAntitone(times[..|times| - 1], a, b);
    }
  }

  lemma {:induction false} SinceNothing(times: seq<int>, a: int)
    requires forall i | 0 <= i < |times| :: times[i] < a
    ensures Since(times, a) == 0
  {
    if times != [] {
      SinceNothing(times[..|times| - 1], a);
    }
  }

  lemma {:induction false} SinceNext(times: seq<int>, t: int, a: int)
    ensures Since(times + [t], a) == Since(times, a) + if t >= a then 1 else 0
  {
  }

  /** The arrivals within one window length from `a`. */
  function Burst(times: seq<int>, a: int, ttl: nat): int {
    Since(times, a) - Since(times, a + ttl)
  }

  /** The same with the last instant included. */
  function ClosedBurst(times: seq<int>, a: int, ttl: nat): int {
    Since(times, a) - Since(times, a + ttl + 1)
  }

  /** A window that began at `start` and has counted `count` arrivals. */
  datatype Window = Window(start: int, count: nat)

  /** The current window counts exactly what came since it began, starting with the arrival that began it. */
  ghost predicate Counts(times: seq<int>, w: Window) {
    && 1 <= w.count == Since(times, w.start)
    && (forall a | a > w.start :: Since(times, a) < w.count)
  }

  /** A stretch shorter than a window that ends where the current one begins has missed an arrival of the one before. */
  ghost predicate Leftover(limit: nat, ttl: nat, times: seq<int>, w: Window) {
    && (forall a | w.start - ttl < a <= w.start :: Since(times, a) < w.count + limit)
    && Since(times, w.start - ttl) <= w.count + limit
  }

  ghost predicate Bounded(limit: nat, ttl: nat, times: seq<int>) {
    forall a :: Burst(times, a, ttl) < 2 * limit && ClosedBurst(times, a, ttl) <= 2 * limit
  }

  ghost predicate Fits(limit: nat, ttl: nat, times: seq<int>, w: Window) {
    && Counts(times, w) && w.count <= limit && Leftover(limit, ttl, times, w) && Bounded(limit, ttl, times)
    && forall i | 0 <= i < |times| :: times[i] < w.start + ttl
  }

  /** The first window ever. */
  lemma {:induction false} FirstWindow(limit: nat, ttl: nat, t: int)
    requires limit > 0 && ttl > 0
    ensures Fits(limit, ttl, [t], Window(t, 1))
  {
    forall a ensures Since([t], a) == if t >= a then 1 else 0 { SinceNext([], t, a); assert [] + [t] == [t]; }
  }

  /** Another arrival in the current window. */
  lemma {:induction false} SameWindow(limit: nat, ttl: nat, times: seq<int>, w: Window, t: int)
    requires Fits(limit, ttl, times, w) && w.start <= t < w.start + ttl && w.count < limit
    requires forall i | 0 <= i < |times| :: times[i] <= t
    ensures Fits(limit, ttl, times + [t], w.(count := w.count + 1))
  {
    var times', w' := times + [t], w.(count := w.count + 1);
    forall a ensures Since(times', a) == Since(times, a) + if t >= a then 1 else 0 { SinceNext(times, t, a); }
    forall a ensures Burst(times', a, ttl) < 2 * limit && ClosedBurst(times', a, ttl) <= 2 * limit {
      assert Burst(times, a, ttl) < 2 * limit && ClosedBurst(times, a, ttl) <= 2 * limit;
      if a <= t <= a + ttl {
        SinceNothing(times, a + ttl + 1);
        if t < a + ttl {
          SinceNothing(times, a + ttl);
        }
        if a <= w.start {
          assert a == w.start - ttl || Since(times, a) < w.count + limit;
        } else {
          assert Since(times, a) < w.count;
        }
      }
    }
  }

  /** An arrival after the current window has run out begins a new one. */
  lemma {:induction false} NextWindow(limit: nat, ttl: nat, times: seq<int>, w: Window, t: int)
    requires Fits(limit, ttl, times, w) && t >= w.start + ttl && ttl > 0
    requires forall i | 0 <= i < |times| :: times[i] <= t
    ensures Fits(limit, ttl, times + [t], Window(t, 1))
  {
    var times', w' := times + [t], Window(t, 1);
    forall a ensures Since(times', a) == Since(times, a) + if t >= a then 1 else 0 { SinceNext(times, t, a); }
    SinceNothing(times, t);
    forall a | a > t ensures Since(times', a) < 1 { SinceNothing(times, a); }
    forall a | t - ttl < a <= t ensures Since(times', a) < 1 + limit { assert Since(times, a) < w.count; }
    SinceAntitone(times, w.start, t - ttl);
    forall a ensures Burst(times', a, ttl) < 2 * limit && ClosedBurst(times', a, ttl) <= 2 * limit {
      assert Burst(times, a, ttl) < 2 * limit && ClosedBurst(times, a, ttl) <= 2 * limit;
      if a <= t <= a + ttl {
        assert a == t - ttl || Since(times, a) < w.count;
      }
    }
  }
}

/** The authentication limiter: two counters in Redis, checked and raised by one script. */
module RateLimiter {
  import opened Outcomes
  import opened FixedWindow

  datatype Bucket = Challenge | Verify

  /** AUTH_RATE_LIMIT_TTL_SECONDS; times are in milliseconds. */
  const TTL: nat := 60

  function Millis(seconds: nat): nat {
    1000 * seconds
  }

  function Name(b: Bucket): string {
    if b.Challenge? then "challenge" else "verify"
  }

  function PerIp(b: Bucket): nat {
    if b.Challenge? then 20 else 10
  }

  function Global(b: Bucket): nat {
    if b.Challenge? then 300 else 150
  }

  function Prefix(b: Bucket): string {
    "auth-rate-limit:{" + Name(b) + "}:"
  }

  function IpKey(b: Bucket, ip: string): string {
    Prefix(b) + "ip:" + ip
  }

  function GlobalKey(b: Bucket): string {
    Prefix(b) + "global"
  }

  // ---- Redis ----

  /** A counter and the time at which it expires, if one was set. */
  datatype Counter = Counter(count: nat, expiry: Option<int>)

  type Store = map<string, Counter>

  predicate Live(store: Store, key: string, now: int) {
    key in store && (store[key].expiry.Some? ==> now < store[key].expiry.value)
  }

  /** GET, or 0. */
  function Get(store: Store, key: string, now: int): nat {
    if Live(store, key, now) then store[key].count else 0
  }

  /** INCR keeps the expiry of a live key and creates a missing one without. */
  function Incr(store: Store, key: string, now: int): Store {
    store[key := if Live(store, key, now) then store[key].(count := store[key].count + 1) else Counter(1, None)]
  }

  function Expire(store: Store, key: string, at: int): Store {
    if key in store then store[key := store[key].(expiry := Some(at))] else store
  }

  /** Raising one counter, and dating it if it is new. */
  function Raise(store: Store, key: string, now: int, ttl: nat): Store {
    var s1 := Incr(store, key, now);
    if s1[key].count == 1 then Expire(s1, key, now + Millis(ttl)) else s1
  }

  predicate Permits(store: Store, ipKey: string, globalKey: string, ipLimit: nat, globalLimit: nat, now: int) {
    Get(store, ipKey, now) < ipLimit && Get(store, globalKey, now) < globalLimit
  }

  class Redis {
    var store: Store

    method Increment(key: string, now: int) returns (count: nat)
      modifies this
      ensures store == Incr(old(store), key, now) && key in store && count == store[key].count
    {
      store := Incr(store, key, now);
      count := store[key].count;
    }

    /** AUTH_RATE_LIMIT_LUA, which Redis runs without interleaving. */
    method Eval(ipKey: string, globalKey: string, ipLimit: nat, globalLimit: nat, ttl: nat, now: int) returns (r: int)
      requires ipKey != globalKey
      modifies this
      ensures r == if Permits(old(store), ipKey, globalKey, ipLimit, globalLimit, now) then 1 else 0
      ensures r == 0 ==> store == old(store)
      ensures r == 1 ==> store == Raise(Raise(old(store), ipKey, now, ttl), globalKey, now, ttl)
    {
      var ipCount := Get(store, ipKey, now);
      var globalCount := Get(store, globalKey, now);
      if ipCount >= ipLimit || globalCount >= globalLimit {
        return 0;
      }
      ipCount := Increment(ipKey, now);
      globalCount := Increment(globalKey, now);
      if ipCount == 1 {
        store := Expire(store, ipKey, now + Millis(ttl));
      }
      if globalCount == 1 {
        store := Expire(store, globalKey, now + Millis(ttl));
      }
      RaiseCommutes(old(store), ipKey, globalKey, now, ttl);
      return 1;
    }
  }

  /** The script increments both keys before it dates either; for different keys the order is immaterial. */
  lemma {:induction false} RaiseCommutes(store: Store, k1: string, k2: string, now: int, ttl: nat)
    requires k1 != k2
    ensures var both := Incr(Incr(store, k1, now), k2, now);
            var dated := if both[k1].count == 1 then Expire(both, k1, now + Millis(ttl)) else both;
            Raise(Raise(store, k1, now, ttl), k2, now, ttl)
            == if dated[k2].count == 1 then Expire(dated, k2, now + Millis(ttl)) else dated
  {
  }

  // ---- Keys ----

  lemma {:induction false} PrefixesDiffer(b: Bucket)
    ensures |Prefix(b)| > 18 && Prefix(b)[17] == if b.Challenge? then 'c' else 'v'
  {
  }

  /** No counter is shared: keys tell buckets, addresses and the two kinds apart. */
  lemma {:induction false} KeysAreDistinct(b: Bucket, ip: string, b': Bucket, ip': string)
    ensures IpKey(b, ip) == IpKey(b', ip') ==> b == b' && ip == ip'
    ensures IpKey(b, ip) != GlobalKey(b')
    ensures GlobalKey(b) == GlobalKey(b') ==> b == b'
  {
    PrefixesDiffer(b);
    PrefixesDiffer(b');
    assert IpKey(b, ip)[17] == Prefix(b)[17] && IpKey(b', ip')[17] == Prefix(b')[17];
    assert GlobalKey(b)[17] == Prefix(b)[17] && GlobalKey(b')[17] == Prefix(b')[17];
    if b == b' {
      var n := |Prefix(b)|;
      assert IpKey(b, ip)[n] == 'i' && GlobalKey(b)[n] == 'g';
      assert IpKey(b, ip)[n + 3..] == ip && IpKey(b', ip')[n + 3..] == ip';
    }
  }

  // ---- Requests ----

  /** Redis may be unreachable, or its reply may be lost after the script ran. */
  datatype Fault = NoFault | NotRun | ReplyLost

  datatype Request = Request(bucket: Bucket, ip: string, time: int, fault: Fault)

  /** A request the script counted. */
  datatype Admission = Admission(bucket: Bucket, ip: string, time: int)

  datatype State = State(store: Store, log: seq<Admission>)

  datatype Status = Passed | TooMany | Unavailable

  predicate Allows(s: State, r: Request) {
    Permits(s.store, IpKey(r.bucket, r.ip), GlobalKey(r.bucket), PerIp(r.bucket), Global(r.bucket), r.time)
  }

  /** checkAuthRateLimit: the status is 429 or 503 unless the script answers 1. */
  function Check(s: State, r: Request): (State, Status) {
    if r.fault.NotRun? then (s, Unavailable)
    else if !Allows(s, r) then (s, if r.fault.NoFault? then TooMany else Unavailable)
    else
      var once := Raise(s.store, IpKey(r.bucket, r.ip), r.time, TTL);
      (State(Raise(once, GlobalKey(r.bucket), r.time, TTL), s.log + [Admission(r.bucket, r.ip, r.time)]),
       if r.fault.NoFault? then Passed else Unavailable)
  }

  function After(requests: seq<Request>): State {
    if requests == [] then State(map[], []) else Check(After(requests[..|requests| - 1]), requests[|requests| - 1]).0
  }

  /** Redis runs scripts one at a time, on its own clock. */
  predicate Ordered(requests: seq<Request>) {
    forall i, j | 0 <= i <= j < |requests| :: requests[i].time <= requests[j].time
  }

  predicate Touches(a: Admission, key: string) {
    key == IpKey(a.bucket, a.ip) || key == GlobalKey(a.bucket)
  }

  /** When the counter behind a key was raised. */
  function Times(log: seq<Admission>, key: string): seq<int> {
    if log == [] then []
    else Times(log[..|log| - 1], key) + if Touches(log[|log| - 1], key) then [log[|log| - 1].time] else []
  }

  // ---- One key ----

  /** The stored counter is a dated window over exactly the arrivals that raised it. */
  ghost predicate KeyFits(store: Store, key: string, limit: nat, times: seq<int>) {
    if key !in store then times == []
    else
      var c := store[key];
      c.expiry.Some? && Fits(limit, Millis(TTL), times, Window(c.expiry.value - Millis(TTL), c.count))
  }

  ghost predicate UpTo(times: seq<int>, now: int) {
    forall i | 0 <= i < |times| :: times[i] <= now
  }

  lemma {:induction false} RaiseFits(store: Store, key: string, limit: nat, times: seq<int>, now: int)
    requires KeyFits(store, key, limit, times) && UpTo(times, now) && Get(store, key, now) < limit
    ensures KeyFits(Raise(store, key, now, TTL), key, limit, times + [now])
  {
    if key !in store {
      FirstWindow(limit, Millis(TTL), now);
      assert times + [now] == [now];
    } else {
      var w := Window(store[key].expiry.value - Millis(TTL), store[key].count);
      if now < w.start {
        SinceNothing(times, w.start);
      }
      if Live(store, key, now) {
        SameWindow(limit, Millis(TTL), times, w, now);
      } else {
        NextWindow(limit, Millis(TTL), times, w, now);
      }
    }
  }

  // ---- All keys ----

  ghost predicate Inv(s: State, now: int) {
    && (forall b :: KeyFits(s.store, GlobalKey(b), Global(b), Times(s.log, GlobalKey(b))))
    && (forall b, ip :: KeyFits(s.store, IpKey(b, ip), PerIp(b), Times(s.log, IpKey(b, ip))))
    && (forall i | 0 <= i < |s.log| :: s.log[i].time <= now)
  }

  lemma {:induction false} TimesUpTo(log: seq<Admission>, key: string, now: int)
    requires forall i | 0 <= i < |log| :: log[i].time <= now
    ensures UpTo(Times(log, key), now)
  {
    if log != [] {
      TimesUpTo(log[..|log| - 1], key, now);
    }
  }

  lemma {:induction false} TimesNext(log: seq<Admission>, a: Admission, key: string)
    ensures Times(log + [a], key) == Times(log, key) + if Touches(a, key) then [a.time] else []
  {
  }

  lemma {:induction false} Admits(s: State, r: Request)
    requires !r.fault.NotRun? && Allows(s, r)
    ensures var s' := Check(s, r).0;
            && s'.store == Raise(Raise(s.store, IpKey(r.bucket, r.ip), r.time, TTL), GlobalKey(r.bucket), r.time, TTL)
            && s'.log == s.log + [Admission(r.bucket, r.ip, r.time)]
    ensures Permits(s.store, IpKey(r.bucket, r.ip), GlobalKey(r.bucket), PerIp(r.bucket), Global(r.bucket), r.time)
  {
  }

  /** What an admitted request does to one key. */
  lemma {:induction false} AdmitKey(s: State, r: Request, key: string, limit: nat)
    requires !r.fault.NotRun? && Allows(s, r) && (forall i | 0 <= i < |s.log| :: s.log[i].time <= r.time)
    requires KeyFits(s.store, key, limit, Times(s.log, key))
    requires key == IpKey(r.bucket, r.ip) ==> limit == PerIp(r.bucket)
    requires key == GlobalKey(r.bucket) ==> limit == Global(r.bucket)
    ensures var s' := Check(s, r).0; KeyFits(s'.store, key, limit, Times(s'.log, key))
  {
    Admits(s, r);
    TimesUpTo(s.log, key, r.time);
    KeysAreDistinct(r.bucket, r.ip, r.bucket, r.ip);
    AdmitOne(s.store, IpKey(r.bucket, r.ip), GlobalKey(r.bucket), PerIp(r.bucket), Global(r.bucket), s.log,
             Admission(r.bucket, r.ip, r.time), key, limit);
  }

  lemma {:induction false} AdmitOne(store: Store, ipKey: string, globalKey: string, ipLimit: nat, globalLimit: nat,
                                    log: seq<Admission>, a: Admission, key: string, limit: nat)
    requires ipKey == IpKey(a.bucket, a.ip) && globalKey == GlobalKey(a.bucket) && ipKey != globalKey
    requires Permits(store, ipKey, globalKey, ipLimit, globalLimit, a.time)
    requires KeyFits(store, key, limit, Times(log, key)) && UpTo(Times(log, key), a.time)
    requires (key == ipKey ==> limit == ipLimit) && (key == globalKey ==> limit == globalLimit)
    ensures KeyFits(Raise(Raise(store, ipKey, a.time, TTL), globalKey, a.time, TTL), key, limit, Times(log + [a], key))
  {
    var times := Times(log, key);
    TimesNext(log, a, key);
    AdmitStore(store, ipKey, globalKey, ipLimit, globalLimit, a.time, key, limit, times);
    assert times + [] == times;
  }

  lemma {:induction false} AdmitStore(store: Store, ipKey: string, globalKey: string, ipLimit: nat, globalLimit: nat, now: int,
                                      key: string, limit: nat, times: seq<int>)
    requires ipKey != globalKey && Permits(store, ipKey, globalKey, ipLimit, globalLimit, now)
    requires KeyFits(store, key, limit, times) && UpTo(times, now)
    requires (key == ipKey ==> limit == ipLimit) && (key == globalKey ==> limit == globalLimit)
    ensures var store' := Raise(Raise(store, ipKey, now, TTL), globalKey, now, TTL);
            KeyFits(store', key, limit, if key == ipKey || key == globalKey then times + [now] else times)
  {
    RaiseOthers(store, ipKey, globalKey, key, now);
    if key == ipKey || key == globalKey {
      RaiseFits(store, key, limit, times, now);
    }
  }

  lemma {:induction false} RaiseOthers(store: Store, k1: string, k2: string, key: string, now: int)
    requires k1 != k2
    ensures var s' := Raise(Raise(store, k1, now, TTL), k2, now, TTL);
            var only := if key == k1 || key == k2 then Raise(store, key, now, TTL) else store;
            (key in s' <==> key in only) && (key in s' ==> s'[key] == only[key])
  {
  }

  lemma {:induction false} CheckKeeps(s: State, r: Request, before: int)
    requires Inv(s, before) && before <= r.time
    ensures Inv(Check(s, r).0, r.time)
  {
    if !r.fault.NotRun? && Allows(s, r) {
      var s' := Check(s, r).0;
      forall b ensures KeyFits(s'.store, GlobalKey(b), Global(b), Times(s'.log, GlobalKey(b))) {
        KeysAreDistinct(r.bucket, r.ip, b, "");
        KeysAreDistinct(b, "", r.bucket, r.ip);
        AdmitKey(s, r, GlobalKey(b), Global(b));
      }
      forall b, ip ensures KeyFits(s'.store, IpKey(b, ip), PerIp(b), Times(s'.log, IpKey(b, ip))) {
        KeysAreDistinct(b, ip, r.bucket, r.ip);
        AdmitKey(s, r, IpKey(b, ip), PerIp(b));
      }
    }
  }

  lemma {:induction false} RunsKeepInv(requests: seq<Request>, now: int)
    requires Ordered(requests) && (requests != [] ==> requests[|requests| - 1].time <= now)
    ensures Inv(After(requests), now)
  {
    if requests != [] {
      var n := |requests| - 1;
      RunsKeepInv(requests[..n], requests[n].time);
      CheckKeeps(After(requests[..n]), requests[n], requests[n].time);
    }
  }

  // ---- What the limiter guarantees ----

  function LastTime(requests: seq<Request>): int {
    if requests == [] then 0 else requests[|requests| - 1].time
  }

  /** The admission is to this bucket and, if an address is given, from it. */
  predicate Counts(a: Admission, b: Bucket, ip: Option<string>) {
    a.bucket == b && (ip.Some? ==> a.ip == ip.value)
  }

  /** Admissions to a bucket with a time in [from, to), of one address or of all. */
  function Admitted(log: seq<Admission>, b: Bucket, ip: Option<string>, from: int, to: int): nat {
    if log == [] then 0
    else
      var a := log[|log| - 1];
      Admitted(log[..|log| - 1], b, ip, from, to) + if Counts(a, b, ip) && from <= a.time < to then 1 else 0
  }

  function KeyOf(b: Bucket, ip: Option<string>): string {
    if ip.Some? then IpKey(b, ip.value) else GlobalKey(b)
  }

  lemma {:induction false} TouchesIts(b: Bucket, ip: Option<string>, a: Admission)
    ensures Touches(a, KeyOf(b, ip)) <==> Counts(a, b, ip)
  {
    KeysAreDistinct(b, if ip.Some? then ip.value else "", a.bucket, a.ip);
    KeysAreDistinct(a.bucket, a.ip, b, "");
  }

  lemma {:induction false} CountNext(times: seq<int>, t: int, from: int, to: int)
    ensures CountIn(times + [t], from, to) == CountIn(times, from, to) + if from <= t < to then 1 else 0
  {
    assert (times + [t])[..|times|] == times;
  }

  lemma {:induction false} TimesOf(log: seq<Admission>, key: string, b: Bucket, ip: Option<string>, from: int, to: int)
    requires forall i | 0 <= i < |log| :: Touches(log[i], key) == Counts(log[i], b, ip)
    ensures CountIn(Times(log, key), from, to) == Admitted(log, b, ip, from, to)
  {
    if log != [] {
      var n := |log| - 1;
      var before := Times(log[..n], key);
      TimesOf(log[..n], key, b, ip, from, to);
      CountNext(before, log[n].time, from, to);
      assert Touches(log[n], key) == Counts(log[n], b, ip);
      assert before + [] == before;
    }
  }

  /** A key's times are those of the admissions that count towards it. */
  lemma {:induction false} TimesAreAdmissions(log: seq<Admission>, b: Bucket, ip: Option<string>, from: int, to: int)
    ensures CountIn(Times(log, KeyOf(b, ip)), from, to) == Admitted(log, b, ip, from, to)
  {
    forall i | 0 <= i < |log| ensures Touches(log[i], KeyOf(b, ip)) == Counts(log[i], b, ip) { TouchesIts(b, ip, log[i]); }
    TimesOf(log, KeyOf(b, ip), b, ip, from, to);
  }

  /**
   * In any minute fewer than twice the limit are admitted, for one address and in all; with both ends of the minute
   * included at most twice the limit.
   */
  lemma {:induction false} AdmittedInAnyMinute(requests: seq<Request>, b: Bucket, ip: Option<string>, a: int)
    requires Ordered(requests)
    ensures var limit := if b.Challenge? then (if ip.Some? then 20 else 300) else (if ip.Some? then 10 else 150);
            && Admitted(After(requests).log, b, ip, a, a + 60_000) < 2 * limit
            && Admitted(After(requests).log, b, ip, a, a + 60_001) <= 2 * limit
  {
    var s := After(requests);
    RunsKeepInv(requests, LastTime(requests));
    TimesAreAdmissions(s.log, b, ip, a, a + 60_000);
    TimesAreAdmissions(s.log, b, ip, a, a + 60_001);
    if ip.Some? {
      KeyBound(s.store, IpKey(b, ip.value), PerIp(b), Times(s.log, IpKey(b, ip.value)), a);
    } else {
      KeyBound(s.store, GlobalKey(b), Global(b), Times(s.log, GlobalKey(b)), a);
    }
  }

  lemma {:induction false} KeyBound(store: Store, key: string, limit: nat, times: seq<int>, a: int)
    requires KeyFits(store, key, limit, times) && limit > 0
    ensures CountIn(times, a, a + 60_000) < 2 * limit && CountIn(times, a, a + 60_001) <= 2 * limit
  {
    CountIsDifference(times, a, a + 60_000);
    CountIsDifference(times, a, a + 60_001);
    if key in store {
      assert Burst(times, a, Millis(TTL)) < 2 * limit && ClosedBurst(times, a, Millis(TTL)) <= 2 * limit;
    }
  }

  /** Counters never exceed their limits, and each has an expiry at most one window ahead. */
  lemma {:induction false} CountersStayWithinLimits(requests: seq<Request>, b: Bucket, ip: string)
    requires Ordered(requests)
    ensures var store := After(requests).store;
            && (IpKey(b, ip) in store ==> 1 <= store[IpKey(b, ip)].count <= PerIp(b) && store[IpKey(b, ip)].expiry.Some?)
            && (GlobalKey(b) in store ==> 1 <= store[GlobalKey(b)].count <= Global(b) && store[GlobalKey(b)].expiry.Some?)
  {
    RunsKeepInv(requests, LastTime(requests));
    var s := After(requests);
    assert KeyFits(s.store, IpKey(b, ip), PerIp(b), Times(s.log, IpKey(b, ip)));
    assert KeyFits(s.store, GlobalKey(b), Global(b), Times(s.log, GlobalKey(b)));
  }

  /** 200 exactly for a request that is counted and told so, 429 exactly for one that is refused, 503 if Redis does not answer. */
  lemma {:induction false} StatusIs(s: State, r: Request)
    ensures var (s', status) := Check(s, r);
            && (status == Passed <==> r.fault.NoFault? && s'.log == s.log + [Admission(r.bucket, r.ip, r.time)])
            && (status == TooMany <==> r.fault.NoFault? && s' == s)
            && (status == Unavailable <==> !r.fault.NoFault?) && (r.fault.NotRun? ==> s' == s)
  {
  }

  lemma {:induction false} SameFrom(x: seq<Request>, y: seq<Request>, more: seq<Request>)
    requires After(x) == After(y)
    ensures After(x + more) == After(y + more)
  {
    if more == [] {
      assert x + more == x && y + more == y;
    } else {
      var n := |more| - 1;
      SameFrom(x, y, more[..n]);
      assert x + more == (x + more[..n]) + [more[n]] && y + more == (y + more[..n]) + [more[n]];
      AfterNext(x + more[..n], more[n]);
      AfterNext(y + more[..n], more[n]);
    }
  }

  /** A refused request leaves no trace: whatever comes later, the run is as if it had not been made. */
  lemma {:induction false} RefusedLeavesNoTrace(before: seq<Request>, r: Request, more: seq<Request>)
    requires Check(After(before), r).1.TooMany? || r.fault.NotRun?
    ensures After(before + [r] + more) == After(before + more)
  {
    StatusIs(After(before), r);
    AfterNext(before, r);
    SameFrom(before + [r], before, more);
  }

  // ---- The bound is reached ----

  predicate Both(store: Store, k1: string, k2: string, c: Counter) {
    k1 in store && k2 in store && store[k1] == c && store[k2] == c
  }

  predicate Holds(s: State, r: Request, count: nat, expiry: int) {
    Both(s.store, IpKey(r.bucket, r.ip), GlobalKey(r.bucket), Counter(count, Some(expiry)))
  }

  lemma {:induction false} RaisedLive(store: Store, k1: string, k2: string, count: nat, expiry: int, now: int)
    requires k1 != k2 && Both(store, k1, k2, Counter(count, Some(expiry))) && now < expiry && count > 0
    ensures Both(Raise(Raise(store, k1, now, TTL), k2, now, TTL), k1, k2, Counter(count + 1, Some(expiry)))
  {
  }

  lemma {:induction false} RaisedNew(store: Store, k1: string, k2: string, now: int)
    requires k1 != k2 && !Live(store, k1, now) && !Live(store, k2, now)
    ensures Both(Raise(Raise(store, k1, now, TTL), k2, now, TTL), k1, k2, Counter(1, Some(now + 60_000)))
  {
  }

  lemma {:induction false} HeldAllows(s: State, r: Request, count: nat, expiry: int)
    requires Holds(s, r, count, expiry) && r.time < expiry && count < PerIp(r.bucket)
    ensures Allows(s, r)
  {
  }

  function Repeat(r: Request, k: nat): seq<Request> {
    if k == 0 then [] else Repeat(r, k - 1) + [r]
  }

  /** The limiter after the same request has come k times. */
  function Again(s: State, r: Request, k: nat): State {
    if k == 0 then s else Check(Again(s, r, k - 1), r).0
  }

  lemma {:induction false} AfterNext(requests: seq<Request>, r: Request)
    ensures After(requests + [r]) == Check(After(requests), r).0
  {
  }

  lemma {:induction false} AfterRepeat(requests: seq<Request>, r: Request, k: nat)
    ensures After(requests + Repeat(r, k)) == Again(After(requests), r, k)
  {
    if k == 0 {
      assert requests + [] == requests;
    } else {
      AfterRepeat(requests, r, k - 1);
      assert requests + Repeat(r, k) == (requests + Repeat(r, k - 1)) + [r];
      AfterNext(requests + Repeat(r, k - 1), r);
    }
  }

  function Seen(log: seq<Admission>, r: Request): nat {
    Admitted(log, r.bucket, Some(r.ip), 1, 60_001)
  }

  lemma {:induction false} SeenNext(log: seq<Admission>, r: Request)
    ensures Seen(log + [Admission(r.bucket, r.ip, r.time)], r) == Seen(log, r) + if 1 <= r.time < 60_001 then 1 else 0
  {
  }

  /** One more request in a window that has room. */
  lemma {:induction false} OneMore(s: State, r: Request, count: nat, expiry: int)
    requires r.fault.NoFault? && Holds(s, r, count, expiry) && 1 <= r.time < expiry && r.time < 60_001 && count > 0
    requires count < PerIp(r.bucket)
    ensures Holds(Check(s, r).0, r, count + 1, expiry) && Seen(Check(s, r).0.log, r) == Seen(s.log, r) + 1
  {
    HeldAllows(s, r, count, expiry);
    KeysAreDistinct(r.bucket, r.ip, r.bucket, r.ip);
    RaisedLive(s.store, IpKey(r.bucket, r.ip), GlobalKey(r.bucket), count, expiry, r.time);
    SeenNext(s.log, r);
  }

  lemma {:induction false} RepeatedInWindow(s: State, r: Request, count: nat, expiry: int, k: nat)
    requires r.fault.NoFault? && Holds(s, r, count, expiry) && 1 <= r.time < expiry && r.time < 60_001 && count > 0
    requires count + k <= PerIp(r.bucket)
    ensures Holds(Again(s, r, k), r, count + k, expiry) && Seen(Again(s, r, k).log, r) == Seen(s.log, r) + k
  {
    if k > 0 {
      RepeatedInWindow(s, r, count, expiry, k - 1);
      OneMore(Again(s, r, k - 1), r, count + k - 1, expiry);
    }
  }

  /** An arrival that finds no live counter starts both windows. */
  lemma {:induction false} StartsWindow(s: State, r: Request)
    requires r.fault.NoFault? && !Live(s.store, IpKey(r.bucket, r.ip), r.time) && !Live(s.store, GlobalKey(r.bucket), r.time)
    ensures Holds(Check(s, r).0, r, 1, r.time + 60_000)
    ensures Seen(Check(s, r).0.log, r) == Seen(s.log, r) + if 1 <= r.time < 60_001 then 1 else 0
  {
    KeysAreDistinct(r.bucket, r.ip, r.bucket, r.ip);
    assert Allows(s, r);
    RaisedNew(s.store, IpKey(r.bucket, r.ip), GlobalKey(r.bucket), r.time);
    SeenNext(s.log, r);
  }

  lemma {:induction false} RepeatedAre(r: Request, k: nat)
    ensures |Repeat(r, k)| == k && forall i | 0 <= i < k :: Repeat(r, k)[i] == r
  {
    if k > 0 {
      RepeatedAre(r, k - 1);
    }
  }

  lemma {:induction false} WitnessOrdered(first: Request, late: Request, next: Request, k: nat)
    requires first.time <= late.time <= next.time
    ensures Ordered([first] + Repeat(late, k) + [next] + Repeat(next, k))
  {
    RepeatedAre(late, k);
    RepeatedAre(next, k);
    var requests := [first] + Repeat(late, k) + [next] + Repeat(next, k);
    assert forall i | 0 <= i < |requests| ::
      requests[i].time == if i == 0 then first.time else if i <= k then late.time else next.time;
  }

  lemma {:induction false} FullWindow(b: Bucket, ip: string, late: Request, k: nat)
    requires late == Request(b, ip, 59_999, NoFault) && k + 1 == PerIp(b)
    ensures var s := Again(Check(State(map[], []), Request(b, ip, 0, NoFault)).0, late, k);
            Holds(s, late, k + 1, 60_000) && Seen(s.log, late) == k
  {
    var first := Request(b, ip, 0, NoFault);
    var empty := State(map[], []);
    StartsWindow(empty, first);
    RepeatedInWindow(Check(empty, first).0, late, 1, 60_000, k);
  }

  lemma {:induction false} NextFullWindow(s: State, next: Request, k: nat)
    requires Holds(s, next, k + 1, 60_000) && next.time == 60_000 && next.fault.NoFault? && k + 1 == PerIp(next.bucket)
    ensures Seen(Again(Check(s, next).0, next, k).log, next) == Seen(s.log, next) + k + 1
  {
    StartsWindow(s, next);
    RepeatedInWindow(Check(s, next).0, next, 1, 120_000, k);
  }

  /** One request at 0, all but one of the limit just before the window closes, the limit right after: the bound is sharp. */
  lemma {:induction false} BoundIsReached(b: Bucket, ip: string) returns (requests: seq<Request>)
    ensures Ordered(requests)
    ensures Admitted(After(requests).log, b, Some(ip), 1, 60_001) == 2 * PerIp(b) - 1
  {
    var first, late, next := Request(b, ip, 0, NoFault), Request(b, ip, 59_999, NoFault), Request(b, ip, 60_000, NoFault);
    var k := PerIp(b) - 1;
    var full := [first] + Repeat(late, k);
    requests := full + [next] + Repeat(next, k);
    AfterWitness(first, late, next, k);
    FullWindow(b, ip, late, k);
    NextFullWindow(Again(Check(State(map[], []), first).0, late, k), next, k);
    WitnessOrdered(first, late, next, k);
  }

  lemma {:induction false} AfterWitness(first: Request, late: Request, next: Request, k: nat)
    ensures After([first] + Repeat(late, k) + [next] + Repeat(next, k))
            == Again(Check(Again(Check(State(map[], []), first).0, late, k), next).0, next, k)
  {
    AfterNext([], first);
    assert [] + [first] == [first];
    AfterRepeat([first], late, k);
    AfterNext([first] + Repeat(late, k), next);
    AfterRepeat([first] + Repeat(late, k) + [next], next, k);
  }

  // ---- Who is refused ----

  lemma {:induction false} LimitReached(store: Store, key: string, limit: nat, times: seq<int>, now: int)
    requires KeyFits(store, key, limit, times) && UpTo(times, now) && limit > 0 && Get(store, key, now) >= limit
    ensures CountIn(times, now - 59_999, now + 1) >= limit
  {
    var start := store[key].expiry.value - Millis(TTL);
    CountIsDifference(times, now - 59_999, now + 1);
    SinceAntitone(times, now - 59_999, start);
    SinceNothing(times, now + 1);
  }

  function LimitOf(b: Bucket, ip: Option<string>): nat {
    if ip.Some? then PerIp(b) else Global(b)
  }

  lemma {:induction false} KeyAtLimit(s: State, b: Bucket, ip: Option<string>, now: int)
    requires KeyFits(s.store, KeyOf(b, ip), LimitOf(b, ip), Times(s.log, KeyOf(b, ip)))
    requires Until(s.log, now) && Get(s.store, KeyOf(b, ip), now) >= LimitOf(b, ip)
    ensures Admitted(s.log, b, ip, now - 59_999, now + 1) >= LimitOf(b, ip)
  {
    TimesAreAdmissions(s.log, b, ip, now - 59_999, now + 1);
    TimesUpTo(s.log, KeyOf(b, ip), now);
    LimitReached(s.store, KeyOf(b, ip), LimitOf(b, ip), Times(s.log, KeyOf(b, ip)), now);
  }

  lemma {:induction false} SomeKeyFull(s: State, r: Request)
    requires Check(s, r).1 == TooMany
    ensures || Get(s.store, KeyOf(r.bucket, Some(r.ip)), r.time) >= LimitOf(r.bucket, Some(r.ip))
            || Get(s.store, KeyOf(r.bucket, None), r.time) >= LimitOf(r.bucket, None)
  {
  }

  /**
   * The limiter refuses nobody else: a request answered 429 comes when its address, or all addresses together, have been
   * admitted as often as the limit says within the last minute.
   */
  lemma {:induction false} RefusedOnlyAtLimit(requests: seq<Request>, r: Request)
    requires Ordered(requests + [r]) && Check(After(requests), r).1 == TooMany
    ensures var log := After(requests).log;
            || Admitted(log, r.bucket, Some(r.ip), r.time - 59_999, r.time + 1) >= PerIp(r.bucket)
            || Admitted(log, r.bucket, None, r.time - 59_999, r.time + 1) >= Global(r.bucket)
  {
    OrderedBefore(requests, r);
    FullAfter(requests, r.bucket, Some(r.ip), r.time);
    FullAfter(requests, r.bucket, None, r.time);
    SomeKeyFull(After(requests), r);
  }

  predicate Until(log: seq<Admission>, now: int) {
    forall i | 0 <= i < |log| :: log[i].time <= now
  }

  lemma {:induction false} KeyFitsAfter(requests: seq<Request>, b: Bucket, ip: Option<string>, now: int)
    requires Ordered(requests) && (requests != [] ==> requests[|requests| - 1].time <= now)
    ensures var s := After(requests); KeyFits(s.store, KeyOf(b, ip), LimitOf(b, ip), Times(s.log, KeyOf(b, ip))) && Until(s.log, now)
  {
    RunsKeepInv(requests, now);
  }

  /** A counter at its limit means that many admissions within the last minute. */
  lemma {:induction false} FullAfter(requests: seq<Request>, b: Bucket, ip: Option<string>, now: int)
    requires Ordered(requests) && (requests != [] ==> requests[|requests| - 1].time <= now)
    ensures var s := After(requests);
            Get(s.store, KeyOf(b, ip), now) >= LimitOf(b, ip) ==> Admitted(s.log, b, ip, now - 59_999, now + 1) >= LimitOf(b, ip)
  {
    KeyFitsAfter(requests, b, ip, now);
    var s := After(requests);
    if Get(s.store, KeyOf(b, ip), now) >= LimitOf(b, ip) {
      KeyAtLimit(s, b, ip, now);
    }
  }

  lemma {:induction false} OrderedBefore(requests: seq<Request>, r: Request)
    requires Ordered(requests + [r])
    ensures Ordered(requests) && (requests != [] ==> requests[|requests| - 1].time <= r.time)
  {
    var all := requests + [r];
    assert forall i | 0 <= i < |requests| :: all[i] == requests[i];
    assert all[|requests|] == r;
  }
}
