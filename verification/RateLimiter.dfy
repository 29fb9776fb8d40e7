/**
 The in-memory rate limiter: a bounded queue of accept times per key and a background sweeper that
 deletes idle keys. The specification is a sliding window over the whole history of accepted
 requests, which the limiter does not keep.
*/
module RateLimiter {

  type Store = map<string, seq<int>>

  /** At most `max` requests in any `duration` seconds. */
  datatype Policy = Policy(max: int, duration: int)

  datatype Event = Request(key: string, at: int) | Sweep(at: int)

  // ---- one request and one sweep

  predicate Admits(store: Store, key: string, p: Policy, now: int) {
    if key !in store then p.max >= 0
    else |store[key]| > 0 && |store[key]| >= p.max ==> now - store[key][0] >= p.duration
  }

  /** A new key with a negative limit: the queue cannot be allocated, and the call panics. */
  predicate Panics(store: Store, key: string, p: Policy) {
    key !in store && p.max < 0
  }

  function Requested(store: Store, key: string, p: Policy, now: int): Store {
    if key !in store then if p.max < 0 then store else store[key := [now]]
    else if |store[key]| < p.max then store[key := store[key] + [now]]
    else if |store[key]| > 0 && now - store[key][0] >= p.duration then store[key := store[key][1..] + [now]]
    else store
  }

  predicate Expired(queue: seq<int>, now: int, expiration: int) {
    |queue| == 0 || now - queue[|queue| - 1] > expiration
  }

  function Swept(store: Store, now: int, expiration: int): Store {
    map k | k in store && !Expired(store[k], now, expiration) :: store[k]
  }

  /** The background sweeper: absent, or deleting keys idle for more than `seconds`. */
  datatype Sweeper = Off | Every(seconds: nat)

  const NANOSECONDS := 1_000_000_000

  function SweeperFor(nanoseconds: int): Sweeper {
    if nanoseconds > 0 then Every(nanoseconds / NANOSECONDS) else Off
  }

  datatype Reply = Accepted | Rejected | Panicked

  class InMemoryRateLimiter {
    var store: Store
    const sweeper: Sweeper

    ghost predicate Valid()
      reads this
    {
      forall k :: k in store ==> store[k] != []
    }

    /** The sweeper starts only for a positive expiration, and counts its whole seconds. */
    constructor (expirationNanoseconds: int)
      ensures Valid() && store == map[] && sweeper == SweeperFor(expirationNanoseconds)
    {
      store := map[];
      sweeper := if expirationNanoseconds > 0 then Every(expirationNanoseconds / NANOSECONDS) else Off;
    }

    method Request(key: string, p: Policy, now: int) returns (r: Reply)
      requires Valid()
      modifies this
      ensures Valid()
      ensures r.Panicked? <==> Panics(old(store), key, p)
      ensures r.Accepted? <==> Admits(old(store), key, p, now)
      ensures store == Requested(old(store), key, p, now)
    {
      if key in store {
        var queue := store[key];
        if |queue| < p.max {
          store := store[key := queue + [now]];
          return Accepted;
        } else if now - queue[0] >= p.duration {
          store := store[key := queue[1..] + [now]];
          return Accepted;
        } else {
          return Rejected;
        }
      }
      if p.max < 0 {
        return Panicked;
      }
      store := store[key := [now]];
      return Accepted;
    }

    /** One pass of the background sweeper, in any order of the keys. */
    method ClearExpiredItems(now: int)
      requires Valid() && sweeper.Every?
      modifies this
      ensures Valid()
      ensures store == Swept(old(store), now, sweeper.seconds)
    {
      var expiration := sweeper.seconds;
      ghost var before := store;
      var keys := store.Keys;
      while keys != {}
        invariant keys <= before.Keys
        invariant forall k :: k in store <==> k in before && (k in keys || !Expired(before[k], now, expiration))
        invariant forall k :: k in store ==> store[k] == before[k]
        decreases keys
      {
        var key :| key in keys;
        var queue := store[key];
        if |queue| == 0 || now - queue[|queue| - 1] > expiration {
          store := store - {key};
        }
        keys := keys - {key};
      }
      assert store == Swept(before, now, expiration);
    }
  }

  // ---- runs, with one policy per key

  function Handle(store: Store, e: Event, pol: string -> Policy, sweeper: Sweeper): Store {
    match e
    case Request(key, now) => Requested(store, key, pol(key), now)
    case Sweep(now) => if sweeper.Off? then store else Swept(store, now, sweeper.seconds)
  }

  function After(es: seq<Event>, pol: string -> Policy, sweeper: Sweeper): Store {
    if es == [] then map[]
    else Handle(After(es[..|es| - 1], pol, sweeper), es[|es| - 1], pol, sweeper)
  }

  /** Whether the limiter accepts `key` at `now` after the run. */
  predicate Accepts(es: seq<Event>, pol: string -> Policy, sweeper: Sweeper, key: string, now: int) {
    Admits(After(es, pol, sweeper), key, pol(key), now)
  }

  function Record(h: seq<int>, store: Store, e: Event, pol: string -> Policy, key: string): seq<int> {
    if e.Request? && e.key == key && Admits(store, key, pol(key), e.at) then h + [e.at] else h
  }

  /** The full history: when requests for `key` were accepted. */
  function History(es: seq<Event>, pol: string -> Policy, sweeper: Sweeper, key: string): seq<int> {
    if es == [] then []
    else Record(History(es[..|es| - 1], pol, sweeper, key), After(es[..|es| - 1], pol, sweeper), es[|es| - 1], pol, key)
  }

  ghost predicate ClockRuns(es: seq<Event>) {
    forall i, j :: 0 <= i < j < |es| ==> es[i].at <= es[j].at
  }

  // ---- the sliding window

  /** Accepted requests in the last `duration` seconds. */
  function InWindow(h: seq<int>, now: int, duration: int): nat {
    if h == [] then 0
    else InWindow(h[..|h| - 1], now, duration) + if h[|h| - 1] <= now && now - h[|h| - 1] < duration then 1 else 0
  }

  /** A queue is never empty, so a limit of zero still admits one request at a time; a negative limit admits
      none. */
  function Limit(p: Policy): nat {
    if p.max < 0 then 0 else if p.max == 0 then 1 else p.max
  }

  /** The sweeper keeps a key for as long as its requests may matter. */
  predicate Covers(sweeper: Sweeper, duration: int) {
    sweeper.Off? || duration <= sweeper.seconds + 1
  }

  /** Everything in `h` left the window at time `now` or before. */
  ghost predicate Old(h: seq<int>, now: int, duration: int) {
    forall i :: 0 <= i < |h| ==> now - h[i] >= duration
  }

  ghost predicate Sorted(h: seq<int>, now: int) {
    && (forall i, j :: 0 <= i < j < |h| ==> h[i] <= h[j])
    && (forall i :: 0 <= i < |h| ==> h[i] <= now)
  }

  /** The queue is the newest part of the history; what was cut off is either beyond a full queue or old. */
  ghost predicate QueueInv(h: seq<int>, q: seq<int>, p: Policy, now: int) {
    && 1 <= |q| <= Limit(p) && |q| <= |h| && h[|h| - |q|..] == q
    && (|q| == Limit(p) || Old(h[..|h| - |q|], now, p.duration))
  }

  ghost predicate KeyInv(h: seq<int>, store: Store, key: string, p: Policy, now: int) {
    && Sorted(h, now)
    && if key in store then QueueInv(h, store[key], p, now) else Old(h, now, p.duration)
  }

  lemma {:induction false} OldOutsideWindow(h: seq<int>, now: int, duration: int, m: nat)
    requires m <= |h| && Old(h[..m], now, duration)
    ensures InWindow(h, now, duration) <= |h| - m
  {
    if |h| > m {
      assert h[..|h| - 1][..m] == h[..m];
      OldOutsideWindow(h[..|h| - 1], now, duration, m);
    } else if h != [] {
      assert h[..|h| - 1] == h[..m - 1] && Old(h[..m - 1], now, duration);
      OldOutsideWindow(h[..|h| - 1], now, duration, m - 1);
      assert h[m - 1] == h[..m][m - 1];
    }
  }

  lemma {:induction false} NewInsideWindow(h: seq<int>, now: int, duration: int, m: nat)
    requires m <= |h| && forall i :: m <= i < |h| ==> h[i] <= now && now - h[i] < duration
    ensures InWindow(h, now, duration) >= |h| - m
  {
    if |h| > m {
      NewInsideWindow(h[..|h| - 1], now, duration, m);
    }
  }

  /** The bounded queue answers as the full history does. */
  lemma AdmitsIffWindowHasRoom(h: seq<int>, store: Store, key: string, p: Policy, earlier: int, now: int)
    requires KeyInv(h, store, key, p, earlier) && earlier <= now
    ensures Admits(store, key, p, now) <==> InWindow(h, now, p.duration) < Limit(p)
  {
    if key !in store {
      assert h[..|h|] == h;
      OldOutsideWindow(h, now, p.duration, |h|);
    } else {
      var q := store[key];
      var m := |h| - |q|;
      if |q| < Limit(p) {
        OldOutsideWindow(h, now, p.duration, m);
      } else if now - q[0] >= p.duration {
        assert h[m] == q[0];
        OldOutsideWindow(h, now, p.duration, m + 1);
      } else {
        assert forall i :: m <= i < |h| ==> h[i] == q[i - m];
        NewInsideWindow(h, now, p.duration, m);
      }
    }
  }

  lemma PushInv(h: seq<int>, q: seq<int>, p: Policy, earlier: int, now: int)
    requires QueueInv(h, q, p, earlier) && earlier <= now && |q| < p.max
    ensures QueueInv(h + [now], q + [now], p, now)
  {
    var m := |h| - |q|;
    assert (h + [now])[m..] == h[m..] + [now];
    assert (h + [now])[..m] == h[..m];
  }

  lemma SlideInv(h: seq<int>, q: seq<int>, p: Policy, earlier: int, now: int)
    requires QueueInv(h, q, p, earlier) && earlier <= now && |q| >= p.max
    ensures QueueInv(h + [now], q[1..] + [now], p, now)
  {
    var m := |h| - |q|;
    assert (h + [now])[m + 1..] == h[m..][1..] + [now];
  }

  lemma RequestInv(h: seq<int>, store: Store, key: string, p: Policy, earlier: int, now: int)
    requires KeyInv(h, store, key, p, earlier) && earlier <= now
    ensures KeyInv(if Admits(store, key, p, now) then h + [now] else h, Requested(store, key, p, now), key, p, now)
  {
    if key !in store {
      assert (h + [now])[..|h|] == h;
      assert (h + [now])[|h|..] == [now];
    } else if |store[key]| < p.max {
      PushInv(h, store[key], p, earlier, now);
    } else if now - store[key][0] >= p.duration {
      SlideInv(h, store[key], p, earlier, now);
    }
  }

  /** Requests for other keys, sweeps and the passing of time keep the invariant of `key`. */
  lemma OtherInv(h: seq<int>, store: Store, key: string, p: Policy, earlier: int, e: Event,
                 pol: string -> Policy, sweeper: Sweeper)
    requires KeyInv(h, store, key, p, earlier) && earlier <= e.at && Covers(sweeper, p.duration)
    requires e.Request? ==> e.key != key
    ensures KeyInv(h, Handle(store, e, pol, sweeper), key, p, e.at)
  {
    if sweeper.Every? && e.Sweep? && key in store && Expired(store[key], e.at, sweeper.seconds) {
      var q := store[key];
      assert h[|h| - 1] == q[|q| - 1];
    }
  }

  lemma EventInv(h: seq<int>, store: Store, earlier: int, e: Event, pol: string -> Policy, sweeper: Sweeper, key: string)
    requires KeyInv(h, store, key, pol(key), earlier) && earlier <= e.at && Covers(sweeper, pol(key).duration)
    ensures KeyInv(Record(h, store, e, pol, key), Handle(store, e, pol, sweeper), key, pol(key), e.at)
  {
    if e.Request? && e.key == key {
      RequestInv(h, store, key, pol(key), earlier, e.at);
    } else {
      OtherInv(h, store, key, pol(key), earlier, e, pol, sweeper);
    }
  }

  function Now(es: seq<Event>): int {
    if es == [] then 0 else es[|es| - 1].at
  }

  lemma {:induction false} RunInv(es: seq<Event>, pol: string -> Policy, sweeper: Sweeper, key: string)
    requires ClockRuns(es) && es != [] && Covers(sweeper, pol(key).duration)
    ensures KeyInv(History(es, pol, sweeper, key), After(es, pol, sweeper), key, pol(key), Now(es))
  {
    var front, e := es[..|es| - 1], es[|es| - 1];
    var h, store := History(front, pol, sweeper, key), After(front, pol, sweeper);
    if front == [] {
      EventInv(h, store, e.at, e, pol, sweeper, key);
    } else {
      RunInv(front, pol, sweeper, key);
      EventInv(h, store, Now(front), e, pol, sweeper, key);
    }
  }

  // ---- what the limiter promises

  /** In every run with a clock that does not go back, the limiter and its sweeper accept a request
      exactly when fewer than the limit of accepted requests lie in the last `duration` seconds. */
  lemma AcceptsExactly(es: seq<Event>, pol: string -> Policy, sweeper: Sweeper, key: string, now: int)
    requires ClockRuns(es + [Request(key, now)]) && Covers(sweeper, pol(key).duration)
    ensures Accepts(es, pol, sweeper, key, now) <==>
            InWindow(History(es, pol, sweeper, key), now, pol(key).duration) < Limit(pol(key))
  {
    if es != [] {
      var all := es + [Request(key, now)];
      assert forall i :: 0 <= i < |es| ==> all[i] == es[i];
      assert all[|es|].at == now;
      RunInv(es, pol, sweeper, key);
      AdmitsIffWindowHasRoom(History(es, pol, sweeper, key), After(es, pol, sweeper), key, pol(key), Now(es), now);
    }
  }

  lemma {:induction false} NeverAccepted(es: seq<Event>, pol: string -> Policy, sweeper: Sweeper, key: string)
    requires pol(key).max < 0
    ensures History(es, pol, sweeper, key) == [] && key !in After(es, pol, sweeper)
  {
    if es != [] {
      NeverAccepted(es[..|es| - 1], pol, sweeper, key);
    }
  }

  /** Accepted requests more than the limit apart are at least `duration` seconds apart (a negative limit
      accepts none). */
  lemma {:induction false} HistoryGaps(es: seq<Event>, pol: string -> Policy, sweeper: Sweeper, key: string, i: nat)
    requires ClockRuns(es) && Covers(sweeper, pol(key).duration) && pol(key).max >= 0
    requires i + Limit(pol(key)) < |History(es, pol, sweeper, key)|
    ensures var h := History(es, pol, sweeper, key);
            h[i + Limit(pol(key))] - h[i] >= pol(key).duration
  {
    var front, e, p := es[..|es| - 1], es[|es| - 1], pol(key);
    var h := History(front, pol, sweeper, key);
    if i + Limit(p) < |h| {
      HistoryGaps(front, pol, sweeper, key, i);
    } else {
      RunInv(front, pol, sweeper, key);
      var store := After(front, pol, sweeper);
      if key in store && |store[key]| == Limit(p) {
        assert h[i] == store[key][0];
      }
    }
  }

  /** No window of `duration` seconds, wherever it ends, ever holds more than the limit. */
  lemma {:induction false} WindowBound(h: seq<int>, limit: nat, duration: int, t: int)
    requires forall i, j :: 0 <= i < j < |h| ==> h[i] <= h[j]
    requires forall i :: 0 <= i && i + limit < |h| ==> h[i + limit] - h[i] >= duration
    ensures InWindow(h, t, duration) <= limit
  {
    if h != [] {
      var front := h[..|h| - 1];
      if h[|h| - 1] > t {
        WindowBound(front, limit, duration, t);
      } else if |h| > limit {
        var m := |h| - limit;
        assert h[m - 1 + limit] - h[m - 1] >= duration;
        OldOutsideWindow(h, t, duration, m);
      } else {
        OldOutsideWindow(h, t, duration, 0);
      }
    }
  }

  lemma NoWindowOverflows(es: seq<Event>, pol: string -> Policy, sweeper: Sweeper, key: string, t: int)
    requires ClockRuns(es) && Covers(sweeper, pol(key).duration)
    ensures InWindow(History(es, pol, sweeper, key), t, pol(key).duration) <= Limit(pol(key))
  {
    var h := History(es, pol, sweeper, key);
    if pol(key).max < 0 {
      NeverAccepted(es, pol, sweeper, key);
    } else if es != [] {
      RunInv(es, pol, sweeper, key);
      forall i | 0 <= i && i + Limit(pol(key)) < |h|
        ensures h[i + Limit(pol(key))] - h[i] >= pol(key).duration
      {
        HistoryGaps(es, pol, sweeper, key, i);
      }
    }
    WindowBound(h, Limit(pol(key)), pol(key).duration, t);
  }

  // ---- exactly which policies are enforced

  function Always(p: Policy): string -> Policy {
    _ => p
  }

  /** The documented behaviour: accepted exactly when fewer than `max` requests lie in the window. */
  ghost predicate Enforced(p: Policy, sweeper: Sweeper) {
    forall es: seq<Event>, key: string, now: int :: ClockRuns(es + [Request(key, now)]) ==>
      (Accepts(es, Always(p), sweeper, key, now) <==> InWindow(History(es, Always(p), sweeper, key), now, p.duration) < p.max)
  }

  /** `n` requests for one key at time zero. */
  function Burst(n: nat): (es: seq<Event>)
    ensures |es| == n && forall i :: 0 <= i < n ==> es[i] == Request("", 0)
  {
    if n == 0 then [] else Burst(n - 1) + [Request("", 0)]
  }

  function Zeros(n: nat): (zs: seq<int>)
    ensures |zs| == n && forall i :: 0 <= i < n ==> zs[i] == 0
  {
    if n == 0 then [] else Zeros(n - 1) + [0]
  }

  lemma Snoc(es: seq<Event>, e: Event, pol: string -> Policy, sweeper: Sweeper, key: string)
    ensures After(es + [e], pol, sweeper) == Handle(After(es, pol, sweeper), e, pol, sweeper)
    ensures History(es + [e], pol, sweeper, key) ==
            Record(History(es, pol, sweeper, key), After(es, pol, sweeper), e, pol, key)
  {
    assert (es + [e])[..|es|] == es;
  }

  lemma {:induction false} BurstAccepted(n: nat, pol: string -> Policy, sweeper: Sweeper)
    requires n <= pol("").max
    ensures History(Burst(n), pol, sweeper, "") == Zeros(n)
    ensures After(Burst(n), pol, sweeper) == if n == 0 then map[] else map["" := Zeros(n)]
  {
    if n > 0 {
      BurstAccepted(n - 1, pol, sweeper);
      Snoc(Burst(n - 1), Request("", 0), pol, sweeper, "");
      BurstStep(if n == 1 then map[] else map["" := Zeros(n - 1)], n, pol, sweeper);
    }
  }

  lemma BurstStep(store: Store, n: nat, pol: string -> Policy, sweeper: Sweeper)
    requires 1 <= n <= pol("").max && store == if n == 1 then map[] else map["" := Zeros(n - 1)]
    ensures Handle(store, Request("", 0), pol, sweeper) == map["" := Zeros(n)]
    ensures Record(Zeros(n - 1), store, Request("", 0), pol, "") == Zeros(n)
  {
    assert Zeros(n) == Zeros(n - 1) + [0];
    assert n == 1 ==> Zeros(n) == [0];
    assert Handle(store, Request("", 0), pol, sweeper) == store["" := Zeros(n)];
  }

  /** A run after which the limiter has forgotten `p.max` requests made at time zero. */
  lemma ForgetfulRun(p: Policy, seconds: nat) returns (es: seq<Event>)
    requires p.max >= 1
    ensures ClockRuns(es + [Request("", seconds + 1)])
    ensures History(es, Always(p), Every(seconds), "") == Zeros(p.max)
    ensures "" !in After(es, Always(p), Every(seconds))
  {
    var burst, pol, now := Burst(p.max), Always(p), seconds + 1;
    es := burst + [Sweep(now)];
    BurstAccepted(p.max, pol, Every(seconds));
    Snoc(burst, Sweep(now), pol, Every(seconds), "");
  }

  /** When `duration` exceeds the expiration by more than a second, a sweep forgets requests that are
      still in the window and the limiter admits one too many. */
  lemma SweptTooEarly(p: Policy, sweeper: Sweeper)
    requires p.max >= 1 && !Covers(sweeper, p.duration)
    ensures !Enforced(p, sweeper)
  {
    var es := ForgetfulRun(p, sweeper.seconds);
    NewInsideWindow(Zeros(p.max), sweeper.seconds + 1, p.duration, 0);
    assert Accepts(es, Always(p), sweeper, "", sweeper.seconds + 1);
  }

  /** A policy is enforced on every run exactly when its limit is not zero and, for a positive limit, there
      is no sweeper or the duration is at most one second beyond its expiration. A negative limit is
      enforced by a panic on every request. */
  lemma EnforcedIff(p: Policy, sweeper: Sweeper)
    ensures Enforced(p, sweeper) <==> p.max < 0 || (p.max >= 1 && Covers(sweeper, p.duration))
  {
    if p.max == 0 {
      var es: seq<Event> := [];
      assert ClockRuns(es + [Request("", 0)]);
      assert Accepts(es, Always(p), sweeper, "", 0);
    } else if p.max < 0 {
      forall es: seq<Event>, key: string, now: int
        ensures !Accepts(es, Always(p), sweeper, key, now)
      {
        NeverAccepted(es, Always(p), sweeper, key);
      }
    } else if !Covers(sweeper, p.duration) {
      SweptTooEarly(p, sweeper);
    } else {
      forall es: seq<Event>, key: string, now: int | ClockRuns(es + [Request(key, now)])
        ensures Accepts(es, Always(p), sweeper, key, now) <==>
                InWindow(History(es, Always(p), sweeper, key), now, p.duration) < p.max
      {
        AcceptsExactly(es, Always(p), sweeper, key, now);
      }
    }
  }

  /** The same for the expiration a limiter is initialised with: a sub-second one sweeps with whole seconds of
      zero, and one that is not positive never sweeps. */
  lemma EnforcedFor(p: Policy, nanoseconds: int)
    ensures Enforced(p, SweeperFor(nanoseconds)) <==>
            p.max < 0 || (p.max >= 1 && (nanoseconds <= 0 || p.duration <= nanoseconds / 1_000_000_000 + 1))
  {
    EnforcedIff(p, SweeperFor(nanoseconds));
  }
}
