/**
 The sliding-window rate limiter: a sorted set of arrival times per key, pruned on every call and dropped by the
 server when its time to live runs out. Rejected arrivals are recorded like allowed ones.

 The main results: it decides exactly as a limiter that remembers every arrival for ever; no window
 holds more allowed arrivals than the limit; and after a silence the limit is available in full.
 */
module RateLimit {

  /** The sorted set under a key (score and member are the same time) and the instant the key expires. */
  datatype Bucket = Bucket(entries: set<real>, expiresAt: real)

  datatype Decision = Decision(allowed: bool, retryAfter: int)

  datatype Limits = Limits(maxRequests: nat, window: nat)

  const NO_KEY := Bucket({}, 0.0)

  function Present(b: Bucket, now: real): set<real> {
    if now < b.expiresAt then b.entries else {}
  }

  /** ZREMRANGEBYSCORE from 0 to the window's start. */
  function Pruned(entries: set<real>, windowStart: real): set<real> {
    set t | t in entries && !(0.0 <= t <= windowStart)
  }

  ghost predicate IsOldest(t: real, entries: set<real>) {
    t in entries && forall x | x in entries :: t <= x
  }

  lemma Member<T>(s: set<T>) returns (x: T)
    requires s != {}
    ensures x in s
  {
    x :| x in s;
  }

  lemma OldestExists(entries: set<real>)
    requires entries != {}
    ensures exists t :: IsOldest(t, entries)
  {
    var x := Member(entries);
    var rest := entries - {x};
    assert forall t | t in entries :: t == x || t in rest;
    if rest == {} {
      assert IsOldest(x, entries);
    } else {
      OldestExists(rest);
      var y :| IsOldest(y, rest);
      assert IsOldest(if x < y then x else y, entries);
    }
  }

  /** ZRANGE 0 0. */
  ghost function Oldest(entries: set<real>): (t: real)
    requires entries != {}
    ensures IsOldest(t, entries)
  {
    OldestExists(entries);
    var t :| IsOldest(t, entries);
    t
  }

  function CountedAt(limits: Limits, b: Bucket, now: real): set<real> {
    Pruned(Present(b, now), now - limits.window as real)
  }

  function After(limits: Limits, b: Bucket, now: real): Bucket {
    Bucket(CountedAt(limits, b, now) + {now}, now + (limits.window + 1) as real)
  }

  ghost function Decide(limits: Limits, b: Bucket, now: real): Decision {
    if |CountedAt(limits, b, now)| < limits.maxRequests then
      Decision(true, 0)
    else
      var oldest := Oldest(After(limits, b, now).entries);
      var retry := (oldest + limits.window as real - now).Floor + 1;
      Decision(false, if retry >= 1 then retry else 1)
  }

  /** The bucket after a history of arrivals. */
  function Serve(limits: Limits, history: seq<real>): Bucket {
    if history == [] then NO_KEY
    else After(limits, Serve(limits, history[..|history| - 1]), history[|history| - 1])
  }

  ghost function DecisionAt(limits: Limits, history: seq<real>, now: real): Decision {
    Decide(limits, Serve(limits, history), now)
  }

  ghost predicate NonDecreasing(history: seq<real>) {
    && (forall i | 0 <= i < |history| :: 0.0 <= history[i])
    && (forall i, j | 0 <= i < j < |history| :: history[i] <= history[j])
  }

  ghost predicate StrictlyIncreasing(history: seq<real>) {
    && (forall i | 0 <= i < |history| :: 0.0 <= history[i])
    && (forall i, j | 0 <= i < j < |history| :: history[i] < history[j])
  }

  ghost predicate Follows(now: real, history: seq<real>) {
    0.0 <= now && forall t | t in history :: t <= now
  }

  // ----- Refinement of the limiter with full history -----

  /** Distinct arrival times later than one window before `now`, out of the whole history. */
  function Recent(history: seq<real>, now: real, window: nat): set<real> {
    set t | t in history && t > now - window as real
  }

  /** What is left in the bucket is exactly the part of the full history that can still matter. */
  lemma {:induction false} BucketIsRecentHistory(limits: Limits, history: seq<real>, now: real)
    requires NonDecreasing(history) && Follows(now, history)
    ensures CountedAt(limits, Serve(limits, history), now) == Recent(history, now, limits.window)
  {
    if history == [] {
      assert CountedAt(limits, NO_KEY, now) == {};
    } else {
      var before, last := history[..|history| - 1], history[|history| - 1];
      BucketIsRecentHistory(limits, before, last);
      var b := Serve(limits, history);
      assert b.entries == Recent(before, last, limits.window) + {last};
      var counted, recent := CountedAt(limits, b, now), Recent(history, now, limits.window);
      forall t | t in counted ensures t in recent {
        assert t == last || t in before;
      }
      forall t | t in recent ensures t in counted {
        var i :| 0 <= i < |history| && history[i] == t;
        assert t <= last && now < b.expiresAt;
        if i < |before| {
          assert before[i] == t && last in history && last <= now;
          assert t in Recent(before, last, limits.window);
        }
        assert t in b.entries;
      }
    }
  }

  /** Pruning and expiry never change a decision: a call is allowed exactly when the whole history has fewer than
      the permitted number of distinct times in the window. */
  lemma FullHistoryRefinement(limits: Limits, history: seq<real>, now: real)
    requires NonDecreasing(history) && Follows(now, history)
    ensures DecisionAt(limits, history, now).allowed <==> |Recent(history, now, limits.window)| < limits.maxRequests
  {
    BucketIsRecentHistory(limits, history, now);
  }

  /** How many arrivals at the end of a history are later than `bound`. */
  function CountAfter(history: seq<real>, bound: real): nat {
    if history == [] || history[|history| - 1] <= bound then 0
    else 1 + CountAfter(history[..|history| - 1], bound)
  }

  lemma {:induction false} CountAfterCuts(history: seq<real>, bound: real)
    requires StrictlyIncreasing(history)
    ensures CountAfter(history, bound) <= |history|
    ensures forall i | 0 <= i < |history| :: history[i] > bound <==> i >= |history| - CountAfter(history, bound)
  {
    if history != [] {
      CountAfterCuts(history[..|history| - 1], bound);
    }
  }

  function Later(history: seq<real>, bound: real): set<real> {
    set t | t in history && t > bound
  }

  lemma {:induction false} CountAfterIsSize(history: seq<real>, bound: real)
    requires StrictlyIncreasing(history)
    ensures CountAfter(history, bound) == |Later(history, bound)|
  {
    if history != [] {
      var before, last := history[..|history| - 1], history[|history| - 1];
      CountAfterIsSize(before, bound);
      LaterOfAppend(before, last, bound);
      assert history == before + [last];
    }
  }

  lemma LaterOfAppend(before: seq<real>, last: real, bound: real)
    requires forall t | t in before :: t < last
    ensures last > bound ==>
              last !in Later(before, bound) && Later(before + [last], bound) == Later(before, bound) + {last}
    ensures last <= bound ==> Later(before + [last], bound) == {}
  {
  }

  /** For strictly increasing arrivals t[0] < t[1] < ..., arrival i is allowed exactly when fewer than
      `maxRequests` came before it or the one `maxRequests` earlier has left the window. Rejected arrivals count. */
  lemma AllowedExactly(limits: Limits, arrivals: seq<real>, i: nat)
    requires StrictlyIncreasing(arrivals) && i < |arrivals|
    ensures DecisionAt(limits, arrivals[..i], arrivals[i]).allowed <==>
              && limits.maxRequests > 0
              && (i < limits.maxRequests || arrivals[i - limits.maxRequests] <= arrivals[i] - limits.window as real)
  {
    var history, now := arrivals[..i], arrivals[i];
    FullHistoryRefinement(limits, history, now);
    var bound := now - limits.window as real;
    CountAfterIsSize(history, bound);
    CountAfterCuts(history, bound);
    assert Recent(history, now, limits.window) == Later(history, bound);
  }

  // ----- Safety -----

  /** The allowed arrival times of a run that fall in (s, s + window]. */
  ghost function AllowedIn(limits: Limits, arrivals: seq<real>, s: real): set<real> {
    if arrivals == [] then {}
    else
      var before, now := arrivals[..|arrivals| - 1], arrivals[|arrivals| - 1];
      AllowedIn(limits, before, s)
        + (if DecisionAt(limits, before, now).allowed && s < now <= s + limits.window as real then {now} else {})
  }

  lemma {:induction false} AllowedInIsPast(limits: Limits, arrivals: seq<real>, s: real)
    ensures forall t | t in AllowedIn(limits, arrivals, s) :: t in arrivals && s < t <= s + limits.window as real
  {
    if arrivals != [] {
      AllowedInIsPast(limits, arrivals[..|arrivals| - 1], s);
    }
  }

  lemma SubsetIsSmaller<T>(a: set<T>, b: set<T>)
    requires a <= b
    ensures |a| <= |b|
  {
    if a != {} {
      var x :| x in a;
      SubsetIsSmaller(a - {x}, b - {x});
    }
  }

  lemma OneMore(a: set<real>, b: set<real>, now: real, bound: nat)
    requires a <= b && |b| < bound
    ensures |a + {now}| <= bound
  {
    SubsetIsSmaller(a, b);
  }

  lemma AllowedInWindow(limits: Limits, before: seq<real>, now: real, s: real)
    requires Follows(now, before) && s < now <= s + limits.window as real
    requires |Recent(before, now, limits.window)| < limits.maxRequests
    ensures |AllowedIn(limits, before, s) + {now}| <= limits.maxRequests
  {
    AllowedInIsPast(limits, before, s);
    var allowed, recent := AllowedIn(limits, before, s), Recent(before, now, limits.window);
    forall t | t in allowed ensures t in recent {
    }
    OneMore(allowed, recent, now, limits.maxRequests);
  }

  /** No interval of one window's length, wherever it starts, holds more than `maxRequests` distinct allowed times. */
  lemma {:induction false} WindowIsNeverOverfull(limits: Limits, arrivals: seq<real>, s: real)
    requires NonDecreasing(arrivals)
    ensures |AllowedIn(limits, arrivals, s)| <= limits.maxRequests
  {
    if arrivals != [] {
      var before, now := arrivals[..|arrivals| - 1], arrivals[|arrivals| - 1];
      WindowIsNeverOverfull(limits, before, s);
      if DecisionAt(limits, before, now).allowed && s < now <= s + limits.window as real {
        FullHistoryRefinement(limits, before, now);
        AllowedInWindow(limits, before, now, s);
      }
    }
  }

  // ----- Waiting -----

  /** A rejection asks for the least number of whole seconds, at least one, after which the oldest arrival counted
      against the client is more than a window ago. */
  lemma RetryAfterIsLeast(limits: Limits, history: seq<real>, now: real)
    requires NonDecreasing(history) && Follows(now, history) && !DecisionAt(limits, history, now).allowed
    ensures var retry := DecisionAt(limits, history, now).retryAfter;
            var leaves := Oldest(Recent(history, now, limits.window) + {now}) + limits.window as real;
            && retry >= 1 && leaves < now + retry as real
            && (retry > 1 ==> now + (retry - 1) as real <= leaves)
  {
    BucketIsRecentHistory(limits, history, now);
  }

  /** A rejection asks for between one second and the window plus one; after that wait the oldest arrival counted
      against the client is outside the window. */
  lemma RetryAfterClearsOldest(limits: Limits, history: seq<real>, now: real)
    requires NonDecreasing(history) && Follows(now, history) && !DecisionAt(limits, history, now).allowed
    ensures var retry := DecisionAt(limits, history, now).retryAfter;
            && 1 <= retry <= limits.window + 1
            && Oldest(Recent(history, now, limits.window) + {now}) <= now + retry as real - limits.window as real
  {
    BucketIsRecentHistory(limits, history, now);
  }

  /** After a silence of at least one window the next `maxRequests` arrivals are all allowed, however close
      together. */
  lemma SilenceRestores(limits: Limits, history: seq<real>, next: seq<real>, i: nat)
    requires NonDecreasing(history + next) && i < |next| && i < limits.maxRequests
    requires forall t | t in history :: t <= next[0] - limits.window as real
    ensures DecisionAt(limits, history + next[..i], next[i]).allowed
  {
    var past := history + next[..i];
    assert past == (history + next)[..|history| + i];
    assert forall j | 0 <= j < |past| :: past[j] == (history + next)[j];
    assert next[i] == (history + next)[|history| + i];
    assert next[0] == (history + next)[|history|];
    FullHistoryRefinement(limits, past, next[i]);
    DistinctTimes(next[..i]);
    SubsetIsSmaller(Recent(past, next[i], limits.window), set t | t in next[..i]);
  }

  lemma {:induction false} DistinctTimes(times: seq<real>)
    ensures |set t | t in times| <= |times|
  {
    if times != [] {
      var before, last := times[..|times| - 1], times[|times| - 1];
      DistinctTimes(before);
      assert (set t | t in times) == (set t | t in before) + {last};
    }
  }

  // ----- The limiter as it runs -----

  function BucketOf(buckets: map<string, Bucket>, key: string): Bucket {
    if key in buckets then buckets[key] else NO_KEY
  }

  /** How far a call gets: all the way, up to the pipeline whose reply or later read is lost, or nowhere. */
  datatype Link = Up | CutAfterPipeline | Down

  function HistoryOf(history: map<string, seq<real>>, key: string): seq<real> {
    if key in history then history[key] else []
  }

  /** Every bucket is what its key's history leaves. */
  ghost predicate Tracks(limits: Limits, buckets: map<string, Bucket>, history: map<string, seq<real>>) {
    forall k {:trigger BucketOf(buckets, k)} :: BucketOf(buckets, k) == Serve(limits, HistoryOf(history, k))
  }

  lemma TracksNext(limits: Limits, buckets: map<string, Bucket>, history: map<string, seq<real>>, key: string,
                   now: real)
    requires Tracks(limits, buckets, history)
    ensures Tracks(limits, buckets[key := After(limits, BucketOf(buckets, key), now)],
                   history[key := HistoryOf(history, key) + [now]])
  {
    var past := HistoryOf(history, key);
    assert (past + [now])[..|past|] == past;
    var after, recorded := buckets[key := After(limits, BucketOf(buckets, key), now)], history[key := past + [now]];
    forall k ensures BucketOf(after, k) == Serve(limits, HistoryOf(recorded, k)) {
      assert k != key ==> BucketOf(after, k) == BucketOf(buckets, k);
    }
  }

  lemma DecidedByHistory(limits: Limits, past: seq<real>, now: real)
    ensures NonDecreasing(past) && Follows(now, past) ==>
              (DecisionAt(limits, past, now).allowed <==> |Recent(past, now, limits.window)| < limits.maxRequests)
  {
    if NonDecreasing(past) && Follows(now, past) {
      FullHistoryRefinement(limits, past, now);
    }
  }

  class RedisRateLimiter {
    const limits: Limits
    var buckets: map<string, Bucket>
    ghost var history: map<string, seq<real>>    // every arrival recorded under a key, for ever

    ghost predicate Valid()
      reads this
    {
      Tracks(limits, buckets, history)
    }

    constructor (limits: Limits)
      ensures Valid() && this.limits == limits && history == map[]
    {
      this.limits, buckets, history := limits, map[], map[];
    }

    /** Prune, count, add, set the time to live; on rejection read the oldest entry. Over any sequence of calls,
        keys and outages, a call that gets through is decided by the full history of its key; any other is
        allowed. The arrival is recorded, for its key only, unless the server cannot be reached. */
    method IsAllowed(key: string, now: real, link: Link) returns (allowed: bool, retryAfter: int)
      requires Valid()
      modifies this
      ensures Valid()
      ensures history == if link.Down? then old(history) else old(history)[key := HistoryOf(old(history), key) + [now]]
      ensures Decision(allowed, retryAfter) ==
                if link.Up? then DecisionAt(limits, HistoryOf(old(history), key), now) else Decision(true, 0)
      ensures var past := HistoryOf(old(history), key);
              link.Up? && NonDecreasing(past) && Follows(now, past) ==>
                (allowed <==> |Recent(past, now, limits.window)| < limits.maxRequests)
    {
      if link.Down? {
        return true, 0;
      }
      DecidedByHistory(limits, HistoryOf(history, key), now);
      var currentCount, entries := RunPipeline(key, now);
      if link.CutAfterPipeline? {
        return true, 0;
      }
      if currentCount >= limits.maxRequests {
        var oldest := Earliest(entries);
        retryAfter := (oldest + limits.window as real - now).Floor + 1;
        return false, if retryAfter >= 1 then retryAfter else 1;
      }
      return true, 0;
    }

    /** Prune, count, add, set the time to live. */
    method RunPipeline(key: string, now: real) returns (currentCount: nat, entries: set<real>)
      requires Valid()
      modifies this
      ensures Valid() && history == old(history)[key := HistoryOf(old(history), key) + [now]]
      ensures var b := BucketOf(old(buckets), key);
              currentCount == |CountedAt(limits, b, now)| && entries == After(limits, b, now).entries
    {
      TracksNext(limits, buckets, history, key, now);
      var b := BucketOf(buckets, key);
      var windowStart := now - limits.window as real;
      entries := Pruned(Present(b, now), windowStart);
      currentCount := |entries|;
      entries := entries + {now};
      var updated := Bucket(entries, now + (limits.window + 1) as real);
      assert updated == After(limits, b, now);
      buckets := buckets[key := updated];
      history := history[key := HistoryOf(history, key) + [now]];
    }

    method Earliest(entries: set<real>) returns (oldest: real)
      requires entries != {}
      ensures oldest == Oldest(entries)
    {
      ghost var m := Member(entries);
      oldest :| oldest in entries;
      var rest := entries - {oldest};
      while rest != {}
        invariant rest <= entries && oldest in entries
        invariant forall t | t in entries && t !in rest :: oldest <= t
        decreases rest
      {
        ghost var n := Member(rest);
        var t :| t in rest;
        if t < oldest {
          oldest := t;
        }
        rest := rest - {t};
      }
    }
  }
}
