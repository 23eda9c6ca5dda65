/**
 What a rejected client gains, or does not gain, from waiting: exactly when the retry it is told to make is let in,
 exactly for which limits a client that always waits as told, to the instant or longer, can be rejected for ever, and
 how soon it gets in otherwise.
 */
module Waiting {
  import opened RateLimit

  /** The retry made exactly when a rejection says is let in exactly when the arrival `maxRequests` places before
      it has left the window by then. */
  lemma RetryIsLetInExactly(limits: Limits, history: seq<real>, now: real)
    requires StrictlyIncreasing(history + [now]) && limits.maxRequests > 0 && !DecisionAt(limits, history, now).allowed
    ensures limits.maxRequests <= |history|
    ensures var retry := now + DecisionAt(limits, history, now).retryAfter as real;
            DecisionAt(limits, history + [now], retry).allowed <==>
              (history + [now])[|history| + 1 - limits.maxRequests] <= retry - limits.window as real
  {
    var retry := now + DecisionAt(limits, history, now).retryAfter as real;
    var arrivals := history + [now, retry];
    assert arrivals[..|history|] == history && arrivals[..|history| + 1] == history + [now];
    OneLater(history + [now], retry);
    assert arrivals == history + [now] + [retry];
    AllowedExactly(limits, arrivals, |history|);
    AllowedExactly(limits, arrivals, |history| + 1);
  }

  lemma OneLater(history: seq<real>, later: real)
    requires StrictlyIncreasing(history) && history != [] && history[|history| - 1] < later
    ensures StrictlyIncreasing(history + [later])
  {
    forall i, j | 0 <= i < j < |history + [later]| ensures (history + [later])[i] < (history + [later])[j] {
      assert (history + [later])[i] == history[i];
    }
  }

  // ----- Clients that wait as told -----

  /** The first arrivals of an endless sequence. */
  function First(arrivals: nat -> real, n: nat): (history: seq<real>)
    ensures |history| == n
    ensures forall i | 0 <= i < n :: history[i] == arrivals(i)
  {
    seq(n, i requires 0 <= i => arrivals(i))
  }

  ghost predicate InOrder(arrivals: nat -> real) {
    forall n: nat :: NonDecreasing(First(arrivals, n))
  }

  ghost function AnswerAt(limits: Limits, arrivals: nat -> real, n: nat): Decision {
    DecisionAt(limits, First(arrivals, n), arrivals(n))
  }

  /** Arrival n is rejected, and the next one comes exactly when the rejection says. */
  ghost predicate TurnedAway(limits: Limits, arrivals: nat -> real, n: nat) {
    !AnswerAt(limits, arrivals, n).allowed
    && arrivals(n + 1) == arrivals(n) + AnswerAt(limits, arrivals, n).retryAfter as real
  }

  /** Whatever it did before, from arrival m on the client waits as told and is never let in. */
  ghost predicate Starves(limits: Limits, arrivals: nat -> real, m: nat) {
    InOrder(arrivals) && forall n | m <= n :: TurnedAway(limits, arrivals, n)
  }

  lemma Ordered(arrivals: nat -> real, i: nat, j: nat)
    requires InOrder(arrivals) && i <= j
    ensures 0.0 <= arrivals(i) <= arrivals(j)
  {
    var history := First(arrivals, j + 1);
    assert history[i] == arrivals(i) && history[j] == arrivals(j);
  }

  lemma OrderedFirst(arrivals: nat -> real, n: nat)
    requires InOrder(arrivals)
    ensures NonDecreasing(First(arrivals, n)) && Follows(arrivals(n), First(arrivals, n))
  {
    Ordered(arrivals, n, n);
    forall t | t in First(arrivals, n) ensures t <= arrivals(n) {
      var i :| 0 <= i < n && First(arrivals, n)[i] == t;
      Ordered(arrivals, i, n);
    }
  }

  /** The waits from arrival i to arrival j, in whole seconds. */
  ghost function Waits(limits: Limits, arrivals: nat -> real, i: nat, j: nat): int
    requires i <= j
  {
    if i == j then 0 else Waits(limits, arrivals, i, j - 1) + AnswerAt(limits, arrivals, j - 1).retryAfter
  }

  lemma {:induction false} WholeSecondsApart(limits: Limits, arrivals: nat -> real, m: nat, i: nat, j: nat)
    requires Starves(limits, arrivals, m) && m <= i <= j
    ensures arrivals(j) == arrivals(i) + Waits(limits, arrivals, i, j) as real
    ensures Waits(limits, arrivals, i, j) >= j - i
  {
    if i < j {
      WholeSecondsApart(limits, arrivals, m, i, j - 1);
      assert TurnedAway(limits, arrivals, j - 1);
    }
  }

  /** The arrivals since m, without the one at n. */
  function Since(arrivals: nat -> real, m: nat, n: nat): (history: seq<real>)
    requires m <= n
    ensures |history| == n - m
    ensures forall i | 0 <= i < n - m :: history[i] == arrivals(m + i)
  {
    seq(n - m, i requires 0 <= i => arrivals(m + i))
  }

  /** How many arrivals count against arrival n. */
  function Counting(limits: Limits, arrivals: nat -> real, m: nat, n: nat): nat
    requires m <= n
  {
    CountAfter(Since(arrivals, m, n), arrivals(n) - limits.window as real)
  }

  lemma SinceIncreases(limits: Limits, arrivals: nat -> real, m: nat, n: nat)
    requires Starves(limits, arrivals, m) && m <= n
    ensures StrictlyIncreasing(Since(arrivals, m, n))
  {
    var history := Since(arrivals, m, n);
    forall i | 0 <= i < |history| ensures 0.0 <= history[i] {
      Ordered(arrivals, m + i, m + i);
    }
    forall i, j | 0 <= i < j < |history| ensures history[i] < history[j] {
      StrictlyLater(limits, arrivals, m, m + i, m + j);
    }
  }

  lemma StrictlyLater(limits: Limits, arrivals: nat -> real, m: nat, i: nat, j: nat)
    requires Starves(limits, arrivals, m) && m <= i < j
    ensures arrivals(i) < arrivals(j)
  {
    WholeSecondsApart(limits, arrivals, m, i, j);
  }

  /** The arrivals that count are the last ones. */
  lemma CountingCuts(limits: Limits, arrivals: nat -> real, m: nat, n: nat)
    requires Starves(limits, arrivals, m) && m <= n
    ensures var count := Counting(limits, arrivals, m, n);
            && count <= n - m
            && (forall j | m <= j < n :: arrivals(j) > arrivals(n) - limits.window as real <==> j >= n - count)
  {
    var history, bound := Since(arrivals, m, n), arrivals(n) - limits.window as real;
    SinceIncreases(limits, arrivals, m, n);
    CountAfterCuts(history, bound);
    forall j | m <= j < n ensures arrivals(j) > bound <==> j >= n - Counting(limits, arrivals, m, n) {
      assert history[j - m] == arrivals(j);
    }
  }

  /** Once a whole window has passed since m, only arrivals since m count. */
  lemma RecentIsSince(limits: Limits, arrivals: nat -> real, m: nat, n: nat)
    requires Starves(limits, arrivals, m) && m + limits.window <= n
    ensures Recent(First(arrivals, n), arrivals(n), limits.window) ==
        Later(Since(arrivals, m, n), arrivals(n) - limits.window as real)
  {
    var all, history, bound := First(arrivals, n), Since(arrivals, m, n), arrivals(n) - limits.window as real;
    WholeSecondsApart(limits, arrivals, m, m, n);
    forall t | t in all && t > bound ensures t in history {
      var i :| 0 <= i < n && all[i] == t;
      if i < m {
        Ordered(arrivals, i, m);
      }
      assert history[i - m] == t;
    }
    forall t | t in history ensures t in all {
      var i :| 0 <= i < |history| && history[i] == t;
      assert all[m + i] == t;
    }
  }

  lemma RejectedByCount(limits: Limits, arrivals: nat -> real, m: nat, n: nat)
    requires Starves(limits, arrivals, m) && m + limits.window <= n
    ensures limits.maxRequests <= Counting(limits, arrivals, m, n) <= n - m
  {
    assert TurnedAway(limits, arrivals, n);
    OrderedFirst(arrivals, n);
    FullHistoryRefinement(limits, First(arrivals, n), arrivals(n));
    RecentIsSince(limits, arrivals, m, n);
    SinceIncreases(limits, arrivals, m, n);
    CountAfterIsSize(Since(arrivals, m, n), arrivals(n) - limits.window as real);
    CountingCuts(limits, arrivals, m, n);
  }

  /** Then each wait ends one second after the oldest counted arrival leaves the window. */
  lemma WaitOfRejected(limits: Limits, arrivals: nat -> real, m: nat, n: nat)
    requires Starves(limits, arrivals, m) && m + limits.window <= n && limits.maxRequests > 0
    ensures var count := Counting(limits, arrivals, m, n);
            && limits.maxRequests <= count <= n - m
            && arrivals(n + 1) == arrivals(n - count) + (limits.window + 1) as real
  {
    RejectedByCount(limits, arrivals, m, n);
    OldestSince(limits, arrivals, m, n);
    var first := n - Counting(limits, arrivals, m, n);
    WaitSince(limits, arrivals, m, first, n);
  }

  lemma WaitSince(limits: Limits, arrivals: nat -> real, m: nat, first: nat, n: nat)
    requires Starves(limits, arrivals, m) && m <= first <= n && arrivals(n) <= arrivals(first) + limits.window as real
    requires IsOldest(arrivals(first), Recent(First(arrivals, n), arrivals(n), limits.window) + {arrivals(n)})
    ensures arrivals(n + 1) == arrivals(first) + (limits.window + 1) as real
  {
    OrderedFirst(arrivals, n);
    WholeSecondsApart(limits, arrivals, m, first, n);
    assert TurnedAway(limits, arrivals, n);
    WaitFromOldest(limits, First(arrivals, n), arrivals(n), arrivals(first), Waits(limits, arrivals, first, n));
  }

  /** The wait a rejection asks for when the oldest counted arrival was a whole number of seconds ago. */
  lemma WaitFromOldest(limits: Limits, history: seq<real>, now: real, oldest: real, ago: nat)
    requires NonDecreasing(history) && Follows(now, history) && !DecisionAt(limits, history, now).allowed
    requires IsOldest(oldest, Recent(history, now, limits.window) + {now}) && now == oldest + ago as real
        && ago <= limits.window
    ensures DecisionAt(limits, history, now).retryAfter == limits.window + 1 - ago
  {
    BucketIsRecentHistory(limits, history, now);
    assert (oldest + limits.window as real - now) == (limits.window - ago) as real;
  }

  lemma OldestSince(limits: Limits, arrivals: nat -> real, m: nat, n: nat)
    requires Starves(limits, arrivals, m) && m + limits.window <= n && Counting(limits, arrivals, m, n) > 0
    ensures Counting(limits, arrivals, m, n) <= n - m
    ensures IsOldest(arrivals(n - Counting(limits, arrivals, m, n)),
        Recent(First(arrivals, n), arrivals(n), limits.window) + {arrivals(n)})
  {
    CountingCuts(limits, arrivals, m, n);
    RecentIsSince(limits, arrivals, m, n);
    var history, first := Since(arrivals, m, n), n - Counting(limits, arrivals, m, n);
    assert history[first - m] == arrivals(first);
    Ordered(arrivals, first, n);
    var later := Later(history, arrivals(n) - limits.window as real);
    forall t | t in later ensures arrivals(first) <= t {
      var i :| 0 <= i < |history| && history[i] == t;
      assert m + i >= first;
      Ordered(arrivals, first, m + i);
    }
  }

  // ----- Why a client cannot be rejected for ever in a short window -----

  function Counts(limits: Limits, arrivals: nat -> real, m: nat): nat -> nat {
    (n: nat) => if m <= n then Counting(limits, arrivals, m, n) else 0
  }

  /** Arrival j + 1 comes one second after arrival j, or two or more. */
  predicate WholeGap(t: nat -> real, j: nat) {
    t(j) + 1.0 == t(j + 1) || t(j) + 2.0 <= t(j + 1)
  }

  /** Of the arrivals since m, the last c(n) are in the window at n, and the next one comes a second after the
      first of them has left it. */
  ghost predicate Crowded(limits: Limits, t: nat -> real, c: nat -> nat, m: nat, n: nat) {
    && limits.maxRequests <= c(n) <= n - m
    && t(n + 1) == t(n - c(n)) + (limits.window + 1) as real
    && forall j | m <= j < n :: t(j) > t(n) - limits.window as real <==> j >= n - c(n)
  }

  lemma StarvingIsCrowded(limits: Limits, arrivals: nat -> real, m: nat, n: nat)
    requires Starves(limits, arrivals, m) && m + limits.window <= n && limits.maxRequests > 0
    ensures Crowded(limits, arrivals, Counts(limits, arrivals, m), m, n)
  {
    WaitOfRejected(limits, arrivals, m, n);
    CountingCuts(limits, arrivals, m, n);
  }

  lemma StarvingGap(limits: Limits, arrivals: nat -> real, m: nat, j: nat)
    requires Starves(limits, arrivals, m) && m <= j
    ensures WholeGap(arrivals, j)
  {
    assert TurnedAway(limits, arrivals, j);
    assert AnswerAt(limits, arrivals, j).retryAfter >= 1;
  }

  predicate FallsAt(c: nat -> nat, i: nat) {
    c(i + 1) <= c(i)
  }

  lemma CrowdFalls(limits: Limits, t: nat -> real, c: nat -> nat, m: nat, n: nat)
    requires Crowded(limits, t, c, m, n) && Crowded(limits, t, c, m, n + 1)
    ensures FallsAt(c, n)
  {
    assert t(n - c(n)) <= t(n + 1) - limits.window as real;
  }

  /** While the count stays the same, the arrival that leaves the window is two seconds or more before the next. */
  lemma CrowdGap(limits: Limits, t: nat -> real, c: nat -> nat, m: nat, n: nat)
    requires Crowded(limits, t, c, m, n) && Crowded(limits, t, c, m, n + 1) && limits.maxRequests > 0
    requires c(n + 1) == c(n) && WholeGap(t, n - c(n))
    ensures t(n - c(n)) + 2.0 <= t(n - c(n) + 1)
  {
    assert t(n - c(n) + 1) > t(n + 1) - limits.window as real;
  }

  lemma {:induction false} FallsOn(c: nat -> nat, i: nat, j: nat)
    requires i <= j && forall k | i <= k < j :: FallsAt(c, k)
    ensures c(j) <= c(i)
  {
    if i < j {
      FallsOn(c, i, j - 1);
      assert FallsAt(c, j - 1);
    }
  }

  /** What never rises is steady from some point on, for as long as its own value and one more. */
  lemma {:induction false} SteadyPoint(c: nat -> nat, n: nat) returns (s: nat)
    requires forall k | n <= k :: FallsAt(c, k)
    ensures n <= s && forall i | s <= i <= s + c(s) + 1 :: c(i) == c(s)
    decreases c(n)
  {
    if forall i | n <= i <= n + c(n) + 1 :: c(i) == c(n) {
      s := n;
    } else {
      var i :| n <= i <= n + c(n) + 1 && c(i) != c(n);
      FallsOn(c, n, i);
      s := SteadyPoint(c, i);
    }
  }

  lemma {:induction false} GapsAdd(t: nat -> real, first: nat, k: nat)
    requires forall j: nat | first <= j < first + k :: t(j) + 2.0 <= t(j + 1)
    ensures t(first) + (2 * k) as real <= t(first + k)
  {
    if k > 0 {
      GapsAdd(t, first, k - 1);
      assert t(first + k - 1) + 2.0 <= t(first + k);
    }
  }

  /** A crowd that lasts needs one gap of two seconds more than it counts, within a window and a second. */
  lemma CrowdNeedsRoom(limits: Limits, t: nat -> real, c: nat -> nat, m: nat, from: nat)
    requires limits.maxRequests > 0 && forall n | from <= n :: Crowded(limits, t, c, m, n)
    requires forall j | m <= j :: WholeGap(t, j)
    ensures 2 * limits.maxRequests + 1 <= limits.window
  {
    forall k | from <= k ensures FallsAt(c, k) {
      assert Crowded(limits, t, c, m, k) && Crowded(limits, t, c, m, k + 1);
      CrowdFalls(limits, t, c, m, k);
    }
    var s := SteadyPoint(c, from);
    assert Crowded(limits, t, c, m, s);
    forall j: nat | s - c(s) <= j < s + 1 ensures t(j) + 2.0 <= t(j + 1) {
      var n := j + c(s);
      assert Crowded(limits, t, c, m, n) && Crowded(limits, t, c, m, n + 1) && WholeGap(t, j);
      CrowdGap(limits, t, c, m, n);
    }
    GapsAdd(t, s - c(s), c(s) + 1);
  }

  lemma StarvationNeedsRoom(limits: Limits, arrivals: nat -> real, m: nat)
    requires Starves(limits, arrivals, m) && limits.maxRequests > 0
    ensures 2 * limits.maxRequests + 1 <= limits.window
  {
    var from, counts := m + limits.window, Counts(limits, arrivals, m);
    forall n | from <= n ensures Crowded(limits, arrivals, counts, m, n) {
      StarvingIsCrowded(limits, arrivals, m, n);
    }
    forall j | m <= j ensures WholeGap(arrivals, j) {
      StarvingGap(limits, arrivals, m, j);
    }
    CrowdNeedsRoom(limits, arrivals, counts, m, from);
  }

  /** A client that tries every two seconds until rejected and from then on waits exactly as told. */
  function Patient(limits: Limits, n: nat): nat {
    if n <= limits.maxRequests then 2 * n
    else Patient(limits, n - limits.maxRequests - 1) + limits.window + 1
  }

  function PatientClient(limits: Limits): nat -> real {
    (n: nat) => Patient(limits, n) as real
  }

  lemma {:induction false} PatientGaps(limits: Limits, n: nat)
    requires 2 * limits.maxRequests + 1 <= limits.window
    ensures Patient(limits, n) + 2 <= Patient(limits, n + 1)
  {
    if n > limits.maxRequests {
      PatientGaps(limits, n - limits.maxRequests - 1);
    }
  }

  lemma {:induction false} PatientIncreases(limits: Limits, m: nat, n: nat)
    requires 2 * limits.maxRequests + 1 <= limits.window && m < n
    ensures Patient(limits, m) + 2 <= Patient(limits, n)
  {
    PatientGaps(limits, n - 1);
    if m < n - 1 {
      PatientIncreases(limits, m, n - 1);
    }
  }

  lemma PatientFirst(limits: Limits, n: nat)
    requires 2 * limits.maxRequests + 1 <= limits.window
    ensures StrictlyIncreasing(First(PatientClient(limits), n))
  {
    forall i, j | 0 <= i < j < n ensures First(PatientClient(limits), n)[i] < First(PatientClient(limits), n)[j] {
      PatientIncreases(limits, i, j);
    }
  }

  lemma PatientInOrder(limits: Limits)
    requires 2 * limits.maxRequests + 1 <= limits.window
    ensures InOrder(PatientClient(limits))
  {
    forall n: nat ensures NonDecreasing(First(PatientClient(limits), n)) {
      PatientFirst(limits, n);
    }
  }

  lemma PatientTooOld(limits: Limits, k: nat, n: nat)
    requires 2 * limits.maxRequests + 1 <= limits.window && k + limits.maxRequests < n
    ensures Patient(limits, k) + limits.window <= Patient(limits, n)
  {
    if k + limits.maxRequests + 1 < n {
      PatientIncreases(limits, k, n - limits.maxRequests - 1);
    }
  }

  lemma PatientOldest(limits: Limits, n: nat)
    requires 1 <= limits.maxRequests <= n && 2 * limits.maxRequests + 1 <= limits.window
    ensures IsOldest(Patient(limits, n - limits.maxRequests) as real,
                     Recent(First(PatientClient(limits), n), Patient(limits, n) as real, limits.window)
                         + {Patient(limits, n) as real})
  {
    var history, now := First(PatientClient(limits), n), Patient(limits, n) as real;
    var first := n - limits.maxRequests;
    PatientIncreases(limits, first, n);
    PatientGaps(limits, n);
    assert Patient(limits, n + 1) == Patient(limits, first) + limits.window + 1;
    assert history[first] in history;
    forall t | t in Recent(history, now, limits.window) ensures Patient(limits, first) as real <= t {
      var k :| 0 <= k < n && history[k] == t;
      if k < first {
        PatientTooOld(limits, k, n);
      } else if first < k {
        PatientIncreases(limits, first, k);
      }
    }
  }

  /** With a window of at least 2 * maxRequests + 1 seconds this client is turned away for ever: its own rejected
      arrivals keep the window full. */
  lemma PatientIsTurnedAway(limits: Limits, n: nat)
    requires 1 <= limits.maxRequests <= n && 2 * limits.maxRequests + 1 <= limits.window
    ensures TurnedAway(limits, PatientClient(limits), n)
  {
    var arrivals := First(PatientClient(limits), n + 1);
    var history, now := First(PatientClient(limits), n), Patient(limits, n) as real;
    PatientFirst(limits, n + 1);
    assert arrivals[..n] == history && arrivals[n] == now;
    var first := n - limits.maxRequests;
    PatientGaps(limits, n);
    assert Patient(limits, n + 1) == Patient(limits, first) + limits.window + 1;
    assert arrivals[first] == Patient(limits, first) as real;
    AllowedExactly(limits, arrivals, n);
    PatientInOrder(limits);
    OrderedFirst(PatientClient(limits), n);
    PatientOldest(limits, n);
    PatientIncreases(limits, first, n);
    WaitFromOldest(limits, history, now, Patient(limits, first) as real, Patient(limits, n) - Patient(limits, first));
  }

  /** n times the window plus one. */
  function Hopeless(limits: Limits, n: nat): nat {
    if n == 0 then 0 else Hopeless(limits, n - 1) + limits.window + 1
  }

  /** A limiter that permits nothing asks for the window plus one second every time. */
  function HopelessClient(limits: Limits): nat -> real {
    (n: nat) => Hopeless(limits, n) as real
  }

  lemma {:induction false} HopelessIncreases(limits: Limits, i: nat, j: nat)
    requires i < j
    ensures Hopeless(limits, i) + limits.window + 1 <= Hopeless(limits, j)
  {
    if i < j - 1 {
      HopelessIncreases(limits, i, j - 1);
    }
  }

  lemma HopelessFirst(limits: Limits, n: nat)
    ensures NonDecreasing(First(HopelessClient(limits), n))
    ensures Recent(First(HopelessClient(limits), n), Hopeless(limits, n) as real, limits.window) == {}
  {
    var history := First(HopelessClient(limits), n);
    forall i, j | 0 <= i < j < n ensures history[i] <= history[j] {
      HopelessIncreases(limits, i, j);
    }
    forall t | t in history ensures t <= Hopeless(limits, n) as real - limits.window as real {
      var i :| 0 <= i < n && history[i] == t;
      HopelessIncreases(limits, i, n);
    }
  }

  lemma HopelessStarves(limits: Limits)
    requires limits.maxRequests == 0
    ensures Starves(limits, HopelessClient(limits), 0)
  {
    var arrivals := HopelessClient(limits);
    forall n: nat ensures NonDecreasing(First(arrivals, n)) {
      HopelessFirst(limits, n);
    }
    forall n: nat ensures TurnedAway(limits, arrivals, n) {
      HopelessFirst(limits, n);
      OrderedFirst(arrivals, n);
      FullHistoryRefinement(limits, First(arrivals, n), arrivals(n));
      WaitFromOldest(limits, First(arrivals, n), arrivals(n), arrivals(n), 0);
    }
  }

  /** Some client that always waits exactly as told is rejected for ever, whatever it did before, exactly when
      nothing is permitted or the window has at least 2 * maxRequests + 1 seconds. */
  lemma StarvationExactly(limits: Limits)
    ensures (exists arrivals, m :: Starves(limits, arrivals, m)) <==>
              limits.maxRequests == 0 || 2 * limits.maxRequests + 1 <= limits.window
  {
    if limits.maxRequests == 0 {
      HopelessStarves(limits);
    } else if 2 * limits.maxRequests + 1 <= limits.window {
      PatientInOrder(limits);
      forall n | limits.maxRequests <= n ensures TurnedAway(limits, PatientClient(limits), n) {
        PatientIsTurnedAway(limits, n);
      }
      assert Starves(limits, PatientClient(limits), limits.maxRequests);
    } else {
      forall arrivals, m | Starves(limits, arrivals, m) ensures false {
        StarvationNeedsRoom(limits, arrivals, m);
      }
    }
  }

  /** If arrival n is rejected, the next one comes no sooner than told. */
  ghost predicate Heeds(limits: Limits, arrivals: nat -> real, n: nat) {
    var answer := AnswerAt(limits, arrivals, n);
    !answer.allowed ==> arrivals(n + 1) >= arrivals(n) + answer.retryAfter as real
  }

  /** A client that waits at least as told is let in within as many retries as the window has seconds, whatever it
      did before, if that is no more than the permitted number. */
  lemma AdmittedWithinWindow(limits: Limits, arrivals: nat -> real, m: nat) returns (n: nat)
    requires InOrder(arrivals) && limits.maxRequests > 0 && limits.window <= limits.maxRequests
    requires forall i | m <= i :: Heeds(limits, arrivals, i)
    ensures m <= n <= m + limits.window && AnswerAt(limits, arrivals, n).allowed
  {
    n := m;
    while n < m + limits.window && !AnswerAt(limits, arrivals, n).allowed
      invariant m <= n <= m + limits.window
      invariant arrivals(m) + (n - m) as real <= arrivals(n)
    {
      assert Heeds(limits, arrivals, n);
      n := n + 1;
    }
    if n == m + limits.window {
      OrderedFirst(arrivals, n);
      FullHistoryRefinement(limits, First(arrivals, n), arrivals(n));
      if limits.window > 0 {
        FewSince(limits, arrivals, m, n);
      }
    }
  }

  lemma FewSince(limits: Limits, arrivals: nat -> real, m: nat, n: nat)
    requires InOrder(arrivals) && n == m + limits.window && limits.window > 0
    requires arrivals(m) + limits.window as real <= arrivals(n)
    ensures |Recent(First(arrivals, n), arrivals(n), limits.window)| < limits.window
  {
    var late := Since(arrivals, m + 1, n);
    var recent := Recent(First(arrivals, n), arrivals(n), limits.window);
    forall t | t in recent ensures t in late {
      var i :| 0 <= i < n && First(arrivals, n)[i] == t;
      Ordered(arrivals, i, if i <= m then m else i);
      assert late[i - m - 1] == t;
    }
    DistinctTimes(late);
    SubsetIsSmaller(recent, set t | t in late);
  }

  /** From arrival m on the client waits at least as told, and is never let in. */
  ghost predicate StarvesHeeding(limits: Limits, arrivals: nat -> real, m: nat) {
    InOrder(arrivals) && forall n | m <= n :: !AnswerAt(limits, arrivals, n).allowed && Heeds(limits, arrivals, n)
  }

  /** How often a client that is late once in p retries has been late. */
  function Delays(p: nat, n: nat): nat
    requires p > 0
  {
    if n < p then 0 else Delays(p, n - p) + 1
  }

  /** A client that comes every second, and half a second late once in the window's seconds less one. */
  function Tardy(limits: Limits, n: nat): real
    requires limits.window >= 2
  {
    n as real + Delays(limits.window - 1, n) as real * 0.5
  }

  function TardyClient(limits: Limits): nat -> real
    requires limits.window >= 2
  {
    (n: nat) => Tardy(limits, n)
  }

  lemma {:induction false} DelaysGrow(p: nat, n: nat)
    requires p > 0
    ensures Delays(p, n) <= Delays(p, n + 1)
  {
    if n >= p {
      DelaysGrow(p, n - p);
    }
  }

  lemma {:induction false} TardyIncreases(limits: Limits, i: nat, j: nat)
    requires limits.window >= 2 && i <= j
    ensures Tardy(limits, i) + (j - i) as real <= Tardy(limits, j)
  {
    if i < j {
      TardyIncreases(limits, i, j - 1);
      DelaysGrow(limits.window - 1, j - 1);
    }
  }

  lemma TardyFirst(limits: Limits, n: nat)
    requires limits.window >= 2
    ensures StrictlyIncreasing(First(TardyClient(limits), n))
  {
    var history := First(TardyClient(limits), n);
    forall i, j | 0 <= i < j < n ensures history[i] < history[j] {
      TardyIncreases(limits, i, j);
    }
  }

  lemma TardySpan(limits: Limits, n: nat)
    requires limits.window >= 2 && n >= limits.window - 1
    ensures Tardy(limits, n) == Tardy(limits, n - (limits.window - 1)) + limits.window as real - 0.5
  {
  }

  /** Exactly the last arrivals, one for each of the window's seconds less one, are in the window. */
  lemma TardyOldest(limits: Limits, n: nat)
    requires limits.window >= 2 && n >= limits.window - 1
    ensures var first := n - (limits.window - 1);
            && Tardy(limits, n) == Tardy(limits, first) + limits.window as real - 0.5
            && IsOldest(Tardy(limits, first),
                 Recent(First(TardyClient(limits), n), Tardy(limits, n), limits.window) + {Tardy(limits, n)})
  {
    var history, now, first := First(TardyClient(limits), n), Tardy(limits, n), n - (limits.window - 1);
    assert history[first] == Tardy(limits, first);
    var recent := Recent(history, now, limits.window);
    forall t | t in recent ensures Tardy(limits, first) <= t {
      var i :| 0 <= i < n && history[i] == t;
      TardyIncreases(limits, if i < first then i else first, if i < first then first else i);
    }
  }

  lemma WaitForOldest(limits: Limits, history: seq<real>, now: real, oldest: real)
    requires NonDecreasing(history) && Follows(now, history) && !DecisionAt(limits, history, now).allowed
    requires IsOldest(oldest, Recent(history, now, limits.window) + {now})
    requires 0.0 < oldest + limits.window as real - now < 1.0
    ensures DecisionAt(limits, history, now).retryAfter == 1
  {
    BucketIsRecentHistory(limits, history, now);
  }

  lemma TardyIsRejected(limits: Limits, n: nat)
    requires 1 <= limits.maxRequests < limits.window && n >= limits.window - 1
    ensures !AnswerAt(limits, TardyClient(limits), n).allowed
  {
    var client := TardyClient(limits);
    var arrivals := First(client, n + 1);
    TardyFirst(limits, n + 1);
    assert arrivals[..n] == First(client, n) && arrivals[n] == client(n);
    TardySpan(limits, n);
    TardyIncreases(limits, n - (limits.window - 1), n - limits.maxRequests);
    assert arrivals[n - limits.maxRequests] == Tardy(limits, n - limits.maxRequests);
    AllowedExactly(limits, arrivals, n);
  }

  /** Told to come back in a second, it comes in a second or later. */
  lemma TardyIsTurnedAway(limits: Limits, n: nat)
    requires 1 <= limits.maxRequests < limits.window && n >= limits.window - 1
    ensures !AnswerAt(limits, TardyClient(limits), n).allowed && Heeds(limits, TardyClient(limits), n)
  {
    var client := TardyClient(limits);
    TardyIsRejected(limits, n);
    TardyOldest(limits, n);
    TardyInOrder(limits);
    OrderedFirst(client, n);
    WaitForOldest(limits, First(client, n), client(n), Tardy(limits, n - (limits.window - 1)));
    TardyIncreases(limits, n, n + 1);
  }

  lemma TardyInOrder(limits: Limits)
    requires limits.window >= 2
    ensures InOrder(TardyClient(limits))
  {
    forall n: nat ensures NonDecreasing(First(TardyClient(limits), n)) {
      TardyFirst(limits, n);
    }
  }

  /** Some client that always waits at least as told is rejected for ever, whatever it did before, exactly when
      nothing is permitted or the window has more seconds than requests are permitted. */
  lemma HeedingStarvesExactly(limits: Limits)
    ensures (exists arrivals, m :: StarvesHeeding(limits, arrivals, m)) <==>
              limits.maxRequests == 0 || limits.maxRequests < limits.window
  {
    if limits.maxRequests == 0 {
      HopelessStarves(limits);
      forall n: nat
        ensures !AnswerAt(limits, HopelessClient(limits), n).allowed && Heeds(limits, HopelessClient(limits), n)
      {
        assert TurnedAway(limits, HopelessClient(limits), n);
      }
      assert StarvesHeeding(limits, HopelessClient(limits), 0);
    } else if limits.maxRequests < limits.window {
      TardyInOrder(limits);
      forall n | limits.window - 1 <= n
        ensures !AnswerAt(limits, TardyClient(limits), n).allowed && Heeds(limits, TardyClient(limits), n)
      {
        TardyIsTurnedAway(limits, n);
      }
      assert StarvesHeeding(limits, TardyClient(limits), limits.window - 1);
    } else {
      forall arrivals, m | StarvesHeeding(limits, arrivals, m) ensures false {
        var n := AdmittedWithinWindow(limits, arrivals, m);
      }
    }
  }

  const DEFAULT_LIMITS := Limits(100_000, 60)

  /** As configured by default, whoever waits at least as told gets in within sixty retries. */
  lemma DefaultClientGetsIn(arrivals: nat -> real, m: nat) returns (n: nat)
    requires InOrder(arrivals)
    requires forall i | m <= i :: Heeds(DEFAULT_LIMITS, arrivals, i)
    ensures m <= n <= m + 60 && AnswerAt(DEFAULT_LIMITS, arrivals, n).allowed
  {
    n := AdmittedWithinWindow(DEFAULT_LIMITS, arrivals, m);
  }
}
