/**
 Runs that reach the concurrent quota bound, for every pool size and every limit, and the exact condition
 under which the limit is a hard ceiling.

 The run: use the quota up to one cap below the limit, one request at a time; let a full pool of
 requests pass the check side by side; then let each insert and commit.
 */
module QuotaWitness {
  import opened Types
  import opened Tables
  import opened Ledger
  import opened Billing
  import opened Interleaving
  import opened QuotaRace
  import Metering
  import Limits

  /** A tenant alone on a plan with this limit, nothing used, nothing in flight. */
  function FreshWorld(tenant: TenantId, limit: nat): World {
    var core := Limits.FreshStart(tenant, Plan("", limit, limit), 0);
    World(core.store, [], map[], [])
  }

  lemma FreshWorldIsInitial(tenant: TenantId, limit: nat)
    ensures var w := FreshWorld(tenant, limit);
            && Initial(w) && CoveredWith(w, tenant, limit)
            && forall u :: Limits.LimitedBy(w.store.tables.plans, u, limit)
  {
    var w := FreshWorld(tenant, limit);
    assert w.store.tables.subs[..0] == [];
    assert GetActiveByTenant(w.store.tables.subs, tenant) == OneRow(0);
  }

  function LiveRow(w: World, tenant: TenantId): Subscription
    requires ReadPlan(w.store.tables, tenant).Covered?
  {
    w.store.tables.subs[GetActiveByTenant(w.store.tables.subs, tenant).index]
  }

  ghost predicate CoveredWith(w: World, tenant: TenantId, limit: nat) {
    ReadPlan(w.store.tables, tenant).Covered?
    && forall u :: LimitFor(ReadPlan(w.store.tables, tenant).plan, u) == limit
  }

  /** Flights up to `n` are over, the rest have passed the check; the i-th request's key has length i. */
  ghost predicate Queue(w: World, n: nat, tenant: TenantId, u: UsageType, quantity: Quantity) {
    && n <= |w.flights|
    && (forall i | 0 <= i < n :: w.flights[i].phase.Finished?)
    && (forall i | n <= i < |w.flights| ::
          && w.flights[i].phase.Admitted?
          && Asks(w.flights[i].request, i, tenant, u, quantity))
    && KeysShorterThan(w.ledger, n)
  }

  predicate Asks(req: MeterRequest, i: nat, tenant: TenantId, u: UsageType, quantity: Quantity) {
    req.tenant == tenant && |req.key| == i && req.usageType == u && req.quantity == quantity
  }

  lemma {:induction false} OpenInQueue(flights: seq<Flight>, n: nat)
    requires n <= |flights|
    requires forall i | 0 <= i < |flights| :: if i < n then flights[i].phase.Finished? else flights[i].phase.Admitted?
    ensures Open(flights) == |flights| - n
  {
    if flights != [] {
      var last := |flights| - 1;
      OpenInQueue(flights[..last], if n <= last then n else last);
    }
  }

  lemma PassesCheck(setup: Setup, w: World, req: MeterRequest, limit: nat)
    requires Open(w.flights) < setup.pool && CoveredWith(w, req.tenant, limit)
    requires Used(setup, w, req.tenant, req.usageType) + req.quantity <= limit
    ensures var i, used, row := |w.flights|, Used(setup, w, req.tenant, req.usageType), LiveRow(w, req.tenant);
            && Apply(setup, With(w, req, Arrived(NEW_SESSION)), LookUp(i, false)) == With(w, req, Missed(NEW_SESSION))
            && Apply(setup, With(w, req, Missed(NEW_SESSION)), ReadSubscription(i)) == With(w, req, Planned(row, limit))
            && Apply(setup, With(w, req, Planned(row, limit)), ReadUsage(i)) == With(w, req, Admitted(row, used, limit))
  {
    var used, row := Used(setup, w, req.tenant, req.usageType), LiveRow(w, req.tenant);
    MoveLast(w, req, Arrived(NEW_SESSION), Missed(NEW_SESSION));
    MoveLast(w, req, Missed(NEW_SESSION), Planned(row, limit));
    MoveLast(w, req, Planned(row, limit), Admitted(row, used, limit));
    SumsOfAppend(w.flights, Flight(req, Missed(NEW_SESSION)), req.tenant, req.usageType);
  }

  /** A request arrives and passes the check, with nothing in between. */
  lemma CheckFlight(setup: Setup, w: World, req: MeterRequest, limit: nat) returns (steps: seq<Step>, after: World)
    requires Open(w.flights) < setup.pool && CoveredWith(w, req.tenant, limit)
    requires Used(setup, w, req.tenant, req.usageType) + req.quantity <= limit
    ensures Leads(setup, w, steps, after)
    ensures after == With(w, req, Admitted(LiveRow(w, req.tenant), Used(setup, w, req.tenant, req.usageType), limit))
  {
    var i, row := |w.flights|, LiveRow(w, req.tenant);
    steps := [Arrive(req, true), LookUp(i, false), ReadSubscription(i), ReadUsage(i)];
    after := With(w, req, Admitted(row, Used(setup, w, req.tenant, req.usageType), limit));
    PassesCheck(setup, w, req, limit);
    LeadsByFour(setup, steps,
      [w, With(w, req, Arrived(NEW_SESSION)), With(w, req, Missed(NEW_SESSION)), With(w, req, Planned(row, limit)),
          after]);
  }

  /** One more request passes the check. */
  lemma AdmitOne(setup: Setup, w: World, n: nat, tenant: TenantId, u: UsageType, quantity: Quantity, limit: nat)
    returns (steps: seq<Step>, after: World)
    requires Queue(w, n, tenant, u, quantity) && CoveredWith(w, tenant, limit)
    requires |w.flights| - n < setup.pool && Used(setup, w, tenant, u) + quantity <= limit
    ensures Leads(setup, w, steps, after) && Admits(w, after, n, 1, tenant, u, quantity)
  {
    var req := MeterRequest(tenant, KeyOfLength(|w.flights|), u, quantity);
    OpenInQueue(w.flights, n);
    steps, after := CheckFlight(setup, w, req, limit);
  }

  /** From `w`, `count` more requests have passed the check. */
  ghost predicate Admits(w: World, after: World, n: nat, count: nat, tenant: TenantId, u: UsageType,
                         quantity: Quantity) {
    && Queue(after, n, tenant, u, quantity) && |after.flights| == |w.flights| + count
    && after.store == w.store && after.ledger == w.ledger
  }

  function RowOf(setup: Setup, req: MeterRequest): UsageEvent {
    Metering.NewRow(setup.cfg.pricing, req, "", setup.monthStart)
  }

  /** An admitted request inserts, builds its response and commits, with nothing in between. */
  lemma FinishFlight(setup: Setup, w: World, n: nat) returns (steps: seq<Step>, after: World)
    requires n < |w.flights| && w.flights[n].phase.Admitted? && !TripleLocked(w.flights, w.flights[n].request)
    requires var req := w.flights[n].request; Find(w.ledger, req.tenant, req.key, req.usageType).None?
    ensures Leads(setup, w, steps, after) && NoWebhook(steps)
    ensures |after.flights| == |w.flights| && after.flights[n].phase.Finished?
    ensures after == Move(w, n, after.flights[n].phase).(ledger := w.ledger + [RowOf(setup, w.flights[n].request)])
  {
    var f := w.flights[n];
    steps := [Insert(n, "", setup.monthStart), Build(n, false), Commit(n)];
    var w1 := Apply(setup, w, steps[0]);
    assert w1 == Move(w, n, Inserted(RowOf(setup, f.request), f.phase.used, f.phase.limit));
    var w2 := Apply(setup, w1, steps[1]);
    after := Apply(setup, w2, steps[2]);
    LeadsByThree(setup, steps, [w, w1, w2, after]);
  }

  predicate NoWebhook(steps: seq<Step>) {
    forall s | s in steps :: !s.Stripe?
  }

  function Rows(w: World, tenant: TenantId): nat {
    |Limits.RowsOf(w.ledger, tenant)|
  }

  /** From `w`, the requests n to n + count - 1 have inserted and committed. */
  ghost predicate Finishes(setup: Setup, w: World, after: World, n: nat, count: nat, tenant: TenantId, u: UsageType,
                           quantity: Quantity) {
    && Queue(after, n + count, tenant, u, quantity) && |after.flights| == |w.flights|
    && after.store == w.store
    && Used(setup, after, tenant, u) == Used(setup, w, tenant, u) + Times(count, quantity)
    && Rows(after, tenant) == Rows(w, tenant) + count
  }

  /** The first admitted request inserts its row and commits. */
  lemma FinishOne(setup: Setup, w: World, n: nat, tenant: TenantId, u: UsageType, quantity: Quantity)
    returns (steps: seq<Step>, after: World)
    requires Queue(w, n, tenant, u, quantity) && n < |w.flights|
    ensures Leads(setup, w, steps, after) && NoWebhook(steps) && Finishes(setup, w, after, n, 1, tenant, u, quantity)
  {
    var row := RowOf(setup, w.flights[n].request);
    assert Find(w.ledger, tenant, w.flights[n].request.key, u).None?;
    steps, after := FinishFlight(setup, w, n);
    UsageOfAppend(w.ledger, row, tenant, u, setup.monthStart);
    Limits.RowsOfAppend(w.ledger, row, tenant);
    assert Times(1, quantity) == Times(0, quantity) + quantity;
  }

  lemma {:induction false} AdmitMany(setup: Setup, w: World, n: nat, count: nat, tenant: TenantId, u: UsageType,
                                     quantity: Quantity, limit: nat)
    returns (steps: seq<Step>, after: World)
    requires Queue(w, n, tenant, u, quantity) && CoveredWith(w, tenant, limit)
    requires |w.flights| - n + count <= setup.pool && Used(setup, w, tenant, u) + quantity <= limit
    ensures Leads(setup, w, steps, after) && Admits(w, after, n, count, tenant, u, quantity)
    decreases count
  {
    if count == 0 {
      steps, after := [], w;
      LeadsNowhere(setup, w);
    } else {
      var first, mid := AdmitOne(setup, w, n, tenant, u, quantity, limit);
      var rest;
      rest, after := AdmitMany(setup, mid, n, count - 1, tenant, u, quantity, limit);
      steps := first + rest;
      LeadsOn(setup, w, first, mid, rest, after);
    }
  }

  lemma FinishesOneMore(setup: Setup, w: World, mid: World, after: World, n: nat, count: nat, tenant: TenantId,
                        u: UsageType, quantity: Quantity)
    requires count > 0 && Finishes(setup, w, mid, n, count - 1, tenant, u, quantity)
    requires Finishes(setup, mid, after, n + count - 1, 1, tenant, u, quantity)
    ensures Finishes(setup, w, after, n, count, tenant, u, quantity)
  {
    assert Times(1, quantity) == Times(0, quantity) + quantity;
  }

  lemma {:induction false} FinishMany(setup: Setup, w: World, n: nat, count: nat, tenant: TenantId, u: UsageType,
                                      quantity: Quantity)
    returns (steps: seq<Step>, after: World)
    requires Queue(w, n, tenant, u, quantity) && n + count <= |w.flights|
    ensures Leads(setup, w, steps, after) && NoWebhook(steps)
        && Finishes(setup, w, after, n, count, tenant, u, quantity)
    decreases count
  {
    if count == 0 {
      steps, after := [], w;
      LeadsNowhere(setup, w);
    } else {
      var before, mid := FinishMany(setup, w, n, count - 1, tenant, u, quantity);
      var last;
      last, after := FinishOne(setup, mid, n + count - 1, tenant, u, quantity);
      steps := before + last;
      LeadsOn(setup, w, before, mid, last, after);
      FinishesOneMore(setup, w, mid, after, n, count, tenant, u, quantity);
    }
  }

  /** One request at a time, in requests of at most ten million, usage can be brought up to any amount within the
      limit. */
  lemma {:induction false} UseUp(setup: Setup, w: World, tenant: TenantId, u: UsageType, amount: nat, limit: nat)
    returns (steps: seq<Step>, after: World)
    requires setup.pool >= 1 && Queue(w, |w.flights|, tenant, u, 1) && CoveredWith(w, tenant, limit)
    requires Used(setup, w, tenant, u) + amount <= limit
    ensures Leads(setup, w, steps, after)
    ensures Queue(after, |after.flights|, tenant, u, 1) && after.store == w.store
    ensures Used(setup, after, tenant, u) == Used(setup, w, tenant, u) + amount
    decreases amount
  {
    if amount == 0 {
      steps, after := [], w;
      LeadsNowhere(setup, w);
    } else {
      var q := Limits.Chunk(amount);
      var admit, w1 := AdmitOne(setup, w, |w.flights|, tenant, u, q, limit);
      var finish, w2 := FinishOne(setup, w1, |w.flights|, tenant, u, q);
      assert Times(1, q) == Times(0, q) + q;
      var rest;
      rest, after := UseUp(setup, w2, tenant, u, amount - q, limit);
      steps := admit + finish + rest;
      LeadsOn(setup, w, admit, w1, finish, w2);
      LeadsOn(setup, w, admit + finish, w2, rest, after);
    }
  }

  /** From an idle world with nothing used: fill up, then a full pool side by side. */
  lemma Overrun(setup: Setup, w: World, tenant: TenantId, u: UsageType, limit: nat)
      returns (steps: seq<Step>, after: World)
    requires setup.pool >= 1 && limit > 0
    requires Queue(w, |w.flights|, tenant, u, 1) && CoveredWith(w, tenant, limit) && Used(setup, w, tenant, u) == 0
    ensures Leads(setup, w, steps, after)
    ensures Used(setup, after, tenant, u) == limit - Cap(limit) + Times(setup.pool, Cap(limit))
  {
    var q: Quantity := Cap(limit);
    var fill, w1 := UseUp(setup, w, tenant, u, limit - q, limit);
    var admit, w2 := AdmitMany(setup, w1, |w1.flights|, setup.pool, tenant, u, q, limit);
    var finish;
    finish, after := FinishMany(setup, w2, |w1.flights|, setup.pool, tenant, u, q);
    steps := fill + admit + finish;
    LeadsOn(setup, w, fill, w1, admit, w2);
    LeadsOn(setup, w, fill + admit, w2, finish, after);
  }

  /** The bound of QuotaUnderConcurrency is reached, whatever the pool, the limit and the usage type. */
  lemma BoundIsReached(setup: Setup, tenant: TenantId, u: UsageType, limit: nat) returns (steps: seq<Step>)
    requires setup.pool >= 1
    ensures Used(setup, Run(setup, FreshWorld(tenant, limit), steps), tenant, u) == limit
        + (setup.pool - 1) * Cap(limit)
  {
    var after;
    steps, after := LeadsToBound(setup, tenant, u, limit);
    LeadsIsRun(setup, FreshWorld(tenant, limit), steps, after);
    SlackIsProduct(setup, limit);
  }

  lemma LeadsToBound(setup: Setup, tenant: TenantId, u: UsageType, limit: nat) returns (steps: seq<Step>, after: World)
    requires setup.pool >= 1
    ensures Leads(setup, FreshWorld(tenant, limit), steps, after)
    ensures Used(setup, after, tenant, u) == limit + Slack(setup, limit)
  {
    FreshWorldIsInitial(tenant, limit);
    steps, after := [], FreshWorld(tenant, limit);
    if limit > 0 {
      steps, after := Overrun(setup, after, tenant, u, limit);
    } else {
      LeadsNowhere(setup, after);
      TimesIsProduct(setup.pool - 1, Cap(limit));
    }
  }

  lemma NoSlack(setup: Setup, limit: nat)
    requires setup.pool == 1 || (limit == 0 && setup.pool >= 1)
    ensures Slack(setup, limit) == 0
  {
    TimesIsProduct(setup.pool - 1, Cap(limit));
  }

  lemma NoRaceNoOverrun(setup: Setup, tenant: TenantId, u: UsageType, limit: nat, steps: seq<Step>)
    requires setup.pool == 1 || (limit == 0 && setup.pool >= 1)
    ensures Used(setup, Run(setup, FreshWorld(tenant, limit), steps), tenant, u) <= limit
  {
    BoundFromFresh(setup, tenant, u, limit, steps);
    NoSlack(setup, limit);
  }

  /** The limit is never exceeded in any interleaving exactly when the pool serves one request at a time (or the
      limit is zero). With two or more connections, some run exceeds it. */
  lemma HardCeilingExactly(setup: Setup, tenant: TenantId, u: UsageType, limit: nat)
    requires setup.pool >= 1
    ensures (forall steps :: Used(setup, Run(setup, FreshWorld(tenant, limit), steps), tenant, u) <= limit)
              <==> setup.pool == 1 || limit == 0
  {
    if setup.pool == 1 || limit == 0 {
      forall steps ensures Used(setup, Run(setup, FreshWorld(tenant, limit), steps), tenant, u) <= limit {
        NoRaceNoOverrun(setup, tenant, u, limit, steps);
      }
    } else {
      var steps := BoundIsReached(setup, tenant, u, limit);
      SlackIsProduct(setup, limit);
      TimesIsMonotone(1, setup.pool - 1, Cap(limit));
      assert Times(1, Cap(limit)) == Times(0, Cap(limit)) + Cap(limit);
    }
  }

  const DATABASE_POOL_SIZE: nat := 20
  const DATABASE_MAX_OVERFLOW: nat := 10
  const FREE_API_CALL_QUOTA: nat := 5_000

  /** One process with the default pool can let a tenant of the seeded free plan use thirty times its API quota,
      and no more. */
  lemma FreePlanWithDefaultPool(setup: Setup, tenant: TenantId, steps: seq<Step>) returns (worst: seq<Step>)
    requires setup.pool == DATABASE_POOL_SIZE + DATABASE_MAX_OVERFLOW
    ensures Used(setup, Run(setup, FreshWorld(tenant, FREE_API_CALL_QUOTA), worst), tenant, ApiCall) ==
        30 * FREE_API_CALL_QUOTA
    ensures Used(setup, Run(setup, FreshWorld(tenant, FREE_API_CALL_QUOTA), steps), tenant, ApiCall) <=
        30 * FREE_API_CALL_QUOTA
  {
    worst := BoundIsReached(setup, tenant, ApiCall, FREE_API_CALL_QUOTA);
    BoundFromFresh(setup, tenant, ApiCall, FREE_API_CALL_QUOTA, steps);
    SlackIsProduct(setup, FREE_API_CALL_QUOTA);
  }

  lemma BoundFromFresh(setup: Setup, tenant: TenantId, u: UsageType, limit: nat, steps: seq<Step>)
    requires setup.pool >= 1
    ensures Used(setup, Run(setup, FreshWorld(tenant, limit), steps), tenant, u) <= limit + Slack(setup, limit)
  {
    FreshWorldIsInitial(tenant, limit);
    assert Used(setup, FreshWorld(tenant, limit), tenant, u) == 0;
    RunInBounds(setup, FreshWorld(tenant, limit), steps, tenant, u, limit);
  }
}
