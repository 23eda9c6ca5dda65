/**
 The quota under concurrency. The check and the insert are not one atomic step, so several requests may pass
 the check against the same committed usage. The main results: an upper bound over every interleaving, a run
 that reaches it for every pool size and limit, and hence exactly when the limit is a hard ceiling.
 */
module QuotaRace {
  import opened Types
  import opened Tables
  import opened Ledger
  import Metering
  import opened Interleaving
  import Limits
  import Webhook

  /** What a flight that passed the check may still add to a monthly sum. */
  function Contribution(f: Flight, tenant: TenantId, u: UsageType): nat {
    if f.request.tenant == tenant && f.request.usageType == u
       && (f.phase.Admitted? || f.phase.Inserted? || (f.phase.Built? && f.phase.pending.Some?))
    then f.request.quantity
    else 0
  }

  function InFlight(flights: seq<Flight>, tenant: TenantId, u: UsageType): nat {
    if flights == [] then 0
    else InFlight(flights[..|flights| - 1], tenant, u) + Contribution(flights[|flights| - 1], tenant, u)
  }

  /** The largest quantity one request can be admitted with. */
  function Cap(limit: nat): nat {
    if limit < 10_000_000 then limit else 10_000_000
  }

  /** n times c, as a sum. */
  function Times(n: nat, c: nat): nat {
    if n == 0 then 0 else Times(n - 1, c) + c
  }

  lemma {:induction false} TimesIsProduct(n: nat, c: nat)
    ensures Times(n, c) == n * c
  {
    if n > 0 {
      TimesIsProduct(n - 1, c);
      assert n * c == (n - 1) * c + c;
    }
  }

  lemma {:induction false} TimesIsMonotone(m: nat, n: nat, c: nat)
    requires m <= n
    ensures Times(m, c) <= Times(n, c)
  {
    if m < n {
      TimesIsMonotone(m, n - 1, c);
    }
  }

  /** How far usage may exceed the limit: one cap for each connection but one. */
  function Slack(setup: Setup, limit: nat): nat {
    if setup.pool == 0 then 0 else Times(setup.pool - 1, Cap(limit))
  }

  lemma SlackIsProduct(setup: Setup, limit: nat)
    requires setup.pool >= 1
    ensures Slack(setup, limit) == (setup.pool - 1) * Cap(limit)
  {
    TimesIsProduct(setup.pool - 1, Cap(limit));
  }

  function Used(setup: Setup, w: World, tenant: TenantId, u: UsageType): nat {
    MonthlyUsage(w.ledger, tenant, u, setup.monthStart)
  }

  /** An uncommitted row is that of its own request, and a request past the check fits under the limit by itself. */
  ghost predicate FlightInBounds(f: Flight, u: UsageType, limit: nat) {
    && (Uncommitted(f).Some? ==>
          var row := Uncommitted(f).value;
          row.tenant == f.request.tenant && row.usageType == f.request.usageType && row.quantity == f.request.quantity)
    && (f.request.usageType == u ==>
          && (f.phase.Planned? ==> f.phase.limit <= limit)
          && (f.phase.Admitted? || f.phase.Inserted? || (f.phase.Built? && f.phase.pending.Some?)
              ==> f.request.quantity <= limit))
  }

  ghost predicate InBounds(setup: Setup, w: World, tenant: TenantId, u: UsageType, limit: nat) {
    && Consistent(w.store.tables)
    && Limits.LimitedBy(w.store.tables.plans, u, limit)
    && Open(w.flights) <= setup.pool
    && (forall i | 0 <= i < |w.flights| :: FlightInBounds(w.flights[i], u, limit))
    && Used(setup, w, tenant, u) + InFlight(w.flights, tenant, u) <= limit + Slack(setup, limit)
  }

  lemma {:induction false} SumsOfUpdate(flights: seq<Flight>, i: nat, f: Flight, tenant: TenantId, u: UsageType)
    requires i < |flights|
    ensures InFlight(flights[i := f], tenant, u) ==
              InFlight(flights, tenant, u) - Contribution(flights[i], tenant, u) + Contribution(f, tenant, u)
    ensures Open(flights[i := f]) ==
              Open(flights) - (if OpenTransaction(flights[i]) then 1 else 0) + (if OpenTransaction(f) then 1 else 0)
  {
    var last := |flights| - 1;
    if i < last {
      SumsOfUpdate(flights[..last], i, f, tenant, u);
      assert flights[i := f][..last] == flights[..last][i := f];
    } else {
      assert flights[i := f][..last] == flights[..last];
    }
  }

  lemma SumsOfAppend(flights: seq<Flight>, f: Flight, tenant: TenantId, u: UsageType)
    ensures InFlight(flights + [f], tenant, u) == InFlight(flights, tenant, u) + Contribution(f, tenant, u)
    ensures Open(flights + [f]) == Open(flights) + (if OpenTransaction(f) then 1 else 0)
  {
    assert (flights + [f])[..|flights|] == flights;
  }

  /** Every contribution is one open transaction and at most one cap. */
  lemma {:induction false} InFlightByOpen(flights: seq<Flight>, tenant: TenantId, u: UsageType, limit: nat)
    requires forall i | 0 <= i < |flights| :: FlightInBounds(flights[i], u, limit)
    ensures InFlight(flights, tenant, u) <= Times(Open(flights), Cap(limit))
  {
    if flights != [] {
      var before, last := flights[..|flights| - 1], flights[|flights| - 1];
      InFlightByOpen(before, tenant, u, limit);
      assert FlightInBounds(last, u, limit);
    }
  }

  /** Leaving out one open transaction, at most `pool - 1` caps are pending. */
  lemma OthersFitTheSlack(setup: Setup, w: World, i: nat, tenant: TenantId, u: UsageType, limit: nat)
    requires InBounds(setup, w, tenant, u, limit) && i < |w.flights| && w.flights[i].phase.Planned?
    ensures InFlight(w.flights, tenant, u) <= Slack(setup, limit)
  {
    var idle := w.flights[i].(phase := Missed(NEW_SESSION));
    var others := w.flights[i := idle];
    SumsOfUpdate(w.flights, i, idle, tenant, u);
    InFlightByOpen(others, tenant, u, limit);
    TimesIsMonotone(Open(others), setup.pool - 1, Cap(limit));
  }

  /** The step that matters: a request passes the check, whatever the others are up to. */
  lemma AdmissionInBounds(setup: Setup, w: World, i: nat, tenant: TenantId, u: UsageType, limit: nat)
    requires InBounds(setup, w, tenant, u, limit)
    ensures InBounds(setup, Apply(setup, w, ReadUsage(i)), tenant, u, limit)
  {
    if i < |w.flights| && w.flights[i].phase.Planned? {
      var f := w.flights[i];
      var phase := UsageResult(setup, w, f.request, f.phase.row, f.phase.limit);
      SumsOfUpdate(w.flights, i, f.(phase := phase), tenant, u);
      assert FlightInBounds(f, u, limit);
      OthersFitTheSlack(setup, w, i, tenant, u, limit);
    }
  }

  lemma ArriveInBounds(setup: Setup, w: World, req: MeterRequest, cached: bool, tenant: TenantId, u: UsageType,
                       limit: nat)
    requires InBounds(setup, w, tenant, u, limit)
    ensures InBounds(setup, Apply(setup, w, Arrive(req, cached)), tenant, u, limit)
  {
    if cached || Open(w.flights) < setup.pool {
      JoinInBounds(setup, w, Arrival(w, req, cached), tenant, u, limit);
    }
  }

  lemma JoinInBounds(setup: Setup, w: World, f: Flight, tenant: TenantId, u: UsageType, limit: nat)
    requires InBounds(setup, w, tenant, u, limit)
    requires f.phase.Arrived? && (f.phase.session.connected ==> Open(w.flights) < setup.pool)
    ensures InBounds(setup, w.(flights := w.flights + [f]), tenant, u, limit)
  {
    SumsOfAppend(w.flights, f, tenant, u);
  }

  /** Any step that moves one flight and adds no contribution. */
  lemma MoveInBounds(setup: Setup, w: World, i: nat, phase: Phase, tenant: TenantId, u: UsageType, limit: nat)
    requires InBounds(setup, w, tenant, u, limit) && i < |w.flights|
    requires var f := w.flights[i].(phase := phase);
             && FlightInBounds(f, u, limit)
             && Contribution(f, tenant, u) <= Contribution(w.flights[i], tenant, u)
             && (OpenTransaction(f) && !OpenTransaction(w.flights[i]) ==> Open(w.flights) < setup.pool)
    ensures InBounds(setup, Move(w, i, phase), tenant, u, limit)
  {
    SumsOfUpdate(w.flights, i, w.flights[i].(phase := phase), tenant, u);
  }

  /** A committed row adds to the sum what its flight contributed while it was pending. */
  lemma CommittedUsage(setup: Setup, w: World, i: nat, tenant: TenantId, u: UsageType, limit: nat)
    requires i < |w.flights| && w.flights[i].phase.Built? && FlightInBounds(w.flights[i], u, limit)
    ensures Used(setup, Apply(setup, w, Commit(i)), tenant, u) <= Used(setup, w, tenant, u)
        + Contribution(w.flights[i], tenant, u)
  {
    var pending := w.flights[i].phase.pending;
    if pending.Some? {
      UsageOfAppend(w.ledger, pending.value, tenant, u, setup.monthStart);
    }
  }

  /** Flight `i` is over and what it contributed is, at most, in the ledger. */
  lemma SettledInBounds(setup: Setup, w: World, after: World, i: nat, f: Flight, tenant: TenantId, u: UsageType,
                        limit: nat)
    requires InBounds(setup, w, tenant, u, limit) && i < |w.flights| && f.phase.Finished?
    requires after.store == w.store && after.flights == w.flights[i := f]
    requires Used(setup, after, tenant, u) <= Used(setup, w, tenant, u) + Contribution(w.flights[i], tenant, u)
    ensures InBounds(setup, after, tenant, u, limit)
  {
    SumsOfUpdate(w.flights, i, f, tenant, u);
  }

  lemma CommitInBounds(setup: Setup, w: World, i: nat, tenant: TenantId, u: UsageType, limit: nat)
    requires InBounds(setup, w, tenant, u, limit)
    ensures InBounds(setup, Apply(setup, w, Commit(i)), tenant, u, limit)
  {
    if i < |w.flights| && w.flights[i].phase.Built? {
      var after := Apply(setup, w, Commit(i));
      CommittedUsage(setup, w, i, tenant, u, limit);
      SettledInBounds(setup, w, after, i, after.flights[i], tenant, u, limit);
    }
  }

  lemma SubscriptionReadInBounds(setup: Setup, w: World, i: nat, tenant: TenantId, u: UsageType, limit: nat)
    requires InBounds(setup, w, tenant, u, limit)
    ensures InBounds(setup, Apply(setup, w, ReadSubscription(i)), tenant, u, limit)
  {
    if CanRead(setup, w, i) {
      var phase := SubscriptionResult(w, w.flights[i].request, w.flights[i].phase.session.loaded);
      MoveInBounds(setup, w, i, phase, tenant, u, limit);
    }
  }

  lemma BuildInBounds(setup: Setup, w: World, i: nat, stored: bool, tenant: TenantId, u: UsageType, limit: nat)
    requires InBounds(setup, w, tenant, u, limit)
    ensures InBounds(setup, Apply(setup, w, Build(i, stored)), tenant, u, limit)
  {
    if i < |w.flights| && (w.flights[i].phase.Inserted? || w.flights[i].phase.Existing?) {
      var f := w.flights[i];
      assert FlightInBounds(f, u, limit);
      var reply := Metering.ResponseFor(f.request, f.phase.event, f.phase.used, f.phase.limit);
      MoveInBounds(setup, w, i, Built(reply, if f.phase.Inserted? then Some(f.phase.event) else None), tenant, u,
          limit);
    }
  }

  lemma LookUpInBounds(setup: Setup, w: World, i: nat, reachable: bool, tenant: TenantId, u: UsageType, limit: nat)
    requires InBounds(setup, w, tenant, u, limit)
    ensures InBounds(setup, Apply(setup, w, LookUp(i, reachable)), tenant, u, limit)
  {
    if i < |w.flights| && w.flights[i].phase.Arrived? {
      MoveInBounds(setup, w, i, LookUpResult(w, w.flights[i].request, w.flights[i].phase.session, reachable), tenant, u,
          limit);
    }
  }

  lemma InsertInBounds(setup: Setup, w: World, i: nat, eventId: string, at: nat, tenant: TenantId, u: UsageType,
                       limit: nat)
    requires InBounds(setup, w, tenant, u, limit)
    ensures InBounds(setup, Apply(setup, w, Insert(i, eventId, at)), tenant, u, limit)
  {
    if i < |w.flights| && w.flights[i].phase.Admitted? && !TripleLocked(w.flights, w.flights[i].request) {
      var f := w.flights[i];
      assert FlightInBounds(f, u, limit);
      MoveInBounds(setup, w, i, InsertResult(setup, w, f.request, eventId, at, f.phase.used, f.phase.limit), tenant, u,
          limit);
    }
  }

  lemma RetryInBounds(setup: Setup, w: World, i: nat, connected: bool, kept: bool, tenant: TenantId, u: UsageType,
                      limit: nat)
    requires InBounds(setup, w, tenant, u, limit)
    ensures InBounds(setup, Apply(setup, w, Retry(i, connected, kept)), tenant, u, limit)
  {
    if i < |w.flights| && (w.flights[i].phase.Planned? || w.flights[i].phase.Admitted?) {
      var session := Session(connected, if kept then Some(w.flights[i].phase.row) else None);
      MoveInBounds(setup, w, i, Missed(session), tenant, u, limit);
    }
  }

  lemma FailInBounds(setup: Setup, w: World, i: nat, tenant: TenantId, u: UsageType, limit: nat)
    requires InBounds(setup, w, tenant, u, limit)
    ensures InBounds(setup, Apply(setup, w, Fail(i)), tenant, u, limit)
  {
    if i < |w.flights| {
      MoveInBounds(setup, w, i, Finished(ServerError), tenant, u, limit);
    }
  }

  lemma StripeInBounds(setup: Setup, w: World, d: Webhook.Delivery, tenant: TenantId, u: UsageType, limit: nat)
    requires InBounds(setup, w, tenant, u, limit)
    ensures InBounds(setup, Apply(setup, w, Stripe(d)), tenant, u, limit)
  {
    if Webhook.Deliver(setup.cfg.proPriceId, w.store, d).1 == Webhook.Processed {
      Webhook.HandleKeepsTables(setup.cfg.proPriceId, w.store.tables, d);
    }
  }

  lemma StepInBounds(setup: Setup, w: World, step: Step, tenant: TenantId, u: UsageType, limit: nat)
    requires InBounds(setup, w, tenant, u, limit)
    ensures InBounds(setup, Apply(setup, w, step), tenant, u, limit)
  {
    match step
    case Arrive(req, cached) => ArriveInBounds(setup, w, req, cached, tenant, u, limit);
    case LookUp(i, reachable) => LookUpInBounds(setup, w, i, reachable, tenant, u, limit);
    case ReadSubscription(i) => SubscriptionReadInBounds(setup, w, i, tenant, u, limit);
    case ReadUsage(i) => AdmissionInBounds(setup, w, i, tenant, u, limit);
    case Insert(i, eventId, at) => InsertInBounds(setup, w, i, eventId, at, tenant, u, limit);
    case Retry(i, connected, kept) => RetryInBounds(setup, w, i, connected, kept, tenant, u, limit);
    case Build(i, stored) => BuildInBounds(setup, w, i, stored, tenant, u, limit);
    case Commit(i) => CommitInBounds(setup, w, i, tenant, u, limit);
    case Fail(i) => FailInBounds(setup, w, i, tenant, u, limit);
    case Forget(_) =>
    case Stripe(d) => StripeInBounds(setup, w, d, tenant, u, limit);
  }

  lemma {:induction false} RunInBounds(setup: Setup, w: World, steps: seq<Step>, tenant: TenantId, u: UsageType,
                                       limit: nat)
    requires Initial(w) && Limits.LimitedBy(w.store.tables.plans, u, limit) && Used(setup, w, tenant, u) <= limit
    ensures InBounds(setup, Run(setup, w, steps), tenant, u, limit)
  {
    if steps != [] {
      RunInBounds(setup, w, steps[..|steps| - 1], tenant, u, limit);
      StepInBounds(setup, Run(setup, w, steps[..|steps| - 1]), steps[|steps| - 1], tenant, u, limit);
    }
  }

  /** Over every interleaving, with webhooks changing subscriptions and plans meanwhile: if no plan allows more
      than `limit`, committed usage plus everything past the check stays within the limit plus one cap for each
      connection but one. */
  lemma QuotaUnderConcurrency(setup: Setup, w: World, steps: seq<Step>, tenant: TenantId, u: UsageType, limit: nat)
    requires setup.pool >= 1 && Initial(w) && Limits.LimitedBy(w.store.tables.plans, u, limit)
    requires Used(setup, w, tenant, u) <= limit
    ensures var final := Run(setup, w, steps);
            Used(setup, final, tenant, u) + InFlight(final.flights, tenant, u) <= limit + (setup.pool - 1) * Cap(limit)
  {
    RunInBounds(setup, w, steps, tenant, u, limit);
    SlackIsProduct(setup, limit);
  }
}
