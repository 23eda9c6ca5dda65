/**
 The status gate under concurrency. A request reads the subscription once; if the subscription is closed after that,
 the request may still commit. So a closed tenant can gain rows, but only from the transactions that had read its
 subscription before. The webhook holds a connection itself until it commits, so there are fewer of them than
 connections. GateWitness.dfy shows that this many rows can be gained, and when none can.
 */
module StatusRace {
  import opened Types
  import opened Tables
  import opened Ledger
  import opened Billing
  import opened Interleaving
  import opened Limits
  import QuotaRace
  import Idempotency
  import Webhook

  /** A flight of the tenant that read a live subscription and may still commit a row. */
  predicate MayCommit(f: Flight, tenant: TenantId) {
    f.request.tenant == tenant
    && (f.phase.Planned? || f.phase.Admitted? || f.phase.Inserted? || (f.phase.Built? && f.phase.pending.Some?))
  }

  function Committable(flights: seq<Flight>, tenant: TenantId): nat {
    if flights == [] then 0
    else Committable(flights[..|flights| - 1], tenant) + (if MayCommit(flights[|flights| - 1], tenant) then 1 else 0)
  }

  lemma {:induction false} CommittableOfUpdate(flights: seq<Flight>, i: nat, f: Flight, tenant: TenantId)
    requires i < |flights|
    ensures Committable(flights[i := f], tenant) ==
              Committable(flights, tenant) - (if MayCommit(flights[i], tenant) then 1 else 0)
                  + (if MayCommit(f, tenant) then 1 else 0)
  {
    var last := |flights| - 1;
    if i < last {
      CommittableOfUpdate(flights[..last], i, f, tenant);
      assert flights[i := f][..last] == flights[..last][i := f];
    } else {
      assert flights[i := f][..last] == flights[..last];
    }
  }

  lemma {:induction false} CommittableIsOpen(flights: seq<Flight>, tenant: TenantId)
    ensures Committable(flights, tenant) <= Open(flights)
  {
    if flights != [] {
      CommittableIsOpen(flights[..|flights| - 1], tenant);
    }
  }

  /** The tenant's rows, and those it may still get. */
  function Exposure(w: World, tenant: TenantId): nat {
    |RowsOf(w.ledger, tenant)| + Committable(w.flights, tenant)
  }

  ghost predicate Behind(w: World, i: nat, tenant: TenantId, stripeId: string) {
    Consistent(w.store.tables) && Closed(w.store.tables, i, tenant, stripeId)
  }

  lemma StepKeepsExposure(setup: Setup, w: World, step: Step, i: nat, tenant: TenantId, stripeId: string)
    requires Behind(w, i, tenant, stripeId) && Idempotency.FlightsSound(w)
    requires step.Stripe? ==> !Reopens(step.delivery.body, stripeId)
    ensures var after := Apply(setup, w, step);
            Behind(after, i, tenant, stripeId) && Exposure(after, tenant) <= Exposure(w, tenant)
  {
    match step
    case Arrive(req, cached) =>
      assert (w.flights + [Arrival(w, req, cached)])[..|w.flights|] == w.flights;
    case Stripe(d) => DeliveryAndGate(setup.cfg.proPriceId, w.store, d, i, tenant, stripeId);
    case Forget(_) =>
    case Commit(n) =>
      if n < |w.flights| && w.flights[n].phase.Built? {
        CommitKeepsExposure(setup, w, n, tenant);
      }
    case LookUp(n, _) => MoveKeepsExposure(setup, w, step, n, tenant);
    case ReadSubscription(n) =>
      ClosedMeansRefused(w.store.tables, i, tenant, stripeId);
      MoveKeepsExposure(setup, w, step, n, tenant);
    case ReadUsage(n) => MoveKeepsExposure(setup, w, step, n, tenant);
    case Insert(n, _, _) => MoveKeepsExposure(setup, w, step, n, tenant);
    case Retry(n, _, _) => MoveKeepsExposure(setup, w, step, n, tenant);
    case Build(n, _) => MoveKeepsExposure(setup, w, step, n, tenant);
    case Fail(n) => MoveKeepsExposure(setup, w, step, n, tenant);
  }

  lemma MoveExposure(w: World, after: World, n: nat, phase: Phase, tenant: TenantId)
    requires n < |w.flights| && after.ledger == w.ledger && after.flights == Move(w, n, phase).flights
    requires MayCommit(w.flights[n].(phase := phase), tenant) ==> MayCommit(w.flights[n], tenant)
    ensures Exposure(after, tenant) <= Exposure(w, tenant)
  {
    CommittableOfUpdate(w.flights, n, w.flights[n].(phase := phase), tenant);
  }

  lemma MoveKeepsExposure(setup: Setup, w: World, step: Step, n: nat, tenant: TenantId)
    requires GetActiveByTenant(w.store.tables.subs, tenant) == NoRow || !step.ReadSubscription?
    requires !step.Arrive? && !step.Commit? && !step.Stripe? && !step.Forget? && step.i == n
    ensures var after := Apply(setup, w, step);
            after.store == w.store && Exposure(after, tenant) <= Exposure(w, tenant)
  {
    var after := Apply(setup, w, step);
    if after.flights != w.flights {
      MoveExposure(w, after, n, after.flights[n].phase, tenant);
    }
  }

  lemma CommitKeepsExposure(setup: Setup, w: World, n: nat, tenant: TenantId)
    requires Idempotency.FlightsSound(w) && n < |w.flights| && w.flights[n].phase.Built?
    ensures Exposure(Apply(setup, w, Commit(n)), tenant) <= Exposure(w, tenant)
  {
    var f := w.flights[n];
    assert Idempotency.FlightSound(w, f);
    CommittableOfUpdate(w.flights, n, f.(phase := Finished(Metered(f.phase.reply))), tenant);
    if f.phase.pending.Some? {
      RowsOfAppend(w.ledger, f.phase.pending.value, tenant);
    }
  }

  lemma {:induction false} ExposureOverRun(setup: Setup, w: World, steps: seq<Step>, initial: Ledger, i: nat,
                                           tenant: TenantId, stripeId: string)
    requires Behind(w, i, tenant, stripeId) && Idempotency.Invariant(w, initial)
    requires forall s | s in steps && s.Stripe? :: !Reopens(s.delivery.body, stripeId)
    ensures var final := Run(setup, w, steps);
            && Behind(final, i, tenant, stripeId) && Idempotency.Invariant(final, initial)
            && Exposure(final, tenant) <= Exposure(w, tenant)
  {
    if steps != [] {
      var before, last := steps[..|steps| - 1], steps[|steps| - 1];
      ExposureOverRun(setup, w, before, initial, i, tenant, stripeId);
      StepKeepsExposure(setup, Run(setup, w, before), last, i, tenant, stripeId);
      Idempotency.StepIsSound(setup, Run(setup, w, before), last, initial);
    }
  }

  /** The closing event is processed now: its handler succeeds and its session got a connection, held until the
      commit. */
  ghost predicate ClosesNow(setup: Setup, w: World, closing: Webhook.Delivery, i: nat, tenant: TenantId,
                            stripeId: string) {
    && OwnsRow(w.store.tables, i, tenant, stripeId) && Closes(closing.body, stripeId)
    && Open(w.flights) < setup.pool
    && Webhook.Deliver(setup.cfg.proPriceId, w.store, closing).1 == Webhook.Processed
  }

  ghost predicate NoneReopens(steps: seq<Step>, stripeId: string) {
    forall s | s in steps && s.Stripe? :: !Reopens(s.delivery.body, stripeId)
  }

  /** A run from an initial world, a closing event, and a run without a reopening one. */
  ghost predicate ClosedRun(setup: Setup, w: World, prefix: seq<Step>, closing: Webhook.Delivery, steps: seq<Step>,
                            i: nat, tenant: TenantId, stripeId: string) {
    Initial(w) && ClosesNow(setup, Run(setup, w, prefix), closing, i, tenant, stripeId) && NoneReopens(steps, stripeId)
  }

  /** The tenant's rows written after the closing event. */
  function Gained(setup: Setup, mid: World, closing: Webhook.Delivery, steps: seq<Step>, tenant: TenantId): int {
    |RowsOf(Run(setup, Apply(setup, mid, Stripe(closing)), steps).ledger, tenant)| - |RowsOf(mid.ledger, tenant)|
  }

  lemma GainedAfterClosing(setup: Setup, mid: World, closing: Webhook.Delivery, steps: seq<Step>, initial: Ledger,
                           i: nat, tenant: TenantId, stripeId: string)
    requires Consistent(mid.store.tables) && Idempotency.Invariant(mid, initial)
    requires ClosesNow(setup, mid, closing, i, tenant, stripeId) && NoneReopens(steps, stripeId)
    ensures Gained(setup, mid, closing, steps, tenant) <= Committable(mid.flights, tenant)
    ensures ReadPlan(Run(setup, Apply(setup, mid, Stripe(closing)), steps).store.tables, tenant) == Refused
  {
    DeliveryAndGate(setup.cfg.proPriceId, mid.store, closing, i, tenant, stripeId);
    var shut := Apply(setup, mid, Stripe(closing));
    Idempotency.StepIsSound(setup, mid, Stripe(closing), initial);
    ExposureOverRun(setup, shut, steps, initial, i, tenant, stripeId);
    ClosedMeansRefused(Run(setup, shut, steps).store.tables, i, tenant, stripeId);
  }

  /** However requests and webhooks interleave: when a closing event has been processed, a run without reopening
      events adds for the tenant at most as many rows as it had transactions past the subscription check, which is
      less than the pool, and none if it had none. */
  lemma ClosedTenantGainsLessThanPool(setup: Setup, w: World, prefix: seq<Step>, closing: Webhook.Delivery,
                                      steps: seq<Step>,
                                      i: nat, tenant: TenantId, stripeId: string)
    requires ClosedRun(setup, w, prefix, closing, steps, i, tenant, stripeId)
    ensures var mid := Run(setup, w, prefix);
            && Gained(setup, mid, closing, steps, tenant) <= Committable(mid.flights, tenant) <= setup.pool - 1
            && ReadPlan(Run(setup, Apply(setup, mid, Stripe(closing)), steps).store.tables, tenant) == Refused
  {
    var mid := Run(setup, w, prefix);
    Idempotency.RunIsSound(setup, w, prefix);
    RunStaysInPool(setup, w, prefix);
    CommittableIsOpen(mid.flights, tenant);
    GainedAfterClosing(setup, mid, closing, steps, w.ledger, i, tenant, stripeId);
  }

  /** Some limit that every plan respects. */
  lemma SomeLimit(plans: map<PlanTier, Plan>, u: UsageType, used: nat) returns (limit: nat)
    ensures LimitedBy(plans, u, limit) && used <= limit
  {
    var free := if Free in plans then Abs(LimitFor(plans[Free], u)) else 0;
    var pro := if Pro in plans then Abs(LimitFor(plans[Pro], u)) else 0;
    limit := used + free + pro;
    forall tier | tier in plans ensures LimitFor(plans[tier], u) <= limit {
      assert tier == Free || tier == Pro;
    }
  }

  /** The pool is never oversubscribed and the tables keep their constraints. */
  lemma RunStaysInPool(setup: Setup, w: World, steps: seq<Step>)
    requires Initial(w)
    ensures var final := Run(setup, w, steps); Open(final.flights) <= setup.pool && Consistent(final.store.tables)
  {
    var limit := SomeLimit(w.store.tables.plans, ApiCall, QuotaRace.Used(setup, w, "", ApiCall));
    QuotaRace.RunInBounds(setup, w, steps, "", ApiCall, limit);
  }
}
