/**
 What serial runs guarantee about quotas and subscription status: the limit per usage type, the larger
 ceiling over the four token types together and a run that reaches it, the reported remaining
 quota, and the status gate.
 */
module Limits {
  import opened Types
  import opened Tables
  import opened Ledger
  import opened Calendar
  import opened Billing
  import opened Metering
  import Webhook

  // ----- The limit per usage type -----

  ghost predicate LimitedBy(plans: map<PlanTier, Plan>, u: UsageType, limit: nat) {
    forall tier | tier in plans ::
      (if u == ApiCall then plans[tier].apiCallQuota else plans[tier].aiTokenQuota) <= limit
  }

  function UsedNow(core: Core, tenant: TenantId, u: UsageType): nat {
    MonthlyUsage(core.ledger, tenant, u, StartOfMonth(core.now))
  }

  lemma PlansAreFixed(cfg: Config, core: Core, step: Step)
    requires WellFormed(core)
    ensures CoreStep(cfg, core, step).0.store.tables.plans == core.store.tables.plans
  {
    if step.Stripe? {
      Webhook.AllOrNothing(cfg.proPriceId, core.store, step.delivery);
      if Webhook.Deliver(cfg.proPriceId, core.store, step.delivery).1 == Webhook.Processed {
        Webhook.HandleKeepsTables(cfg.proPriceId, core.store.tables, step.delivery);
      }
    }
  }

  /** What one recorded request does to every monthly sum: nothing, or its own quantity to its own tenant and
      type, and then the sum it was checked against plus the quantity is within the plan's limit. */
  lemma RecordedUsage(pricing: Pricing, ledger: Ledger, read: PlanRead, req: MeterRequest, eventId: string, now: nat,
                      tenant: TenantId, u: UsageType)
    ensures var start := StartOfMonth(now);
            var after := RecordUnder(pricing, ledger, read, req, eventId, now).0;
            var before, used := MonthlyUsage(ledger, tenant, u, start), MonthlyUsage(after, tenant, u, start);
            used == before
            || (&& tenant == req.tenant && u == req.usageType && used == before + req.quantity
                && read.Covered? && used <= LimitFor(read.plan, u))
  {
    StartOfMonthIsMonotone(now, now);
    UsageOfAppend(ledger, NewRow(pricing, req, eventId, now), tenant, u, StartOfMonth(now));
  }

  lemma StepKeepsLimit(cfg: Config, core: Core, step: Step, tenant: TenantId, u: UsageType, limit: nat)
    requires WellFormed(core) && LimitedBy(core.store.tables.plans, u, limit) && UsedNow(core, tenant, u) <= limit
    ensures UsedNow(CoreStep(cfg, core, step).0, tenant, u) <= limit
  {
    match step
    case Meter(req, eventId, _, _) =>
      RecordKeepsLimit(cfg.pricing, core, req, eventId, tenant, u, limit);
    case Tick(seconds) =>
      StartOfMonthIsMonotone(core.now, core.now + seconds);
      UsageIsMonotone(core.ledger, [], tenant, u, StartOfMonth(core.now), StartOfMonth(core.now + seconds));
    case _ =>
  }

  lemma RecordKeepsLimit(pricing: Pricing, core: Core, req: MeterRequest, eventId: string,
                         tenant: TenantId, u: UsageType, limit: nat)
    requires LimitedBy(core.store.tables.plans, u, limit) && UsedNow(core, tenant, u) <= limit
    ensures var after := Record(pricing, core.ledger, core.store.tables, req, eventId, core.now).0;
            MonthlyUsage(after, tenant, u, StartOfMonth(core.now)) <= limit
  {
    RecordedUsage(pricing, core.ledger, ReadPlan(core.store.tables, req.tenant), req, eventId, core.now, tenant, u);
    CoveredIsLimited(core.store.tables, req.tenant, u, limit);
  }

  lemma CoveredIsLimited(tables: Tables, tenant: TenantId, u: UsageType, limit: nat)
    requires LimitedBy(tables.plans, u, limit)
    ensures var read := ReadPlan(tables, tenant); read.Covered? ==> LimitFor(read.plan, u) <= limit
  {
  }

  /** Served one at a time, no usage type ever exceeds the limit in the current month, across month ends and
      whatever webhooks do to the subscription, as long as no plan allows more. */
  lemma {:induction false} SerialCeiling(cfg: Config, core: Core, steps: seq<Step>, tenant: TenantId, u: UsageType,
                                         limit: nat)
    requires WellFormed(core) && LimitedBy(core.store.tables.plans, u, limit) && UsedNow(core, tenant, u) <= limit
    ensures var final := CoreRun(cfg, core, steps);
            && WellFormed(final) && final.store.tables.plans == core.store.tables.plans
            && UsedNow(final, tenant, u) <= limit
  {
    if steps != [] {
      var before, last := steps[..|steps| - 1], steps[|steps| - 1];
      SerialCeiling(cfg, core, before, tenant, u, limit);
      var mid := CoreRun(cfg, core, before);
      CoreStepKeepsWellFormed(cfg, mid, last);
      PlansAreFixed(cfg, mid, last);
      StepKeepsLimit(cfg, mid, last, tenant, u, limit);
    }
  }

  // ----- Prices of recorded rows -----

  /** Every run records every row at its own cost, so the rollup's cost agreement holds in every reachable state. */
  lemma {:induction false} RunKeepsPrices(cfg: Config, core: Core, steps: seq<Step>)
    requires PricedBy(cfg.pricing, core.ledger)
    ensures PricedBy(cfg.pricing, CoreRun(cfg, core, steps).ledger)
  {
    if steps != [] {
      var before, last := steps[..|steps| - 1], steps[|steps| - 1];
      RunKeepsPrices(cfg, core, before);
      var mid := CoreRun(cfg, core, before);
      if last.Meter? {
        var row := NewRow(cfg.pricing, last.request, last.eventId, mid.now);
        assert CoreStep(cfg, mid, last).0.ledger in {mid.ledger, mid.ledger + [row]};
      }
    }
  }

  // ----- Reported remaining quota -----

  /** A 200 for a new row reports exactly what is left of the quota of its own kind, API calls or tokens:
      remaining plus the month's sum is that quota. A 200 for an existing row reports no more than what is left.
      The other kind's figure is zero. */
  lemma RemainingIsHonest(pricing: Pricing, ledger: Ledger, read: PlanRead, req: MeterRequest, eventId: string,
                          now: nat)
    requires RecordUnder(pricing, ledger, read, req, eventId, now).1.Metered?
    ensures var (after, outcome) := RecordUnder(pricing, ledger, read, req, eventId, now);
            var api := req.usageType == ApiCall;
            var calls, tokens := outcome.response.remainingApiCalls, outcome.response.remainingTokens;
            var remaining, limit := if api then calls else tokens,
                if api then read.plan.apiCallQuota else read.plan.aiTokenQuota;
            var used := MonthlyUsage(after, req.tenant, req.usageType, StartOfMonth(now));
            && (after != ledger ==> remaining + used == limit)
            && 0 <= remaining <= limit - used
            && (if api then tokens else calls) == 0
  {
    RemainingOfReply(pricing, ledger, read, req, eventId, now);
    UsageAfterRecording(pricing, ledger, read, req, eventId, now);
  }

  /** The reply tells what the request leaves of the quota it was checked against. */
  lemma RemainingOfReply(pricing: Pricing, ledger: Ledger, read: PlanRead, req: MeterRequest, eventId: string,
                         now: nat)
    requires RecordUnder(pricing, ledger, read, req, eventId, now).1.Metered?
    ensures var reply := RecordUnder(pricing, ledger, read, req, eventId, now).1.response;
            var left := MonthlyUsage(ledger, req.tenant, req.usageType, StartOfMonth(now)) + req.quantity;
            if req.usageType == ApiCall then
              reply.remainingApiCalls == read.plan.apiCallQuota - left >= 0 && reply.remainingTokens == 0
            else
              reply.remainingTokens == read.plan.aiTokenQuota - left >= 0 && reply.remainingApiCalls == 0
  {
  }

  lemma UsageAfterRecording(pricing: Pricing, ledger: Ledger, read: PlanRead, req: MeterRequest, eventId: string,
                            now: nat)
    ensures var after := RecordUnder(pricing, ledger, read, req, eventId, now).0;
            var used := MonthlyUsage(ledger, req.tenant, req.usageType, StartOfMonth(now));
            MonthlyUsage(after, req.tenant, req.usageType, StartOfMonth(now)) ==
              if after != ledger then used + req.quantity else used
  {
    var row := NewRow(pricing, req, eventId, now);
    StartOfMonthIsMonotone(now, now);
    UsageOfAppend(ledger, row, req.tenant, req.usageType, StartOfMonth(now));
    assert |ledger + [row]| != |ledger|;
  }

  /** The database alone answers an immediate replay of an accepted request exactly when the quota has room for
      the quantity twice: the check comes before the row is looked for and counts it already. The ledger is safe
      either way. */
  lemma ReplayNeedsRoomTwice(pricing: Pricing, ledger: Ledger, read: PlanRead, req: MeterRequest, eventId: string,
                             retryId: string, now: nat)
    requires UniqueTriples(ledger)
    requires var (after, outcome) := RecordUnder(pricing, ledger, read, req, eventId, now);
             outcome.Metered? && after != ledger
    ensures var (after, first) := RecordUnder(pricing, ledger, read, req, eventId, now);
            var (again, second) := RecordUnder(pricing, after, read, req, retryId, now);
            var used := MonthlyUsage(ledger, req.tenant, req.usageType, StartOfMonth(now));
            && again == after
            && (second.Metered? <==> used + 2 * req.quantity <= LimitFor(read.plan, req.usageType))
            && (if second.Metered? then SameEvent(second.response, first.response) else second.QuotaExceeded?)
  {
    var row := NewRow(pricing, req, eventId, now);
    StartOfMonthIsMonotone(now, now);
    UsageOfAppend(ledger, row, req.tenant, req.usageType, StartOfMonth(now));
    assert InsertOrExisting(ledger, row) == (ledger + [row], row);
    InsertedIsFound(ledger, row, NewRow(pricing, req, retryId, now));
  }

  /** Asked again while the ledger has the row of its triple, at any time, for any quantity and whatever has been
      recorded since, the database alone answers 200 for that row exactly when the plan read covers the tenant and
      the quota has room for the quantity once more. Nothing is written either way. */
  lemma ReplayExactly(pricing: Pricing, ledger: Ledger, read: PlanRead, req: MeterRequest, retryId: string, now: nat,
                      event: UsageEvent)
    requires UniqueTriples(ledger) && event in ledger && HasTriple(event, req.tenant, req.key, req.usageType)
    ensures var (after, outcome) := RecordUnder(pricing, ledger, read, req, retryId, now);
            var used := MonthlyUsage(ledger, req.tenant, req.usageType, StartOfMonth(now));
            && after == ledger
            && (outcome.Metered? <==> read.Covered? && used + req.quantity <= LimitFor(read.plan, req.usageType))
            && (outcome.Metered? ==> Reports(outcome.response, event))
  {
    FindIsThatRow(ledger, event);
  }

  lemma {:induction false} CoreRunExtends(cfg: Config, core: Core, steps: seq<Step>)
    requires WellFormed(core)
    ensures WellFormed(CoreRun(cfg, core, steps)) && core.ledger <= CoreRun(cfg, core, steps).ledger
  {
    if steps != [] {
      CoreRunExtends(cfg, core, steps[..|steps| - 1]);
      CoreStepKeepsWellFormed(cfg, CoreRun(cfg, core, steps[..|steps| - 1]), steps[|steps| - 1]);
    }
  }

  /** So after any run from a state that has the row: a replay is answered 200 for that row exactly when the
      tenant is covered then and the month's usage leaves room for the quantity, and never changes anything. */
  lemma ReplayAfterRun(cfg: Config, core: Core, steps: seq<Step>, req: MeterRequest, retryId: string, event: UsageEvent)
    requires WellFormed(core) && event in core.ledger && HasTriple(event, req.tenant, req.key, req.usageType)
    ensures var now := CoreRun(cfg, core, steps);
            var (after, answer) := CoreStep(cfg, now, Meter(req, retryId, false, false));
            var read := ReadPlan(now.store.tables, req.tenant);
            && after == now
            && (answer.outcome.Metered? <==>
                  read.Covered?
                  && UsedNow(now, req.tenant, req.usageType) + req.quantity <= LimitFor(read.plan, req.usageType))
            && (answer.outcome.Metered? ==> Reports(answer.outcome.response, event))
  {
    var now := CoreRun(cfg, core, steps);
    CoreRunExtends(cfg, core, steps);
    ReplayExactly(cfg.pricing, now.ledger, ReadPlan(now.store.tables, req.tenant), req, retryId, now.now, event);
  }

  lemma InsertedIsFound(ledger: Ledger, row: UsageEvent, replay: UsageEvent)
    requires UniqueTriples(ledger) && SameTriple(replay, row) && Find(ledger, row.tenant, row.key, row.usageType).None?
    ensures InsertOrExisting(ledger + [row], replay) == (ledger + [row], row)
  {
    InsertKeepsUnique(ledger, row);
  }

  // ----- All token types together -----

  function TokensNow(core: Core, tenant: TenantId): nat {
    MonthlyTokens(core.ledger, tenant, StartOfMonth(core.now))
  }

  /** Each token type is held to the token quota by itself, so together they stay within four times the quota. */
  lemma TokenCeiling(cfg: Config, core: Core, steps: seq<Step>, tenant: TenantId, quota: nat)
    requires WellFormed(core) && forall tier | tier in core.store.tables.plans ::
        core.store.tables.plans[tier].aiTokenQuota <= quota
    requires forall u | u != ApiCall :: UsedNow(core, tenant, u) <= quota
    ensures TokensNow(CoreRun(cfg, core, steps), tenant) <= 4 * quota
  {
    var final := CoreRun(cfg, core, steps);
    SerialCeiling(cfg, core, steps, tenant, InputTokens, quota);
    SerialCeiling(cfg, core, steps, tenant, CachedInputTokens, quota);
    SerialCeiling(cfg, core, steps, tenant, OutputTokens, quota);
    SerialCeiling(cfg, core, steps, tenant, ReasoningTokens, quota);
    UsageIsSumOfTypes(final.ledger, tenant, StartOfMonth(final.now));
  }

  /** A tenant on a plan, nothing used yet. */
  function FreshStart(tenant: TenantId, plan: Plan, now: nat): Core {
    var sub := Subscription(tenant, Free, None, Active, None, None, false, None);
    Core(Webhook.Store(Tables(map[Free := plan], map[tenant := Tenant("", None)], [sub]), []), [], now)
  }

  function Chunk(amount: nat): Quantity
    requires amount > 0
  {
    if amount < MAX_QUANTITY then amount else MAX_QUANTITY
  }

  lemma {:induction false} CoreRunAppend(cfg: Config, core: Core, first: seq<Step>, more: seq<Step>)
    ensures CoreRun(cfg, core, first + more) == CoreRun(cfg, CoreRun(cfg, core, first), more)
  {
    if more == [] {
      assert first + more == first;
    } else {
      CoreRunAppend(cfg, core, first, more[..|more| - 1]);
      assert (first + more)[..|first + more| - 1] == first + more[..|more| - 1];
    }
  }

  lemma RecordsFresh(pricing: Pricing, ledger: Ledger, read: PlanRead, req: MeterRequest, eventId: string, now: nat)
    requires read.Covered? && Find(ledger, req.tenant, req.key, req.usageType).None?
    requires MonthlyUsage(ledger, req.tenant, req.usageType, StartOfMonth(now)) + req.quantity <=
        LimitFor(read.plan, req.usageType)
    ensures RecordUnder(pricing, ledger, read, req, eventId, now).0 == ledger + [NewRow(pricing, req, eventId, now)]
  {
  }

  /** One accepted request with an unused key. */
  lemma AcceptOne(cfg: Config, core: Core, tenant: TenantId, u: UsageType, quantity: Quantity, n: nat)
      returns (step: Step)
    requires KeysShorterThan(core.ledger, n) && ReadPlan(core.store.tables, tenant).Covered?
    requires UsedNow(core, tenant, u) + quantity <= LimitFor(ReadPlan(core.store.tables, tenant).plan, u)
    ensures var after := CoreStep(cfg, core, step).0;
            && after.store == core.store && after.now == core.now
            && KeysShorterThan(after.ledger, n + 1)
            && forall v :: UsedNow(after, tenant, v) == UsedNow(core, tenant, v) + (if v == u then quantity else 0)
  {
    var req := MeterRequest(tenant, KeyOfLength(n), u, quantity);
    step := Meter(req, "", false, false);
    var row := NewRow(cfg.pricing, req, "", core.now);
    assert Find(core.ledger, tenant, req.key, u).None?;
    RecordsFresh(cfg.pricing, core.ledger, ReadPlan(core.store.tables, tenant), req, "", core.now);
    StartOfMonthIsMonotone(core.now, core.now);
    forall v {
      UsageOfAppend(core.ledger, row, tenant, v, StartOfMonth(core.now));
    }
  }

  /** Any amount that fits under the limit can be used up, in requests of at most ten million. */
  lemma {:induction false} UseUp(cfg: Config, core: Core, tenant: TenantId, u: UsageType, amount: nat, n: nat)
    returns (steps: seq<Step>, m: nat)
    requires KeysShorterThan(core.ledger, n) && ReadPlan(core.store.tables, tenant).Covered?
    requires UsedNow(core, tenant, u) + amount <= LimitFor(ReadPlan(core.store.tables, tenant).plan, u)
    ensures var final := CoreRun(cfg, core, steps);
            && final.store == core.store && final.now == core.now && KeysShorterThan(final.ledger, m)
            && forall v :: UsedNow(final, tenant, v) == UsedNow(core, tenant, v) + (if v == u then amount else 0)
    decreases amount
  {
    if amount == 0 {
      steps, m := [], n;
    } else {
      var step := AcceptOne(cfg, core, tenant, u, Chunk(amount), n);
      var next := CoreStep(cfg, core, step).0;
      var rest;
      rest, m := UseUp(cfg, next, tenant, u, amount - Chunk(amount), n + 1);
      steps := [step] + rest;
      CoreRunAppend(cfg, core, [step], rest);
      assert [step][..0] == [] && CoreRun(cfg, core, [step]) == next;
    }
  }

  /** The ceiling is reached: for every quota there is a run in which the tenant's token usage is four times its
      quota. */
  lemma TokenCeilingIsReached(cfg: Config, tenant: TenantId, plan: Plan, now: nat) returns (steps: seq<Step>)
    requires plan.aiTokenQuota >= 0
    ensures TokensNow(CoreRun(cfg, FreshStart(tenant, plan, now), steps), tenant) == 4 * plan.aiTokenQuota
  {
    var core := FreshStart(tenant, plan, now);
    assert core.store.tables.subs[..0] == [];
    assert GetActiveByTenant(core.store.tables.subs, tenant) == OneRow(0);
    var quota := plan.aiTokenQuota;
    var s1, n1 := UseUp(cfg, core, tenant, InputTokens, quota, 0);
    var c1 := CoreRun(cfg, core, s1);
    var s2, n2 := UseUp(cfg, c1, tenant, CachedInputTokens, quota, n1);
    var c2 := CoreRun(cfg, c1, s2);
    var s3, n3 := UseUp(cfg, c2, tenant, OutputTokens, quota, n2);
    var c3 := CoreRun(cfg, c2, s3);
    var s4, n4 := UseUp(cfg, c3, tenant, ReasoningTokens, quota, n3);
    steps := s1 + s2 + s3 + s4;
    CoreRunAppend(cfg, core, s1, s2);
    CoreRunAppend(cfg, core, s1 + s2, s3);
    CoreRunAppend(cfg, core, s1 + s2 + s3, s4);
    UsageIsSumOfTypes(CoreRun(cfg, core, steps).ledger, tenant, StartOfMonth(now));
  }

  /** The quota is one budget for the four types, over every run, exactly when it is nothing. */
  lemma OneBudgetExactly(cfg: Config, tenant: TenantId, plan: Plan, now: nat)
    ensures (forall steps ::
               TokensNow(CoreRun(cfg, FreshStart(tenant, plan, now), steps), tenant) <= Max(0, plan.aiTokenQuota))
              <==> plan.aiTokenQuota <= 0
  {
    var core := FreshStart(tenant, plan, now);
    if plan.aiTokenQuota <= 0 {
      forall steps ensures TokensNow(CoreRun(cfg, core, steps), tenant) <= Max(0, plan.aiTokenQuota) {
        TokenCeiling(cfg, core, steps, tenant, 0);
      }
    } else {
      var steps := TokenCeilingIsReached(cfg, tenant, plan, now);
    }
  }

  /** What a caller can check before a request: a token request that writes a row keeps the four types together
      within the quota exactly when their total before and the quantity do; the check itself looks at its own type
      only. */
  lemma BudgetKeptExactly(pricing: Pricing, ledger: Ledger, read: PlanRead, req: MeterRequest, eventId: string,
                          now: nat)
    requires req.usageType != ApiCall && RecordUnder(pricing, ledger, read, req, eventId, now).0 != ledger
    ensures var after, start := RecordUnder(pricing, ledger, read, req, eventId, now).0, StartOfMonth(now);
            && read.Covered?
            && MonthlyUsage(ledger, req.tenant, req.usageType, start) + req.quantity <= read.plan.aiTokenQuota
            && (MonthlyTokens(after, req.tenant, start) <= read.plan.aiTokenQuota <==>
                MonthlyTokens(ledger, req.tenant, start) + req.quantity <= read.plan.aiTokenQuota)
  {
    var row := NewRow(pricing, req, eventId, now);
    StartOfMonthIsMonotone(now, now);
    assert (ledger + [row])[..|ledger|] == ledger;
  }

  // ----- The status gate -----

  /** An event that would make the subscription live again, judged from the event alone. */
  predicate Reopens(body: Webhook.EventBody, stripeId: string) {
    match body
    case CheckoutCompleted(_, s, _) => s == Some(stripeId)
    case PaymentSucceeded(s) => s == Some(stripeId)
    case SubscriptionCreated(sub) => sub.id == stripeId && sub.status in {"active", "trialing", "incomplete"}
    case SubscriptionUpdated(sub) => sub.id == stripeId && sub.status in {"active", "trialing", "incomplete"}
    case _ => false
  }

  /** An event that closes it. */
  predicate Closes(body: Webhook.EventBody, stripeId: string) {
    match body
    case PaymentFailed(s) => s == Some(stripeId) && stripeId != ""
    case SubscriptionDeleted(sub) => sub.id == stripeId
    case _ => false
  }

  /** Row `i` is the tenant's subscription, with this Stripe id. */
  predicate OwnsRow(tables: Tables, i: nat, tenant: TenantId, stripeId: string) {
    i < |tables.subs| && tables.subs[i].tenant == tenant && tables.subs[i].stripeId == Some(stripeId)
  }

  predicate Closed(tables: Tables, i: nat, tenant: TenantId, stripeId: string) {
    OwnsRow(tables, i, tenant, stripeId) && !IsLive(tables.subs[i].status)
  }

  lemma RowStatus(tables: Tables, i: nat, tenant: TenantId, stripeId: string)
    requires Consistent(tables) && OwnsRow(tables, i, tenant, stripeId)
    ensures StatusOf(tables.subs, stripeId) == Some(tables.subs[i].status)
  {
    LookupsAreUnambiguous(tables.subs, stripeId, tenant);
  }

  /** What a handled event does to the status of an owned row. */
  lemma HandledRow(proPriceId: string, tables: Tables, d: Webhook.Delivery, i: nat, tenant: TenantId, stripeId: string)
    requires Consistent(tables) && OwnsRow(tables, i, tenant, stripeId)
        && Webhook.Handle(proPriceId, tables, d).Success?
    ensures var after := Webhook.Handle(proPriceId, tables, d).value;
            var written := Webhook.StatusWritten(tables, d.body);
            && Consistent(after) && OwnsRow(after, i, tenant, stripeId)
            && after.subs[i].status ==
                 if written.Some? && written.value.stripeId == stripeId then written.value.status
                     else tables.subs[i].status
  {
    Webhook.HandleKeepsTables(proPriceId, tables, d);
    Webhook.HandleWritesStatus(proPriceId, tables, d, stripeId);
    RowStatus(tables, i, tenant, stripeId);
    RowStatus(Webhook.Handle(proPriceId, tables, d).value, i, tenant, stripeId);
  }

  lemma WrittenStatus(tables: Tables, body: Webhook.EventBody, i: nat, tenant: TenantId, stripeId: string)
    requires OwnsRow(tables, i, tenant, stripeId)
    ensures var written := Webhook.StatusWritten(tables, body);
            && (Closes(body, stripeId) ==>
                  written.Some? && written.value.stripeId == stripeId && !IsLive(written.value.status))
            && (written.Some? && written.value.stripeId == stripeId && IsLive(written.value.status)
                ==> Reopens(body, stripeId))
  {
  }

  /** A closing event that is processed closes the subscription; and a closed one stays closed under any delivery
      that does not reopen it. */
  lemma DeliveryAndGate(proPriceId: string, store: Webhook.Store, d: Webhook.Delivery, i: nat, tenant: TenantId,
                        stripeId: string)
    requires Consistent(store.tables) && OwnsRow(store.tables, i, tenant, stripeId)
    ensures var (after, outcome) := Webhook.Deliver(proPriceId, store, d);
            && Consistent(after.tables) && OwnsRow(after.tables, i, tenant, stripeId)
            && (Closes(d.body, stripeId) && outcome == Webhook.Processed ==> Closed(after.tables, i, tenant, stripeId))
            && (Closed(store.tables, i, tenant, stripeId) && !Reopens(d.body, stripeId)
                ==> Closed(after.tables, i, tenant, stripeId))
  {
    if Webhook.Deliver(proPriceId, store, d).1 == Webhook.Processed {
      HandledRow(proPriceId, store.tables, d, i, tenant, stripeId);
      WrittenStatus(store.tables, d.body, i, tenant, stripeId);
    }
  }

  function RowsOf(ledger: Ledger, tenant: TenantId): Ledger {
    if ledger == [] then []
    else RowsOf(ledger[..|ledger| - 1], tenant)
           + (if ledger[|ledger| - 1].tenant == tenant then [ledger[|ledger| - 1]] else [])
  }

  lemma RowsOfAppend(ledger: Ledger, row: UsageEvent, tenant: TenantId)
    ensures RowsOf(ledger + [row], tenant) == RowsOf(ledger, tenant) + (if row.tenant == tenant then [row] else [])
  {
    assert (ledger + [row])[..|ledger|] == ledger;
  }

  lemma ClosedMeansRefused(tables: Tables, i: nat, tenant: TenantId, stripeId: string)
    requires Consistent(tables) && Closed(tables, i, tenant, stripeId)
    ensures GetActiveByTenant(tables.subs, tenant) == NoRow && ReadPlan(tables, tenant) == Refused
  {
    forall j | 0 <= j < |tables.subs| && j != i ensures tables.subs[j].tenant != tenant {
      if i < j {
        assert !Clashes(tables.subs[i], tables.subs[j]);
      } else {
        assert !Clashes(tables.subs[j], tables.subs[i]);
      }
    }
    RefusedExactlyWithoutLiveRow(tables, tenant);
  }

  lemma StepBehindGate(cfg: Config, core: Core, step: Step, i: nat, tenant: TenantId, stripeId: string)
    requires WellFormed(core) && Closed(core.store.tables, i, tenant, stripeId)
    requires step.Stripe? ==> !Reopens(step.delivery.body, stripeId)
    ensures var after := CoreStep(cfg, core, step).0;
            && Closed(after.store.tables, i, tenant, stripeId)
            && RowsOf(after.ledger, tenant) == RowsOf(core.ledger, tenant)
  {
    match step
    case Meter(req, eventId, _, _) =>
      ClosedMeansRefused(core.store.tables, i, tenant, stripeId);
      RowsOfAppend(core.ledger, NewRow(cfg.pricing, req, eventId, core.now), tenant);
    case Stripe(d) => DeliveryAndGate(cfg.proPriceId, core.store, d, i, tenant, stripeId);
    case _ =>
  }

  /** From a processed payment failure or deletion on, through any run without an event that reopens the
      subscription, the ledger gains no row for the tenant and every metering request of it is refused. */
  lemma {:induction false} StatusGate(cfg: Config, core: Core, closing: Webhook.Delivery, steps: seq<Step>,
                                      i: nat, tenant: TenantId, stripeId: string)
    requires WellFormed(core) && OwnsRow(core.store.tables, i, tenant, stripeId)
    requires Closes(closing.body, stripeId) && Webhook.Deliver(cfg.proPriceId, core.store, closing).1 ==
        Webhook.Processed
    requires forall s | s in steps && s.Stripe? :: !Reopens(s.delivery.body, stripeId)
    ensures var shut := CoreStep(cfg, core, Stripe(closing)).0;
            var final := CoreRun(cfg, shut, steps);
            && WellFormed(final) && Closed(final.store.tables, i, tenant, stripeId)
            && RowsOf(final.ledger, tenant) == RowsOf(core.ledger, tenant)
            && ReadPlan(final.store.tables, tenant) == Refused
  {
    var shut := CoreStep(cfg, core, Stripe(closing)).0;
    if steps == [] {
      DeliveryAndGate(cfg.proPriceId, core.store, closing, i, tenant, stripeId);
    } else {
      var before, last := steps[..|steps| - 1], steps[|steps| - 1];
      StatusGate(cfg, core, closing, before, i, tenant, stripeId);
      var mid := CoreRun(cfg, shut, before);
      StepBehindGate(cfg, mid, last, i, tenant, stripeId);
      CoreStepKeepsWellFormed(cfg, mid, last);
    }
    ClosedMeansRefused(CoreRun(cfg, shut, steps).store.tables, i, tenant, stripeId);
  }
}
