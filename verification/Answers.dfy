/**
 What the metering endpoint does and answers, without the functions that compute it: the row it writes, every figure of
 its response, the quota that decides, and the turn of the month.
 */
module Answers {
  import opened Types
  import opened Tables
  import opened Ledger
  import opened Calendar
  import opened Billing
  import opened Money
  import opened Metering
  import opened Limits

  /** Usage of a type in the month of `now`. */
  function UsedIn(ledger: Ledger, tenant: TenantId, u: UsageType, now: nat): nat {
    Total(ledger, OfType(tenant, u, MonthStart(MonthOf(now))), QuantityOf())
  }

  /** The quota a request is held to. */
  function QuotaFor(plan: Plan, req: MeterRequest): int {
    if req.usageType == ApiCall then plan.apiCallQuota else plan.aiTokenQuota
  }

  /** The 200 that reports this event; what remains of the quota is told under its own name. */
  function ReplyWith(req: MeterRequest, id: string, quantity: Quantity, cost: nat, remaining: int): MeterOutcome {
    Metered(
      if req.usageType == ApiCall then MeterResponse(id, ApiCall, quantity, cost, remaining, 0)
      else MeterResponse(id, req.usageType, quantity, cost, 0, remaining))
  }

  /** No row has the request's tenant, key and type. */
  ghost predicate Unused(ledger: Ledger, req: MeterRequest) {
    forall e | e in ledger :: !(e.tenant == req.tenant && e.key == req.key && e.usageType == req.usageType)
  }

  function CostOfRequest(pricing: Pricing, req: MeterRequest): nat {
    CalculateCostMicrounits(req.quantity,
      match req.usageType
      case ApiCall => pricing.apiCall
      case InputTokens => pricing.inputTokens
      case CachedInputTokens => pricing.cachedInputTokens
      case OutputTokens => pricing.outputTokens
      case ReasoningTokens => pricing.reasoningTokens)
  }

  /** A request of a covered tenant with an unused triple: it is recorded, as a row of its own made now, exactly
      when the month's usage of its type and its quantity are within the quota of that type, and is then told what
      remains; otherwise nothing is written and it is told what is used, the limit and what it asked for. */
  lemma NewRequestExactly(pricing: Pricing, ledger: Ledger, tables: Tables, req: MeterRequest, eventId: string,
                          now: nat,
                          i: nat)
    requires Consistent(tables) && LiveRowAt(tables, req.tenant, i)
    requires Unused(ledger, req)
    ensures var limit := QuotaFor(tables.plans[tables.subs[i].plan], req);
            var used, cost := UsedIn(ledger, req.tenant, req.usageType, now), CostOfRequest(pricing, req);
            var row := UsageEvent(eventId, req.tenant, req.key, req.usageType, req.quantity, cost, now);
            Record(pricing, ledger, tables, req, eventId, now) ==
              if used + req.quantity <= limit then
                (ledger + [row], ReplyWith(req, eventId, req.quantity, cost, limit - used - req.quantity))
              else
                (ledger, QuotaExceeded(used, limit, req.quantity))
  {
    LiveRowIsRead(tables, req.tenant);
    NewUnderPlan(pricing, ledger, tables.plans[tables.subs[i].plan], req, eventId, now);
  }

  lemma NewUnderPlan(pricing: Pricing, ledger: Ledger, plan: Plan, req: MeterRequest, eventId: string, now: nat)
    requires Unused(ledger, req)
    ensures var limit, used := QuotaFor(plan, req), UsedIn(ledger, req.tenant, req.usageType, now);
            var cost := CostOfRequest(pricing, req);
            var row := UsageEvent(eventId, req.tenant, req.key, req.usageType, req.quantity, cost, now);
            RecordUnder(pricing, ledger, Covered(plan), req, eventId, now) ==
              if used + req.quantity <= limit then
                (ledger + [row], ReplyWith(req, eventId, req.quantity, cost, limit - used - req.quantity))
              else
                (ledger, QuotaExceeded(used, limit, req.quantity))
  {
    SumsAreTotals(ledger, req.tenant, req.usageType, MonthStart(MonthOf(now)));
    assert Find(ledger, req.tenant, req.key, req.usageType).None?;
  }

  /** A request whose triple has a row: nothing is written, and the row is what a 200 reports. */
  lemma RepeatedRequestExactly(pricing: Pricing, ledger: Ledger, tables: Tables, req: MeterRequest, eventId: string,
                               now: nat, i: nat, event: UsageEvent)
    requires Consistent(tables) && LiveRowAt(tables, req.tenant, i) && UniqueTriples(ledger)
    requires event in ledger && event.tenant == req.tenant && event.key == req.key && event.usageType == req.usageType
    ensures var limit := QuotaFor(tables.plans[tables.subs[i].plan], req);
            var used := UsedIn(ledger, req.tenant, req.usageType, now);
            Record(pricing, ledger, tables, req, eventId, now) ==
              (ledger,
               if used + req.quantity <= limit then
                 ReplyWith(req, event.id, event.quantity, event.cost, limit - used - req.quantity)
               else
                 QuotaExceeded(used, limit, req.quantity))
  {
    LiveRowIsRead(tables, req.tenant);
    SumsAreTotals(ledger, req.tenant, req.usageType, MonthStart(MonthOf(now)));
    FindIsThatRow(ledger, event);
  }

  /** A request of a tenant without a live row, or whose plan is gone: payment required, nothing written. */
  lemma UncoveredRequestExactly(pricing: Pricing, ledger: Ledger, tables: Tables, req: MeterRequest, eventId: string,
                                now: nat)
    requires Consistent(tables) && forall i: nat :: !LiveRowAt(tables, req.tenant, i)
    ensures Record(pricing, ledger, tables, req, eventId, now) == (ledger, PaymentRequired)
  {
    LiveRowIsRead(tables, req.tenant);
  }

  /** Over every serial run the month's API calls stay within the largest API quota, whatever the token quotas are. */
  lemma ApiCallCeiling(cfg: Config, core: Core, steps: seq<Step>, tenant: TenantId, quota: nat)
    requires WellFormed(core) && UsedIn(core.ledger, tenant, ApiCall, core.now) <= quota
    requires forall tier | tier in core.store.tables.plans :: core.store.tables.plans[tier].apiCallQuota <= quota
    ensures var final := CoreRun(cfg, core, steps); UsedIn(final.ledger, tenant, ApiCall, final.now) <= quota
  {
    var final := CoreRun(cfg, core, steps);
    SumsAreTotals(core.ledger, tenant, ApiCall, MonthStart(MonthOf(core.now)));
    SerialCeiling(cfg, core, steps, tenant, ApiCall, quota);
    SumsAreTotals(final.ledger, tenant, ApiCall, MonthStart(MonthOf(final.now)));
  }

  // ----- The turn of the month -----

  ghost predicate RowsInPast(core: Core) {
    forall e | e in core.ledger :: e.createdAt <= core.now
  }

  lemma StepKeepsRowsInPast(cfg: Config, core: Core, step: Step)
    requires RowsInPast(core)
    ensures RowsInPast(CoreStep(cfg, core, step).0)
  {
    if step.Meter? {
      var row := NewRow(cfg.pricing, step.request, step.eventId, core.now);
      assert CoreStep(cfg, core, step).0.ledger in {core.ledger, core.ledger + [row]};
    }
  }

  lemma {:induction false} RunKeepsRowsInPast(cfg: Config, core: Core, steps: seq<Step>)
    requires RowsInPast(core)
    ensures RowsInPast(CoreRun(cfg, core, steps))
  {
    if steps != [] {
      RunKeepsRowsInPast(cfg, core, steps[..|steps| - 1]);
      StepKeepsRowsInPast(cfg, CoreRun(cfg, core, steps[..|steps| - 1]), steps[|steps| - 1]);
    }
  }

  lemma NothingSince(ledger: Ledger, tenant: TenantId, u: UsageType, start: nat)
    requires forall e | e in ledger :: e.createdAt < start
    ensures MonthlyUsage(ledger, tenant, u, start) == Total(ledger, OfType(tenant, u, start), QuantityOf()) == 0
    ensures MonthlyTokens(ledger, tenant, start) == 0 && MonthlyCost(ledger, tenant, start) == 0
    ensures Breakdown(ledger, tenant, start) == map[]
  {
    OldRowsDoNotCount(ledger, [], tenant, u, start);
    assert ledger + [] == ledger;
    SumsAreTotals(ledger, tenant, u, start);
  }

  /** When the clock passes into a later month, in any state a run can reach, every current sum is zero. */
  lemma NewMonthStartsAtZero(cfg: Config, core: Core, seconds: nat, tenant: TenantId, u: UsageType)
    requires RowsInPast(core) && MonthOf(core.now) < MonthOf(core.now + seconds)
    ensures var later := CoreStep(cfg, core, Tick(seconds)).0;
            var start := StartOfMonth(later.now);
            && later == core.(now := core.now + seconds)
            && MonthlyUsage(later.ledger, tenant, u, start) == UsedIn(later.ledger, tenant, u, later.now) == 0
            && MonthlyTokens(later.ledger, tenant, start) == 0 && MonthlyCost(later.ledger, tenant, start) == 0
            && Breakdown(later.ledger, tenant, start) == map[]
  {
    NothingYet(core.ledger, core.now, core.now + seconds, tenant, u);
  }

  lemma NothingYet(ledger: Ledger, now: nat, later: nat, tenant: TenantId, u: UsageType)
    requires MonthOf(now) < MonthOf(later) && forall e | e in ledger :: e.createdAt <= now
    ensures var start := StartOfMonth(later);
            && MonthlyUsage(ledger, tenant, u, start) == UsedIn(ledger, tenant, u, later) == 0
            && MonthlyTokens(ledger, tenant, start) == 0 && MonthlyCost(ledger, tenant, start) == 0
            && Breakdown(ledger, tenant, start) == map[]
  {
    LaterMonthStartsLater(now, later);
    NothingSince(ledger, tenant, u, StartOfMonth(later));
  }

  lemma LaterMonthStartsLater(now: nat, later: nat)
    requires MonthOf(now) < MonthOf(later)
    ensures now < StartOfMonth(later)
  {
    if MonthOf(now) + 1 < MonthOf(later) {
      MonthStartIncreases(MonthOf(now) + 1, MonthOf(later));
    }
  }

  /** Against a ledger with nothing of this month, a request is recorded whenever it is within the quota by itself. */
  lemma FirstRecord(pricing: Pricing, ledger: Ledger, tables: Tables, req: MeterRequest, eventId: string, now: nat,
                    i: nat)
    requires Consistent(tables) && LiveRowAt(tables, req.tenant, i)
    requires Unused(ledger, req)
    requires UsedIn(ledger, req.tenant, req.usageType, now) == 0
    requires req.quantity <= QuotaFor(tables.plans[tables.subs[i].plan], req)
    ensures var (after, outcome) := Record(pricing, ledger, tables, req, eventId, now);
            && outcome.Metered? && |after| == |ledger| + 1
            && UsedIn(after, req.tenant, req.usageType, now) == req.quantity
  {
    NewRequestExactly(pricing, ledger, tables, req, eventId, now, i);
    var after := Record(pricing, ledger, tables, req, eventId, now).0;
    assert after[..|ledger|] == ledger;
    StartOfMonthIsMonotone(now, now);
  }

  /** So the first request of a new month is recorded whenever it is within the quota by itself, however much the
      months before it used. */
  lemma FirstRequestOfMonth(cfg: Config, core: Core, seconds: nat, req: MeterRequest, eventId: string, i: nat)
    requires WellFormed(core) && RowsInPast(core) && MonthOf(core.now) < MonthOf(core.now + seconds)
    requires LiveRowAt(core.store.tables, req.tenant, i)
    requires Unused(core.ledger, req)
    requires req.quantity <= QuotaFor(core.store.tables.plans[core.store.tables.subs[i].plan], req)
    ensures var later := CoreStep(cfg, core, Tick(seconds)).0;
            var (after, answer) := CoreStep(cfg, later, Meter(req, eventId, false, false));
            && answer.outcome.Metered? && |after.ledger| == |core.ledger| + 1
            && UsedIn(after.ledger, req.tenant, req.usageType, after.now) == req.quantity
  {
    NewMonthStartsAtZero(cfg, core, seconds, req.tenant, req.usageType);
    FirstRecord(cfg.pricing, core.ledger, core.store.tables, req, eventId, core.now + seconds, i);
  }
}
