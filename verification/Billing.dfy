/**
 Prices, quotas and the monthly rollup: what a check may spend, what an event costs and what the
 usage endpoint reports.
 */
module Billing {
  import opened Types
  import opened Tables
  import opened Ledger
  import opened Calendar
  import opened Money

  /** Micro-units per thousand units, by usage type. */
  datatype Pricing = Pricing(apiCall: int, inputTokens: int, cachedInputTokens: int, outputTokens: int,
                             reasoningTokens: int)

  const DEFAULT_PRICING := Pricing(1_000_000, 150, 75, 600, 600)

  function PriceOf(pricing: Pricing, u: UsageType): int {
    match u
    case ApiCall => pricing.apiCall
    case InputTokens => pricing.inputTokens
    case CachedInputTokens => pricing.cachedInputTokens
    case OutputTokens => pricing.outputTokens
    case ReasoningTokens => pricing.reasoningTokens
  }

  function Calculate(pricing: Pricing, u: UsageType, quantity: int): nat {
    CalculateCostMicrounits(quantity, PriceOf(pricing, u))
  }

  datatype TokenCosts = TokenCosts(input: nat, cachedInput: nat, output: nat)

  /** Reasoning tokens are merged into the output tokens and priced as output. */
  function CalculateTokenBreakdown(pricing: Pricing, input: int, cachedInput: int, output: int,
                                   reasoning: int): TokenCosts {
    TokenCosts(
      Calculate(pricing, InputTokens, input),
      Calculate(pricing, CachedInputTokens, cachedInput),
      Calculate(pricing, OutputTokens, output + reasoning))
  }

  /** Reasoning tokens cost as much as output tokens would, together with them; the other lines by themselves. */
  lemma ReasoningCostsAsOutput(pricing: Pricing, input: int, cachedInput: int, output: int, reasoning: int)
    ensures var costs := CalculateTokenBreakdown(pricing, input, cachedInput, output, reasoning);
            && costs == CalculateTokenBreakdown(pricing, input, cachedInput, output + reasoning, 0)
            && costs.input == CalculateCostMicrounits(input, pricing.inputTokens)
            && costs.cachedInput == CalculateCostMicrounits(cachedInput, pricing.cachedInputTokens)
            && costs.output == CalculateCostMicrounits(output + reasoning, pricing.outputTokens)
  {
  }

  function Abs(a: int): nat {
    if a < 0 then -a else a
  }

  function Max(a: int, b: int): int {
    if a >= b then a else b
  }

  // ----- Quota check -----

  /** `Refused` is a payment-required error; `Ambiguous` is several rows where one was expected. */
  datatype PlanRead = Refused | Ambiguous | Covered(plan: Plan)

  /** The check of the status of the subscription object, after the query that found its row. */
  predicate PassesStatusCheck(status: SubscriptionStatus) {
    match status
    case Active => true
    case PastDue => false
    case Canceled => false
    case Trialing => true
    case Incomplete => true
  }

  /** The plan a subscription object stands for, if its status passes. */
  function PlanOfRow(tables: Tables, sub: Subscription): PlanRead {
    if !PassesStatusCheck(sub.status) then Refused
    else if sub.plan !in tables.plans then Refused
    else Covered(tables.plans[sub.plan])
  }

  /** The plan a tenant is metered under, when the object the query returns is the row as it is now. */
  function ReadPlan(tables: Tables, tenant: TenantId): PlanRead {
    match GetActiveByTenant(tables.subs, tenant)
    case NoRow => Refused
    case ManyRows => Ambiguous
    case OneRow(i) => PlanOfRow(tables, tables.subs[i])
  }

  /** The query selects live rows only, so on a current row the past-due and canceled branches are not taken. */
  lemma StatusBranchesAreDead(tables: Tables, tenant: TenantId)
    ensures var found := GetActiveByTenant(tables.subs, tenant);
            found.OneRow? ==> PassesStatusCheck(tables.subs[found.index].status)
  {
  }

  predicate WillExceed(used: int, requested: int, limit: int) {
    used + requested > limit
  }

  function RemainingAfter(used: int, requested: int, limit: int): int {
    Max(0, limit - (used + requested))
  }

  /** A tenant is refused exactly when none of its rows is live (or its plan is gone). */
  lemma RefusedExactlyWithoutLiveRow(tables: Tables, tenant: TenantId)
    requires Consistent(tables)
    ensures ReadPlan(tables, tenant).Refused? <==>
              forall i | 0 <= i < |tables.subs| :: !(tables.subs[i].tenant == tenant && IsLive(tables.subs[i].status))
    ensures !ReadPlan(tables, tenant).Ambiguous?
  {
    LookupsAreUnambiguous(tables.subs, "", tenant);
    StatusBranchesAreDead(tables, tenant);
    var found := GetActiveByTenant(tables.subs, tenant);
    if found.OneRow? {
      assert References(tables, tables.subs[found.index]);
    }
  }

  // ----- Rollup -----

  datatype UsageReport = UsageReport(
    periodStart: YearMonth, periodEnd: YearMonth,
    plan: string,
    apiUsed: nat, apiLimit: int, apiRemaining: int, apiCents: int,
    tokensUsed: nat, tokenLimit: int, tokensRemaining: int, tokenCents: int,
    inputTokens: nat, cachedInputTokens: nat, outputTokens: nat, reasoningTokens: nat,
    inputCents: int, cachedInputCents: int, outputCents: int,
    totalCents: int)

  /** `NotFound` is the 404 of a tenant with no live subscription. */
  datatype Rollup = NotFound | Unavailable | Report(report: UsageReport)

  function FreshRollup(pricing: Pricing, ledger: Ledger, tables: Tables, tenant: TenantId, now: nat): Rollup {
    match ReadPlan(tables, tenant)
    case Refused => NotFound
    case Ambiguous => Unavailable
    case Covered(plan) => Report(ReportFor(pricing, ledger, plan, tenant, MonthOf(now)))
  }

  function ReportFor(pricing: Pricing, ledger: Ledger, plan: Plan, tenant: TenantId, month: nat): UsageReport {
    var start := MonthStart(month);
    var groups := Breakdown(ledger, tenant, start);
    var api, tokens := Get(groups, ApiCall), TokenTotal(groups);
    var combined := Get(groups, OutputTokens) + Get(groups, ReasoningTokens);
    var costs := CalculateTokenBreakdown(pricing, Get(groups, InputTokens), Get(groups, CachedInputTokens),
      combined, 0);
    UsageReport(
      CivilMonth(month), PeriodEnd(CivilMonth(month)),
      plan.name,
      api, plan.apiCallQuota, Max(0, plan.apiCallQuota - api), MicrounitsToCents(Calculate(pricing, ApiCall, api)),
      tokens, plan.aiTokenQuota, Max(0, plan.aiTokenQuota - tokens),
      MicrounitsToCents(costs.input + costs.cachedInput + costs.output),
      Get(groups, InputTokens), Get(groups, CachedInputTokens), combined, Get(groups, ReasoningTokens),
      MicrounitsToCents(costs.input), MicrounitsToCents(costs.cachedInput), MicrounitsToCents(costs.output),
      MicrounitsToCents(MonthlyCost(ledger, tenant, start)))
  }

  /** The period of a report is its month, up to the start of the next, and its figures are those of the ledger:
      per type, in total, and the three token lines add up. */
  lemma ReportMatchesLedger(pricing: Pricing, ledger: Ledger, plan: Plan, tenant: TenantId, month: nat)
    ensures var r := ReportFor(pricing, ledger, plan, tenant, month);
            var start := MonthStart(month);
            && r.periodStart == CivilMonth(month) && r.periodEnd == CivilMonth(month + 1)
            && r.apiUsed == MonthlyUsage(ledger, tenant, ApiCall, start)
            && r.tokensUsed == MonthlyTokens(ledger, tenant, start)
            && r.tokensUsed == r.inputTokens + r.cachedInputTokens + r.outputTokens
            && r.inputTokens == MonthlyUsage(ledger, tenant, InputTokens, start)
            && r.cachedInputTokens == MonthlyUsage(ledger, tenant, CachedInputTokens, start)
            && r.reasoningTokens == MonthlyUsage(ledger, tenant, ReasoningTokens, start)
            && r.outputTokens == MonthlyUsage(ledger, tenant, OutputTokens, start) + r.reasoningTokens
            && (r.apiUsed <= r.apiLimit ==> r.apiUsed + r.apiRemaining == plan.apiCallQuota)
            && (r.apiUsed > r.apiLimit ==> r.apiRemaining == 0)
            && (r.tokensUsed <= r.tokenLimit ==> r.tokensUsed + r.tokensRemaining == plan.aiTokenQuota)
            && (r.tokensUsed > r.tokenLimit ==> r.tokensRemaining == 0)
  {
    NextCivilMonth(month);
    AggregationsAgree(ledger, tenant, MonthStart(month));
  }

  // ----- What a usage request is told, in the ledger's and the plan's own terms -----

  /** Row i is the tenant's, live, and its plan exists. */
  predicate LiveRowAt(tables: Tables, tenant: TenantId, i: nat) {
    && i < |tables.subs| && tables.subs[i].tenant == tenant && tables.subs[i].plan in tables.plans
    && (tables.subs[i].status == Active || tables.subs[i].status == Trialing || tables.subs[i].status == Incomplete)
  }

  /** The plan read is the one the tenant's live row names; without one the read refuses. */
  lemma LiveRowIsRead(tables: Tables, tenant: TenantId)
    requires Consistent(tables)
    ensures forall i: nat | LiveRowAt(tables, tenant, i) ::
              ReadPlan(tables, tenant) == Covered(tables.plans[tables.subs[i].plan])
    ensures (forall i: nat :: !LiveRowAt(tables, tenant, i)) ==> ReadPlan(tables, tenant) == Refused
  {
    RefusedExactlyWithoutLiveRow(tables, tenant);
    var found := GetActiveByTenant(tables.subs, tenant);
    if found.OneRow? {
      assert References(tables, tables.subs[found.index]);
      assert LiveRowAt(tables, tenant, found.index);
    }
  }

  /** Every figure of a report of the month of `now`: the sums are over the tenant's rows created since the month
      began, the limits and the name are the plan's, and each cost is that of its own line. */
  ghost predicate ReportTells(pricing: Pricing, r: UsageReport, ledger: Ledger, plan: Plan, tenant: TenantId,
                              now: nat) {
    var start := MonthStart(MonthOf(now));
    var api := Total(ledger, OfType(tenant, ApiCall, start), QuantityOf());
    var input := Total(ledger, OfType(tenant, InputTokens, start), QuantityOf());
    var cached := Total(ledger, OfType(tenant, CachedInputTokens, start), QuantityOf());
    var reasoning := Total(ledger, OfType(tenant, ReasoningTokens, start), QuantityOf());
    var output := Total(ledger, OfType(tenant, OutputTokens, start), QuantityOf()) + reasoning;
    var tokens := input + cached + output;
    var inputCost := CalculateCostMicrounits(input, pricing.inputTokens);
    var cachedCost := CalculateCostMicrounits(cached, pricing.cachedInputTokens);
    var outputCost := CalculateCostMicrounits(output, pricing.outputTokens);
    && r.periodStart == CivilMonth(MonthOf(now)) && r.periodEnd == CivilMonth(MonthOf(now) + 1)
    && r.plan == plan.name && r.apiLimit == plan.apiCallQuota && r.tokenLimit == plan.aiTokenQuota
    && r.apiUsed == api && r.apiRemaining == (if api <= plan.apiCallQuota then plan.apiCallQuota - api else 0)
    && r.tokensUsed == tokens && r.tokensRemaining ==
        (if tokens <= plan.aiTokenQuota then plan.aiTokenQuota - tokens else 0)
    && r.inputTokens == input && r.cachedInputTokens == cached && r.outputTokens == output
        && r.reasoningTokens == reasoning
    && r.apiCents == CalculateCostMicrounits(api, pricing.apiCall) / 10_000
    && r.inputCents == inputCost / 10_000 && r.cachedInputCents == cachedCost / 10_000
        && r.outputCents == outputCost / 10_000
    && r.tokenCents == (inputCost + cachedCost + outputCost) / 10_000
    && r.totalCents == Total(ledger, OfTenant(tenant, start), CostOf()) / 10_000
  }

  /** A report of the month of `now` under the plan of the tenant's live row, or not found if there is none. */
  ghost predicate Tells(pricing: Pricing, rollup: Rollup, ledger: Ledger, tables: Tables, tenant: TenantId, now: nat) {
    && (forall i: nat | LiveRowAt(tables, tenant, i) ::
          rollup.Report? && ReportTells(pricing, rollup.report, ledger, tables.plans[tables.subs[i].plan], tenant, now))
    && ((forall i: nat :: !LiveRowAt(tables, tenant, i)) ==> rollup == NotFound)
  }

  lemma ReportForTells(pricing: Pricing, ledger: Ledger, plan: Plan, tenant: TenantId, now: nat)
    ensures ReportTells(pricing, ReportFor(pricing, ledger, plan, tenant, MonthOf(now)), ledger, plan, tenant, now)
  {
    var start := MonthStart(MonthOf(now));
    NextCivilMonth(MonthOf(now));
    SumsAreTotals(ledger, tenant, ApiCall, start);
    SumsAreTotals(ledger, tenant, InputTokens, start);
    SumsAreTotals(ledger, tenant, CachedInputTokens, start);
    SumsAreTotals(ledger, tenant, OutputTokens, start);
    SumsAreTotals(ledger, tenant, ReasoningTokens, start);
  }

  lemma FreshRollupTells(pricing: Pricing, ledger: Ledger, tables: Tables, tenant: TenantId, now: nat)
    requires Consistent(tables)
    ensures Tells(pricing, FreshRollup(pricing, ledger, tables, tenant, now), ledger, tables, tenant, now)
  {
    LiveRowIsRead(tables, tenant);
    forall i: nat | LiveRowAt(tables, tenant, i)
      ensures FreshRollup(pricing, ledger, tables, tenant, now).Report?
              && ReportTells(pricing, FreshRollup(pricing, ledger, tables, tenant, now).report, ledger,
                   tables.plans[tables.subs[i].plan], tenant, now)
    {
      ReportForTells(pricing, ledger, tables.plans[tables.subs[i].plan], tenant, now);
    }
  }

  // ----- Stored total against recomputed cost -----

  /** The quantities of a tenant's counted rows of some types, in ledger order. */
  function Quantities(ledger: Ledger, tenant: TenantId, start: nat, types: set<UsageType>): seq<nat> {
    if ledger == [] then
      []
    else
      var e := ledger[|ledger| - 1];
      Quantities(ledger[..|ledger| - 1], tenant, start, types)
        + (if Counts(e, tenant, start) && e.usageType in types then [e.quantity] else [])
  }

  ghost predicate PricedBy(pricing: Pricing, ledger: Ledger) {
    forall e | e in ledger :: e.cost == Calculate(pricing, e.usageType, e.quantity)
  }

  function RecomputedCost(pricing: Pricing, ledger: Ledger, tenant: TenantId, start: nat): nat {
    var groups := Breakdown(ledger, tenant, start);
    var costs := CalculateTokenBreakdown(pricing, Get(groups, InputTokens), Get(groups, CachedInputTokens),
                   Get(groups, OutputTokens) + Get(groups, ReasoningTokens), 0);
    Calculate(pricing, ApiCall, Get(groups, ApiCall)) + (costs.input + costs.cachedInput + costs.output)
  }

  /** Stored total minus what the report recomputes from the summed quantities. */
  function CostDrift(pricing: Pricing, ledger: Ledger, tenant: TenantId, start: nat): int {
    MonthlyCost(ledger, tenant, start) - RecomputedCost(pricing, ledger, tenant, start)
  }

  function TokenRows(ledger: Ledger, tenant: TenantId, start: nat): nat {
    |Quantities(ledger, tenant, start, {InputTokens, CachedInputTokens, OutputTokens, ReasoningTokens})|
  }

  /** Stored cost of a tenant's counted rows of some types. */
  function CostOfTypes(ledger: Ledger, tenant: TenantId, start: nat, types: set<UsageType>): nat {
    if ledger == [] then
      0
    else
      var e := ledger[|ledger| - 1];
      CostOfTypes(ledger[..|ledger| - 1], tenant, start, types)
        + (if Counts(e, tenant, start) && e.usageType in types then e.cost else 0)
  }

  lemma QuantitiesOfLast(ledger: Ledger, tenant: TenantId, start: nat, types: set<UsageType>, price: int)
    requires ledger != []
    ensures var e := ledger[|ledger| - 1];
            var before := Quantities(ledger[..|ledger| - 1], tenant, start, types);
            var qs := Quantities(ledger, tenant, start, types);
            var hit := Counts(e, tenant, start) && e.usageType in types;
            && |qs| == |before| + (if hit then 1 else 0)
            && Sum(qs) == Sum(before) + (if hit then e.quantity else 0)
            && SumOfCosts(qs, price) == SumOfCosts(before, price)
                + (if hit then CalculateCostMicrounits(e.quantity, price) else 0)
  {
    var qs := Quantities(ledger, tenant, start, types);
    var before := Quantities(ledger[..|ledger| - 1], tenant, start, types);
    if qs != before {
      assert qs[..|qs| - 1] == before;
    }
  }

  lemma {:induction false} QuantitiesOfType(ledger: Ledger, tenant: TenantId, start: nat, u: UsageType)
    ensures Sum(Quantities(ledger, tenant, start, {u})) == MonthlyUsage(ledger, tenant, u, start)
  {
    if ledger != [] {
      QuantitiesOfType(ledger[..|ledger| - 1], tenant, start, u);
      QuantitiesOfLast(ledger, tenant, start, {u}, 0);
    }
  }

  lemma {:induction false} QuantitiesOfPair(ledger: Ledger, tenant: TenantId, start: nat, u: UsageType, v: UsageType)
    requires u != v
    ensures Sum(Quantities(ledger, tenant, start, {u, v})) ==
              MonthlyUsage(ledger, tenant, u, start) + MonthlyUsage(ledger, tenant, v, start)
  {
    if ledger != [] {
      QuantitiesOfPair(ledger[..|ledger| - 1], tenant, start, u, v);
      QuantitiesOfLast(ledger, tenant, start, {u, v}, 0);
    }
  }

  lemma {:induction false} CountOfUnion(ledger: Ledger, tenant: TenantId, start: nat, a: set<UsageType>,
                                        b: set<UsageType>)
    requires a !! b
    ensures |Quantities(ledger, tenant, start, a + b)| ==
              |Quantities(ledger, tenant, start, a)| + |Quantities(ledger, tenant, start, b)|
    ensures CostOfTypes(ledger, tenant, start, a + b) ==
              CostOfTypes(ledger, tenant, start, a) + CostOfTypes(ledger, tenant, start, b)
  {
    if ledger != [] {
      CountOfUnion(ledger[..|ledger| - 1], tenant, start, a, b);
    }
  }

  lemma {:induction false} CostOfPricedTypes(pricing: Pricing, ledger: Ledger, tenant: TenantId, start: nat,
                                             types: set<UsageType>, price: int)
    requires PricedBy(pricing, ledger) && forall u | u in types :: PriceOf(pricing, u) == price
    ensures CostOfTypes(ledger, tenant, start, types) == SumOfCosts(Quantities(ledger, tenant, start, types), price)
  {
    if ledger != [] {
      var before, e := ledger[..|ledger| - 1], ledger[|ledger| - 1];
      assert e in ledger && forall f | f in before :: f in ledger;
      CostOfPricedTypes(pricing, before, tenant, start, types, price);
      QuantitiesOfLast(ledger, tenant, start, types, price);
    }
  }

  lemma {:induction false} CostOfAllTypes(ledger: Ledger, tenant: TenantId, start: nat, types: set<UsageType>)
    requires forall u: UsageType :: u in types
    ensures CostOfTypes(ledger, tenant, start, types) == MonthlyCost(ledger, tenant, start)
  {
    if ledger != [] {
      CostOfAllTypes(ledger[..|ledger| - 1], tenant, start, types);
    }
  }

  lemma {:induction false} CostsOfUnion(ledger: Ledger, tenant: TenantId, start: nat, u: UsageType, v: UsageType,
                                        price: int)
    requires u != v
    ensures SumOfCosts(Quantities(ledger, tenant, start, {u, v}), price) ==
              SumOfCosts(Quantities(ledger, tenant, start, {u}), price)
                  + SumOfCosts(Quantities(ledger, tenant, start, {v}), price)
  {
    if ledger != [] {
      CostsOfUnion(ledger[..|ledger| - 1], tenant, start, u, v, price);
      QuantitiesOfLast(ledger, tenant, start, {u, v}, price);
      QuantitiesOfLast(ledger, tenant, start, {u}, price);
      QuantitiesOfLast(ledger, tenant, start, {v}, price);
    }
  }

  /** Cost of a tenant's rows of one type, each rounded by itself. */
  function CostByEvent(pricing: Pricing, ledger: Ledger, tenant: TenantId, start: nat, u: UsageType): nat {
    SumOfCosts(Quantities(ledger, tenant, start, {u}), PriceOf(pricing, u))
  }

  /** The stored total splits by type into the costs rounded one event at a time. */
  lemma CostSplit(pricing: Pricing, ledger: Ledger, tenant: TenantId, start: nat)
    requires PricedBy(pricing, ledger)
    ensures MonthlyCost(ledger, tenant, start) ==
              CostByEvent(pricing, ledger, tenant, start, ApiCall)
              + CostByEvent(pricing, ledger, tenant, start, InputTokens)
              + CostByEvent(pricing, ledger, tenant, start, CachedInputTokens)
              + CostByEvent(pricing, ledger, tenant, start, OutputTokens)
              + CostByEvent(pricing, ledger, tenant, start, ReasoningTokens)
  {
    forall u {
      CostOfPricedTypes(pricing, ledger, tenant, start, {u}, PriceOf(pricing, u));
    }
    CountOfUnion(ledger, tenant, start, {OutputTokens}, {ReasoningTokens});
    CountOfUnion(ledger, tenant, start, {CachedInputTokens}, {OutputTokens} + {ReasoningTokens});
    CountOfUnion(ledger, tenant, start, {InputTokens}, {CachedInputTokens} + ({OutputTokens} + {ReasoningTokens}));
    var tokens := {InputTokens} + ({CachedInputTokens} + ({OutputTokens} + {ReasoningTokens}));
    CountOfUnion(ledger, tenant, start, {ApiCall}, tokens);
    forall u: UsageType ensures u in {ApiCall} + tokens {
      assert u == ApiCall || u.InputTokens? || u.CachedInputTokens? || u.OutputTokens? || u.ReasoningTokens?;
    }
    CostOfAllTypes(ledger, tenant, start, {ApiCall} + tokens);
  }

  /** What the report leaves out by pricing reasoning tokens as output. */
  function Repricing(pricing: Pricing, ledger: Ledger, tenant: TenantId, start: nat): int {
    CostByEvent(pricing, ledger, tenant, start, ReasoningTokens)
      - SumOfCosts(Quantities(ledger, tenant, start, {ReasoningTokens}), pricing.outputTokens)
  }

  /** The report prices the summed quantities, output and reasoning together. */
  lemma RecomputedParts(pricing: Pricing, ledger: Ledger, tenant: TenantId, start: nat)
    ensures RecomputedCost(pricing, ledger, tenant, start) ==
              CostOfSum(ledger, tenant, start, {ApiCall}, pricing.apiCall)
              + CostOfSum(ledger, tenant, start, {InputTokens}, pricing.inputTokens)
              + CostOfSum(ledger, tenant, start, {CachedInputTokens}, pricing.cachedInputTokens)
              + CostOfSum(ledger, tenant, start, {OutputTokens, ReasoningTokens}, pricing.outputTokens)
  {
    SumOfGroup(ledger, tenant, start, ApiCall);
    SumOfGroup(ledger, tenant, start, InputTokens);
    SumOfGroup(ledger, tenant, start, CachedInputTokens);
    SumOfPair(ledger, tenant, start);
  }

  lemma SumOfGroup(ledger: Ledger, tenant: TenantId, start: nat, u: UsageType)
    ensures Get(Breakdown(ledger, tenant, start), u) == Sum(Quantities(ledger, tenant, start, {u}))
  {
    GroupMatchesFilter(ledger, tenant, start, u);
    QuantitiesOfType(ledger, tenant, start, u);
  }

  lemma SumOfPair(ledger: Ledger, tenant: TenantId, start: nat)
    ensures var groups := Breakdown(ledger, tenant, start);
            Get(groups, OutputTokens) + Get(groups, ReasoningTokens) ==
              Sum(Quantities(ledger, tenant, start, {OutputTokens, ReasoningTokens}))
  {
    GroupMatchesFilter(ledger, tenant, start, OutputTokens);
    GroupMatchesFilter(ledger, tenant, start, ReasoningTokens);
    QuantitiesOfPair(ledger, tenant, start, OutputTokens, ReasoningTokens);
  }

  function CostOfSum(ledger: Ledger, tenant: TenantId, start: nat, types: set<UsageType>, price: int): nat {
    CalculateCostMicrounits(Sum(Quantities(ledger, tenant, start, types)), price)
  }

  /** The drift of the whole rollup: the four categories' rounding drifts, and the reasoning tokens' other price. */
  lemma CostDriftSplit(pricing: Pricing, ledger: Ledger, tenant: TenantId, start: nat)
    requires PricedBy(pricing, ledger)
    ensures CostDrift(pricing, ledger, tenant, start) ==
              Drift(Quantities(ledger, tenant, start, {ApiCall}), pricing.apiCall)
              + Drift(Quantities(ledger, tenant, start, {InputTokens}), pricing.inputTokens)
              + Drift(Quantities(ledger, tenant, start, {CachedInputTokens}), pricing.cachedInputTokens)
              + Drift(Quantities(ledger, tenant, start, {OutputTokens, ReasoningTokens}), pricing.outputTokens)
              + Repricing(pricing, ledger, tenant, start)
  {
    RecomputedParts(pricing, ledger, tenant, start);
    CostsOfUnion(ledger, tenant, start, OutputTokens, ReasoningTokens, pricing.outputTokens);
    CostSplit(pricing, ledger, tenant, start);
  }

  /** The rows whose category is priced so that costs are rounded. */
  function RoundedRows(pricing: Pricing, ledger: Ledger, tenant: TenantId, start: nat): nat {
    (if Rounds(pricing.apiCall) then |Quantities(ledger, tenant, start, {ApiCall})| else 0)
    + (if Rounds(pricing.inputTokens) then |Quantities(ledger, tenant, start, {InputTokens})| else 0)
    + (if Rounds(pricing.cachedInputTokens) then |Quantities(ledger, tenant, start, {CachedInputTokens})| else 0)
    + (if Rounds(pricing.outputTokens) then |Quantities(ledger, tenant, start, {OutputTokens, ReasoningTokens})| else 0)
  }

  lemma CostDriftBound(pricing: Pricing, ledger: Ledger, tenant: TenantId, start: nat)
    requires PricedBy(pricing, ledger)
    ensures 2 * Abs(CostDrift(pricing, ledger, tenant, start) - Repricing(pricing, ledger, tenant, start))
              <= RoundedRows(pricing, ledger, tenant, start)
    ensures Effective(pricing.outputTokens) == Effective(pricing.reasoningTokens)
        ==> Repricing(pricing, ledger, tenant, start) == 0
  {
    CostDriftSplit(pricing, ledger, tenant, start);
    DriftOfRounded(Quantities(ledger, tenant, start, {ApiCall}), pricing.apiCall);
    DriftOfRounded(Quantities(ledger, tenant, start, {InputTokens}), pricing.inputTokens);
    DriftOfRounded(Quantities(ledger, tenant, start, {CachedInputTokens}), pricing.cachedInputTokens);
    DriftOfRounded(Quantities(ledger, tenant, start, {OutputTokens, ReasoningTokens}), pricing.outputTokens);
    if Effective(pricing.outputTokens) == Effective(pricing.reasoningTokens) {
      SameEffectivePrice(Quantities(ledger, tenant, start, {ReasoningTokens}), pricing.outputTokens,
          pricing.reasoningTokens);
    }
  }

  /** When every row was priced on its own at the current prices, whatever they are: the stored monthly total
      differs from what the report recomputes by the reasoning tokens' other price and at most half the number of
      rounded rows; in cents, the total exceeds the two reported parts by the cents of that difference and at most
      two more. */
  lemma RollupCostAgreement(pricing: Pricing, ledger: Ledger, plan: Plan, tenant: TenantId, month: nat)
    requires PricedBy(pricing, ledger)
    ensures var start := MonthStart(month);
            var drift := CostDrift(pricing, ledger, tenant, start);
            var r := ReportFor(pricing, ledger, plan, tenant, month);
            && 2 * Abs(drift - Repricing(pricing, ledger, tenant, start)) <= RoundedRows(pricing, ledger, tenant, start)
            && (pricing.outputTokens == pricing.reasoningTokens ==> Repricing(pricing, ledger, tenant, start) == 0)
            && MicrounitsToCents(drift) <= r.totalCents - (r.apiCents + r.tokenCents) <= MicrounitsToCents(drift) + 2
            && 0 <= r.tokenCents - (r.inputCents + r.cachedInputCents + r.outputCents) <= 2
  {
    var start := MonthStart(month);
    CostDriftBound(pricing, ledger, tenant, start);
    var groups := Breakdown(ledger, tenant, start);
    var costs := CalculateTokenBreakdown(pricing, Get(groups, InputTokens), Get(groups, CachedInputTokens),
                   Get(groups, OutputTokens) + Get(groups, ReasoningTokens), 0);
    CentsOfParts(MonthlyCost(ledger, tenant, start), Calculate(pricing, ApiCall, Get(groups, ApiCall)),
      costs.input + costs.cachedInput + costs.output);
    CentsOfThree(costs.input, costs.cachedInput, costs.output);
  }

  /** At the default prices the rounded rows are the token rows. */
  lemma DefaultRoundedRows(ledger: Ledger, tenant: TenantId, start: nat)
    ensures RoundedRows(DEFAULT_PRICING, ledger, tenant, start) == TokenRows(ledger, tenant, start)
    ensures Repricing(DEFAULT_PRICING, ledger, tenant, start) == 0
  {
    var outputs := {OutputTokens, ReasoningTokens};
    CountOfUnion(ledger, tenant, start, {CachedInputTokens}, outputs);
    CountOfUnion(ledger, tenant, start, {InputTokens}, {CachedInputTokens} + outputs);
    assert {InputTokens} + ({CachedInputTokens} + outputs) ==
        {InputTokens, CachedInputTokens, OutputTokens, ReasoningTokens};
  }

  // ----- When the stored total and the report always agree -----

  /** n events of one type, quantity and time, with keys of their own. */
  function UniformRows(pricing: Pricing, tenant: TenantId, u: UsageType, at: nat, n: nat, quantity: Quantity): Ledger {
    if n == 0 then []
    else UniformRows(pricing, tenant, u, at, n - 1, quantity)
           + [UsageEvent("", tenant, KeyOfLength(n - 1), u, quantity, Calculate(pricing, u, quantity), at)]
  }

  lemma {:induction false} UniformRowsFacts(pricing: Pricing, tenant: TenantId, u: UsageType, at: nat, n: nat,
                                            quantity: Quantity)
    ensures var ledger := UniformRows(pricing, tenant, u, at, n, quantity);
            PricedBy(pricing, ledger) && UniqueTriples(ledger) && KeysShorterThan(ledger, n)
  {
    if n > 0 {
      UniformRowsFacts(pricing, tenant, u, at, n - 1, quantity);
    }
  }

  lemma {:induction false} UniformQuantities(pricing: Pricing, tenant: TenantId, u: UsageType, at: nat, n: nat,
                                             quantity: Quantity,
                                             types: set<UsageType>)
    ensures Quantities(UniformRows(pricing, tenant, u, at, n, quantity), tenant, at, types) ==
              if u in types then Copies(n, quantity) else []
  {
    if n > 0 {
      UniformQuantities(pricing, tenant, u, at, n - 1, quantity, types);
      var ledger := UniformRows(pricing, tenant, u, at, n, quantity);
      assert ledger[..|ledger| - 1] == UniformRows(pricing, tenant, u, at, n - 1, quantity);
      assert Copies(n, quantity) == Copies(n - 1, quantity) + [quantity];
    }
  }

  /** What the report prices a type at. */
  function ReportedPrice(pricing: Pricing, u: UsageType): int {
    if u == ReasoningTokens then pricing.outputTokens else PriceOf(pricing, u)
  }

  /** The drift of such a ledger is that of its own category. */
  lemma UniformDrift(pricing: Pricing, tenant: TenantId, u: UsageType, at: nat, n: nat, quantity: Quantity)
    ensures var qs := Copies(n, quantity);
            CostDrift(pricing, UniformRows(pricing, tenant, u, at, n, quantity), tenant, at) ==
              Drift(qs, ReportedPrice(pricing, u)) + SumOfCosts(qs, PriceOf(pricing, u))
                  - SumOfCosts(qs, ReportedPrice(pricing, u))
  {
    var ledger := UniformRows(pricing, tenant, u, at, n, quantity);
    UniformRowsFacts(pricing, tenant, u, at, n, quantity);
    CostDriftSplit(pricing, ledger, tenant, at);
    UniformCategory(pricing, tenant, u, at, n, quantity, {ApiCall}, pricing.apiCall);
    UniformCategory(pricing, tenant, u, at, n, quantity, {InputTokens}, pricing.inputTokens);
    UniformCategory(pricing, tenant, u, at, n, quantity, {CachedInputTokens}, pricing.cachedInputTokens);
    UniformCategory(pricing, tenant, u, at, n, quantity, {OutputTokens, ReasoningTokens}, pricing.outputTokens);
    UniformCategory(pricing, tenant, u, at, n, quantity, {ReasoningTokens}, pricing.outputTokens);
    UniformCategory(pricing, tenant, u, at, n, quantity, {ReasoningTokens}, pricing.reasoningTokens);
  }

  lemma UniformCategory(pricing: Pricing, tenant: TenantId, u: UsageType, at: nat, n: nat, quantity: Quantity,
                        types: set<UsageType>, price: int)
    ensures var qs := Quantities(UniformRows(pricing, tenant, u, at, n, quantity), tenant, at, types);
            && Drift(qs, price) == (if u in types then Drift(Copies(n, quantity), price) else 0)
            && SumOfCosts(qs, price) == (if u in types then SumOfCosts(Copies(n, quantity), price) else 0)
  {
    UniformQuantities(pricing, tenant, u, at, n, quantity, types);
  }

  /** One event of a thousand reasoning tokens shows the two prices side by side. */
  lemma ReasoningDrift(pricing: Pricing, tenant: TenantId, at: nat)
    ensures CostDrift(pricing, UniformRows(pricing, tenant, ReasoningTokens, at, 1, 1000), tenant, at) ==
              Effective(pricing.reasoningTokens) - Effective(pricing.outputTokens)
  {
    UniformDrift(pricing, tenant, ReasoningTokens, at, 1, 1000);
    SumOfCopies(1, 1000, pricing.outputTokens);
    SumOfCopies(1, 1000, pricing.reasoningTokens);
    CostOfThousand(pricing.outputTokens);
    CostOfThousand(pricing.reasoningTokens);
  }

  ghost predicate AlwaysAgrees(pricing: Pricing, tenant: TenantId, start: nat) {
    forall ledger | PricedBy(pricing, ledger) && UniqueTriples(ledger) :: CostDrift(pricing, ledger, tenant, start) == 0
  }

  /** The stored total and the recomputed cost agree on every ledger of correctly priced events exactly when no
      price rounds and reasoning tokens cost what output tokens cost. */
  lemma RollupAgreesExactly(pricing: Pricing, tenant: TenantId, start: nat)
    ensures AlwaysAgrees(pricing, tenant, start) <==>
              && !Rounds(pricing.apiCall) && !Rounds(pricing.inputTokens)
              && !Rounds(pricing.cachedInputTokens) && !Rounds(pricing.outputTokens)
              && Effective(pricing.outputTokens) == Effective(pricing.reasoningTokens)
  {
    if Rounds(pricing.apiCall) {
      DriftsWhenRounded(pricing, tenant, ApiCall, start);
    } else if Rounds(pricing.inputTokens) {
      DriftsWhenRounded(pricing, tenant, InputTokens, start);
    } else if Rounds(pricing.cachedInputTokens) {
      DriftsWhenRounded(pricing, tenant, CachedInputTokens, start);
    } else if Rounds(pricing.outputTokens) {
      DriftsWhenRounded(pricing, tenant, OutputTokens, start);
    } else if Effective(pricing.outputTokens) != Effective(pricing.reasoningTokens) {
      UniformRowsFacts(pricing, tenant, ReasoningTokens, start, 1, 1000);
      ReasoningDrift(pricing, tenant, start);
    } else {
      forall ledger | PricedBy(pricing, ledger) && UniqueTriples(ledger)
        ensures CostDrift(pricing, ledger, tenant, start) == 0
      {
        CostDriftBound(pricing, ledger, tenant, start);
        assert RoundedRows(pricing, ledger, tenant, start) == 0;
      }
    }
  }

  lemma DriftsWhenRounded(pricing: Pricing, tenant: TenantId, u: UsageType, start: nat)
    requires u != ReasoningTokens && Rounds(PriceOf(pricing, u))
    ensures !AlwaysAgrees(pricing, tenant, start)
  {
    UniformRowsFacts(pricing, tenant, u, start, 1000, 1);
    UniformDrift(pricing, tenant, u, start, 1000, 1);
    ThousandUnitsDrift(PriceOf(pricing, u));
  }

  /** With the default prices they differ on two reasoning events of one token: stored at one micro-unit each,
      recomputed as one. */
  lemma RollupDriftHappens(tenant: TenantId)
    ensures CostDrift(DEFAULT_PRICING, UniformRows(DEFAULT_PRICING, tenant, ReasoningTokens, 0, 2, 1), tenant, 0) == 1
  {
    UniformDrift(DEFAULT_PRICING, tenant, ReasoningTokens, 0, 2, 1);
    SumOfCopies(2, 1, 600);
  }

  /** At the default price a cent buys ten API calls: the report of 5000 calls shows 500 cents. */
  lemma DefaultApiCents(ledger: Ledger, plan: Plan, tenant: TenantId, month: nat)
    ensures var r := ReportFor(DEFAULT_PRICING, ledger, plan, tenant, month); r.apiCents == r.apiUsed / 10
  {
    var calls := Get(Breakdown(ledger, tenant, MonthStart(month)), ApiCall);
    WholePriceIsExactForOne(calls, 1000);
  }
}
