/**
 The service as a serial machine: metering requests, usage reports and webhook deliveries executed
 one at a time, with a clock and two caches that may lose any entry at any moment.

 `Core` is the service with no cache at all. The main results say what the caches can and cannot change: the
 committed state never, an answer only in favour of a replay, a report by less than thirty seconds.
 */
module Metering {
  import opened Types
  import opened Tables
  import opened Ledger
  import opened Calendar
  import opened Billing
  import opened CacheKeys
  import Webhook

  const IDEMPOTENCY_TTL_SECONDS: nat := 86_400
  const USAGE_CACHE_TTL: nat := 30

  datatype Config = Config(pricing: Pricing, proPriceId: string)

  /** Everything that is committed, and the clock. */
  datatype Core = Core(store: Webhook.Store, ledger: Ledger, now: nat)

  datatype Step =
    | Meter(request: MeterRequest, eventId: string, readable: bool, writable: bool)
    | GetUsage(tenant: TenantId, readable: bool, writable: bool)
    | Stripe(delivery: Webhook.Delivery)
    | Evict(responses: set<string>, reports: set<(TenantId, nat)>)
    | Tick(seconds: nat)

  datatype Answer =
    | MeterAnswer(outcome: MeterOutcome)
    | UsageAnswer(rollup: Rollup)
    | StripeAnswer(result: Webhook.WebhookOutcome)
    | Silent

  // ----- The service without caches -----

  function NewRow(pricing: Pricing, req: MeterRequest, eventId: string, now: nat): UsageEvent {
    UsageEvent(eventId, req.tenant, req.key, req.usageType, req.quantity,
      Calculate(pricing, req.usageType, req.quantity), now)
  }

  /** The 200 built from a row, freshly inserted or already there; `remaining` counts the requested quantity
      either way. */
  function ResponseFor(req: MeterRequest, event: UsageEvent, used: int, limit: int): MeterResponse {
    var remaining := RemainingAfter(used, req.quantity, limit);
    MeterResponse(event.id, event.usageType, event.quantity, event.cost,
      if req.usageType == ApiCall then remaining else 0,
      if req.usageType == ApiCall then 0 else remaining)
  }

  function Record(pricing: Pricing, ledger: Ledger, tables: Tables, req: MeterRequest, eventId: string, now: nat)
    : (Ledger, MeterOutcome)
  {
    RecordUnder(pricing, ledger, ReadPlan(tables, req.tenant), req, eventId, now)
  }

  /** Check against the plan that was read, price, insert or read the row in the way. */
  function RecordUnder(pricing: Pricing, ledger: Ledger, read: PlanRead, req: MeterRequest, eventId: string, now: nat)
    : (Ledger, MeterOutcome)
  {
    match read
    case Refused => (ledger, PaymentRequired)
    case Ambiguous => (ledger, ServerError)
    case Covered(plan) =>
      var limit := LimitFor(plan, req.usageType);
      var used := MonthlyUsage(ledger, req.tenant, req.usageType, StartOfMonth(now));
      if WillExceed(used, req.quantity, limit) then
        (ledger, QuotaExceeded(used, limit, req.quantity))
      else
        var (after, event) := InsertOrExisting(ledger, NewRow(pricing, req, eventId, now));
        (after, Metered(ResponseFor(req, event, used, limit)))
  }

  function CoreStep(cfg: Config, core: Core, step: Step): (Core, Answer) {
    match step
    case Meter(req, eventId, _, _) =>
      var (ledger, outcome) := Record(cfg.pricing, core.ledger, core.store.tables, req, eventId, core.now);
      (core.(ledger := ledger), MeterAnswer(outcome))
    case GetUsage(tenant, _, _) =>
      (core, UsageAnswer(FreshRollup(cfg.pricing, core.ledger, core.store.tables, tenant, core.now)))
    case Stripe(d) =>
      var (store, outcome) := Webhook.Deliver(cfg.proPriceId, core.store, d);
      (core.(store := store), StripeAnswer(outcome))
    case Evict(_, _) => (core, Silent)
    case Tick(seconds) => (core.(now := core.now + seconds), Silent)
  }

  function CoreRun(cfg: Config, core: Core, steps: seq<Step>): Core {
    if steps == [] then core
    else CoreStep(cfg, CoreRun(cfg, core, steps[..|steps| - 1]), steps[|steps| - 1]).0
  }

  // ----- The service with its caches -----

  datatype Entry<+T> = Entry(value: T, expiresAt: nat)

  datatype System = System(
    core: Core,
    responses: map<string, Entry<CachedResponse>>,
    reports: map<(TenantId, nat), Entry<UsageReport>>)

  function KeyOf(req: MeterRequest): string {
    IdempotencyKey(req.tenant, req.key, req.usageType)
  }

  /** A cache read: an entry answers until its expiry, if the cache can be reached. */
  function Live<K, T>(cache: map<K, Entry<T>>, k: K, now: nat, reachable: bool): Option<T> {
    if reachable && k in cache && now < cache[k].expiresAt then Some(cache[k].value) else None
  }

  function SystemStep(cfg: Config, s: System, step: Step): (System, Answer) {
    var (core, answer) := CoreStep(cfg, s.core, step);
    match step
    case Meter(req, _, readable, writable) =>
      var k := KeyOf(req);
      var hit := Live(s.responses, k, s.core.now, readable);
      if hit.Some? then
        var response := FromCached(hit.value);
        (s, MeterAnswer(if response.Some? then Metered(response.value) else ServerError))
      else if answer.outcome.Metered? && writable then
        (s.(core := core, responses :=
           s.responses[k := Entry(ToCached(answer.outcome.response), s.core.now + IDEMPOTENCY_TTL_SECONDS)]), answer)
      else
        (s.(core := core), answer)
    case GetUsage(tenant, readable, writable) =>
      var k := (tenant, MonthOf(s.core.now));
      var hit := Live(s.reports, k, s.core.now, readable);
      if hit.Some? then
        (s, UsageAnswer(Report(hit.value)))
      else if answer.rollup.Report? && writable then
        (s.(reports := s.reports[k := Entry(answer.rollup.report, s.core.now + USAGE_CACHE_TTL)]), answer)
      else
        (s, answer)
    case Evict(responses, reports) =>
      (s.(responses := s.responses - responses, reports := s.reports - reports), Silent)
    case _ => (s.(core := core), answer)
  }

  /** The response cache after a miss. */
  function Stored(entries: map<string, Entry<CachedResponse>>, req: MeterRequest, outcome: MeterOutcome, now: nat,
                  writable: bool)
    : map<string, Entry<CachedResponse>>
  {
    if outcome.Metered? && writable then
      entries[KeyOf(req) := Entry(ToCached(outcome.response), now + IDEMPOTENCY_TTL_SECONDS)]
    else
      entries
  }

  lemma MissedStep(cfg: Config, s: System, req: MeterRequest, eventId: string, readable: bool, writable: bool)
    requires Live(s.responses, KeyOf(req), s.core.now, readable).None?
    ensures var (ledger, recorded) := Record(cfg.pricing, s.core.ledger, s.core.store.tables, req, eventId, s.core.now);
            SystemStep(cfg, s, Meter(req, eventId, readable, writable)) ==
              (s.(core := s.core.(ledger := ledger), responses :=
                  Stored(s.responses, req, recorded, s.core.now, writable)),
               MeterAnswer(recorded))
  {
  }

  /** Any cached entry can be lost at any moment, alone. */
  lemma AnyEntryCanBeLost(cfg: Config, s: System, response: string, report: (TenantId, nat))
    ensures var after := SystemStep(cfg, s, Evict({response}, {report})).0;
            && after.core == s.core && response !in after.responses && report !in after.reports
            && (forall k | k in s.responses && k != response ::
                  k in after.responses && after.responses[k] == s.responses[k])
            && (forall k | k in s.reports && k != report :: k in after.reports && after.reports[k] == s.reports[k])
  {
  }

  function Run(cfg: Config, s: System, steps: seq<Step>): System {
    if steps == [] then s
    else SystemStep(cfg, Run(cfg, s, steps[..|steps| - 1]), steps[|steps| - 1]).0
  }

  // ----- Cache transparency -----

  predicate Reports(r: MeterResponse, e: UsageEvent) {
    r.eventId == e.id && r.usageType == e.usageType && r.quantity == e.quantity && r.cost == e.cost
  }

  /** The response stored under `k` is that of the ledger row `k` identifies. */
  ghost predicate Stands(s: System, k: string)
    requires k in s.responses
  {
    exists e :: && e in s.core.ledger
                && k == IdempotencyKey(e.tenant, e.key, e.usageType)
                && FromCached(s.responses[k].value).Some?
                && Reports(FromCached(s.responses[k].value).value, e)
  }

  ghost predicate CacheSound(s: System) {
    forall k | k in s.responses :: Stands(s, k)
  }

  ghost predicate WellFormed(core: Core) {
    Consistent(core.store.tables) && UniqueTriples(core.ledger)
  }

  /** How an answer of the cached service may differ from the uncached one: a replay's refusal, or a replay's 200,
      may become a 200 for the row the request already has. Never the reverse. */
  ghost predicate Refines(cached: Answer, plain: Answer, step: Step, ledger: Ledger) {
    cached == plain || (step.GetUsage? && cached.UsageAnswer?)
    || (&& step.Meter? && cached.MeterAnswer? && cached.outcome.Metered? && plain.MeterAnswer?
        && Backs(ledger, step.request, cached.outcome.response)
        && (plain.outcome.PaymentRequired? || plain.outcome.QuotaExceeded?
            || (plain.outcome.Metered? && SameEvent(plain.outcome.response, cached.outcome.response))))
  }

  predicate SameEvent(a: MeterResponse, b: MeterResponse) {
    a.eventId == b.eventId && a.usageType == b.usageType && a.quantity == b.quantity && a.cost == b.cost
  }

  /** Some row of the request's triple is what the response reports. */
  ghost predicate Backs(ledger: Ledger, req: MeterRequest, r: MeterResponse) {
    exists e :: e in ledger && HasTriple(e, req.tenant, req.key, req.usageType) && Reports(r, e)
  }

  lemma InsertFacts(ledger: Ledger, row: UsageEvent)
    requires UniqueTriples(ledger)
    ensures var (after, event) := InsertOrExisting(ledger, row);
            && UniqueTriples(after) && ledger <= after
            && event in after && SameTriple(event, row)
            && (forall e | e in ledger && SameTriple(e, row) :: after == ledger && event == e)
  {
    InsertKeepsUnique(ledger, row);
    forall e | e in ledger && SameTriple(e, row)
      ensures Find(ledger, row.tenant, row.key, row.usageType) == Some(e)
    {
      FindIsThatRow(ledger, e);
    }
  }

  /** Recording keeps the ledger unique and only appends; a 200 reports a row of the request's triple; and when
      there was one already the ledger does not change and a 200 reports that row. */
  lemma RecordKeepsUnique(pricing: Pricing, ledger: Ledger, tables: Tables, req: MeterRequest, eventId: string,
                          now: nat)
    requires UniqueTriples(ledger)
    ensures var (after, outcome) := Record(pricing, ledger, tables, req, eventId, now);
            && UniqueTriples(after) && ledger <= after
            && (outcome.Metered? ==> Backs(after, req, outcome.response))
            && (forall e | e in ledger && HasTriple(e, req.tenant, req.key, req.usageType) ::
                  after == ledger && (outcome.Metered? ==> Reports(outcome.response, e)))
  {
    InsertFacts(ledger, NewRow(pricing, req, eventId, now));
  }

  lemma CoreStepKeepsWellFormed(cfg: Config, core: Core, step: Step)
    requires WellFormed(core)
    ensures var after := CoreStep(cfg, core, step).0;
            WellFormed(after) && core.ledger <= after.ledger && core.now <= after.now
  {
    match step
    case Meter(req, eventId, _, _) =>
      RecordKeepsUnique(cfg.pricing, core.ledger, core.store.tables, req, eventId, core.now);
    case Stripe(d) =>
      Webhook.AllOrNothing(cfg.proPriceId, core.store, d);
      if Webhook.Deliver(cfg.proPriceId, core.store, d).1 == Webhook.Processed {
        Webhook.HandleKeepsTables(cfg.proPriceId, core.store.tables, d);
      }
    case _ =>
  }

  /** A cache hit answers for a row the ledger already has, so the uncached service would have changed nothing. */
  lemma HitIsReplay(cfg: Config, s: System, step: Step)
    requires WellFormed(s.core) && CacheSound(s) && step.Meter?
    requires Live(s.responses, KeyOf(step.request), s.core.now, step.readable).Some?
    ensures SystemStep(cfg, s, step).0 == s && CoreStep(cfg, s.core, step).0 == s.core
    ensures Refines(SystemStep(cfg, s, step).1, CoreStep(cfg, s.core, step).1, step, s.core.ledger)
  {
    var req := step.request;
    var k := KeyOf(req);
    var e :| e in s.core.ledger && k == IdempotencyKey(e.tenant, e.key, e.usageType)
             && FromCached(s.responses[k].value).Some? && Reports(FromCached(s.responses[k].value).value, e);
    CacheKeyIsInjective(req.tenant, req.key, req.usageType, e.tenant, e.key, e.usageType);
    RecordKeepsUnique(cfg.pricing, s.core.ledger, s.core.store.tables, req, step.eventId, s.core.now);
    RefusedExactlyWithoutLiveRow(s.core.store.tables, req.tenant);
  }

  lemma StepIsTransparent(cfg: Config, s: System, step: Step)
    requires WellFormed(s.core) && CacheSound(s)
    ensures var (after, answer) := SystemStep(cfg, s, step);
            && after.core == CoreStep(cfg, s.core, step).0
            && CacheSound(after)
            && Refines(answer, CoreStep(cfg, s.core, step).1, step, s.core.ledger)
  {
    var after := SystemStep(cfg, s, step).0;
    if step.Meter? {
      var req := step.request;
      var k := KeyOf(req);
      if Live(s.responses, k, s.core.now, step.readable).Some? {
        HitIsReplay(cfg, s, step);
      } else {
        MissKeepsCacheSound(cfg, s, step);
      }
    } else {
      CoreStepKeepsWellFormed(cfg, s.core, step);
    }
  }

  lemma MissKeepsCacheSound(cfg: Config, s: System, step: Step)
    requires WellFormed(s.core) && CacheSound(s) && step.Meter?
    requires Live(s.responses, KeyOf(step.request), s.core.now, step.readable).None?
    ensures CacheSound(SystemStep(cfg, s, step).0)
  {
    var req := step.request;
    var key := KeyOf(req);
    var after := SystemStep(cfg, s, step).0;
    RecordKeepsUnique(cfg.pricing, s.core.ledger, s.core.store.tables, req, step.eventId, s.core.now);
    var (ledger, outcome) := Record(cfg.pricing, s.core.ledger, s.core.store.tables, req, step.eventId, s.core.now);
    forall k | k in after.responses
      ensures Stands(after, k)
    {
      if k == key && step.writable && outcome.Metered? {
        var e :| e in ledger && HasTriple(e, req.tenant, req.key, req.usageType) && Reports(outcome.response, e);
        CachedRoundTrip(outcome.response, ToCached(outcome.response));
      } else {
        var e :| e in s.core.ledger && k == IdempotencyKey(e.tenant, e.key, e.usageType)
                 && FromCached(s.responses[k].value).Some? && Reports(FromCached(s.responses[k].value).value, e);
        assert e in after.core.ledger;
      }
    }
  }

  /** Over every run, with entries lost, expired or unreachable in any pattern: the committed state is that of the
      service with no cache, the ledger stays unique, and each answer of the next step refines the uncached one. */
  lemma {:induction false} CacheTransparency(cfg: Config, core: Core, steps: seq<Step>, next: Step)
    requires WellFormed(core)
    ensures var s := Run(cfg, System(core, map[], map[]), steps);
            && s.core == CoreRun(cfg, core, steps)
            && WellFormed(s.core) && CacheSound(s)
            && Refines(SystemStep(cfg, s, next).1, CoreStep(cfg, s.core, next).1, next, s.core.ledger)
  {
    if steps != [] {
      var before, last := steps[..|steps| - 1], steps[|steps| - 1];
      CacheTransparency(cfg, core, before, last);
      var mid := Run(cfg, System(core, map[], map[]), before);
      StepIsTransparent(cfg, mid, last);
      CoreStepKeepsWellFormed(cfg, mid.core, last);
    }
    StepIsTransparent(cfg, Run(cfg, System(core, map[], map[]), steps), next);
  }

  predicate Evicts(step: Step, k: string) {
    step.Evict? && k in step.responses
  }

  lemma EntrySurvivesStep(cfg: Config, s: System, step: Step, k: string)
    requires k in s.responses && !Evicts(step, k)
    ensures var after := SystemStep(cfg, s, step).0;
            && k in after.responses && s.core.now <= after.core.now
            && (after.responses[k] == s.responses[k]
                || after.responses[k].expiresAt == s.core.now + IDEMPOTENCY_TTL_SECONDS)
  {
  }

  lemma {:induction false} EntrySurvives(cfg: Config, s: System, steps: seq<Step>, k: string)
    requires k in s.responses && s.responses[k].expiresAt <= s.core.now + IDEMPOTENCY_TTL_SECONDS
    requires forall step | step in steps :: !Evicts(step, k)
    ensures var final := Run(cfg, s, steps);
            && k in final.responses && s.core.now <= final.core.now
            && s.responses[k].expiresAt <= final.responses[k].expiresAt
  {
    if steps != [] {
      var before, last := steps[..|steps| - 1], steps[|steps| - 1];
      assert last in steps && forall step | step in before :: step in steps;
      EntrySurvives(cfg, s, before, k);
      EntrySurvivesStep(cfg, Run(cfg, s, before), last, k);
    }
  }

  /** While the cached response of a 200 is neither evicted nor expired, every later request for its triple that
      can reach the cache is answered 200 for the same event, whatever became of the subscription or the quota. */
  lemma ReplayWithinLifetime(cfg: Config, core: Core, prefix: seq<Step>, first: Step, steps: seq<Step>, again: Step)
    requires WellFormed(core) && first.Meter? && again.Meter? && again.readable && first.writable
    requires KeyOf(first.request) == KeyOf(again.request)
    requires var before := Run(cfg, System(core, map[], map[]), prefix);
             var k := KeyOf(first.request);
             && SystemStep(cfg, before, first).1.outcome.Metered?
             && Live(before.responses, k, before.core.now, first.readable).None?
             && Run(cfg, SystemStep(cfg, before, first).0, steps).core.now < before.core.now + 86_400
             && forall step | step in steps :: !Evicts(step, k)
    ensures var before := Run(cfg, System(core, map[], map[]), prefix);
            var (stored, answer) := SystemStep(cfg, before, first);
            var replay := SystemStep(cfg, Run(cfg, stored, steps), again).1;
            replay.outcome.Metered? && SameEvent(replay.outcome.response, answer.outcome.response)
  {
    var before := Run(cfg, System(core, map[], map[]), prefix);
    CacheTransparency(cfg, core, prefix, first);
    StepIsTransparent(cfg, before, first);
    CoreStepKeepsWellFormed(cfg, before.core, first);
    StoredByMiss(cfg, before, first);
    ReplayOfStored(cfg, SystemStep(cfg, before, first).0, steps, again,
        SystemStep(cfg, before, first).1.outcome.response);
  }

  lemma StoredByMiss(cfg: Config, s: System, step: Step)
    requires step.Meter? && step.writable && SystemStep(cfg, s, step).1.outcome.Metered?
    requires Live(s.responses, KeyOf(step.request), s.core.now, step.readable).None?
    ensures var (after, answer) := SystemStep(cfg, s, step);
            && after.core.now == s.core.now && KeyOf(step.request) in after.responses
            && after.responses[KeyOf(step.request)] ==
                Entry(ToCached(answer.outcome.response), s.core.now + IDEMPOTENCY_TTL_SECONDS)
  {
  }

  lemma ReplayOfStored(cfg: Config, s: System, steps: seq<Step>, again: Step, response: MeterResponse)
    requires WellFormed(s.core) && CacheSound(s) && again.Meter? && again.readable
    requires KeyOf(again.request) in s.responses
    requires s.responses[KeyOf(again.request)] == Entry(ToCached(response), s.core.now + IDEMPOTENCY_TTL_SECONDS)
    requires forall step | step in steps :: !Evicts(step, KeyOf(again.request))
    requires Run(cfg, s, steps).core.now < s.core.now + IDEMPOTENCY_TTL_SECONDS
    ensures var replay := SystemStep(cfg, Run(cfg, s, steps), again).1;
            replay.outcome.Metered? && SameEvent(replay.outcome.response, response)
  {
    var k, final := KeyOf(again.request), Run(cfg, s, steps);
    EntrySurvives(cfg, s, steps, k);
    RunStaysSound(cfg, s, steps);
    EntriesAgree(s, final, k);
    CachedRoundTrip(response, ToCached(response));
  }

  /** As the ledger grows, whatever is stored under a key stands for the same event. */
  lemma EntriesAgree(s: System, final: System, k: string)
    requires CacheSound(s) && CacheSound(final) && WellFormed(final.core) && s.core.ledger <= final.core.ledger
    requires k in s.responses && k in final.responses
    ensures FromCached(s.responses[k].value).Some? && FromCached(final.responses[k].value).Some?
    ensures SameEvent(FromCached(final.responses[k].value).value, FromCached(s.responses[k].value).value)
  {
    var e := StandsFor(s, k);
    var f := StandsFor(final, k);
    CacheKeyIsInjective(e.tenant, e.key, e.usageType, f.tenant, f.key, f.usageType);
    OneRowPerTriple(final.core.ledger, e, f);
  }

  lemma StandsFor(s: System, k: string) returns (e: UsageEvent)
    requires CacheSound(s) && k in s.responses
    ensures e in s.core.ledger && k == IdempotencyKey(e.tenant, e.key, e.usageType)
    ensures FromCached(s.responses[k].value).Some? && Reports(FromCached(s.responses[k].value).value, e)
  {
    assert Stands(s, k);
    e :| e in s.core.ledger && k == IdempotencyKey(e.tenant, e.key, e.usageType)
         && FromCached(s.responses[k].value).Some? && Reports(FromCached(s.responses[k].value).value, e);
  }

  lemma OneRowPerTriple(ledger: Ledger, e: UsageEvent, f: UsageEvent)
    requires UniqueTriples(ledger) && e in ledger && f in ledger && SameTriple(e, f)
    ensures e == f
  {
    FindIsThatRow(ledger, e);
    FindIsThatRow(ledger, f);
  }

  lemma {:induction false} RunStaysSound(cfg: Config, s: System, steps: seq<Step>)
    requires WellFormed(s.core) && CacheSound(s)
    ensures var final := Run(cfg, s, steps);
            WellFormed(final.core) && CacheSound(final) && s.core.ledger <= final.core.ledger
  {
    if steps != [] {
      var before, last := steps[..|steps| - 1], steps[|steps| - 1];
      RunStaysSound(cfg, s, before);
      StepIsTransparent(cfg, Run(cfg, s, before), last);
      CoreStepKeepsWellFormed(cfg, Run(cfg, s, before).core, last);
    }
  }

  // ----- Bounded staleness of the usage report -----

  ghost predicate ReportFrom(cfg: Config, s: System, tenant: TenantId, month: nat, entry: Entry<UsageReport>) {
    && s.core.now + USAGE_CACHE_TTL == entry.expiresAt
    && MonthOf(s.core.now) == month
    && FreshRollup(cfg.pricing, s.core.ledger, s.core.store.tables, tenant, s.core.now) == Report(entry.value)
  }

  /** A step leaves a cached report alone or writes one that is fresh now. */
  lemma ReportOfStep(cfg: Config, s: System, step: Step, tenant: TenantId, month: nat)
    requires (tenant, month) in SystemStep(cfg, s, step).0.reports
    ensures var entry := SystemStep(cfg, s, step).0.reports[(tenant, month)];
            ((tenant, month) in s.reports && s.reports[(tenant, month)] == entry)
                || ReportFrom(cfg, s, tenant, month, entry)
  {
  }

  /** Every cached report was fresh at an earlier point of the run, which its expiry dates. */
  lemma {:induction false} ReportsHaveASource(cfg: Config, start: System, steps: seq<Step>, tenant: TenantId,
                                              month: nat)
    returns (j: nat)
    requires start.reports == map[] && (tenant, month) in Run(cfg, start, steps).reports
    ensures j < |steps|
    ensures ReportFrom(cfg, Run(cfg, start, steps[..j]), tenant, month, Run(cfg, start, steps).reports[(tenant, month)])
  {
    var before, last := steps[..|steps| - 1], steps[|steps| - 1];
    var mid, after := Run(cfg, start, before), Run(cfg, start, steps);
    ReportOfStep(cfg, mid, last, tenant, month);
    if (tenant, month) in mid.reports && mid.reports[(tenant, month)] == after.reports[(tenant, month)] {
      j := ReportsHaveASource(cfg, start, before, tenant, month);
      assert before[..j] == steps[..j];
    } else {
      j := |steps| - 1;
    }
  }

  predicate EvictsReport(step: Step, k: (TenantId, nat)) {
    step.Evict? && k in step.reports
  }

  lemma ReportSurvivesStep(cfg: Config, s: System, step: Step, k: (TenantId, nat))
    requires k in s.reports && !EvictsReport(step, k)
    ensures var after := SystemStep(cfg, s, step).0;
            && k in after.reports && s.core.now <= after.core.now
            && (after.reports[k] == s.reports[k] || after.reports[k].expiresAt == s.core.now + USAGE_CACHE_TTL)
  {
  }

  lemma {:induction false} ReportSurvives(cfg: Config, s: System, steps: seq<Step>, k: (TenantId, nat))
    requires k in s.reports && s.reports[k].expiresAt <= s.core.now + USAGE_CACHE_TTL
    requires forall step | step in steps :: !EvictsReport(step, k)
    ensures var final := Run(cfg, s, steps);
            && k in final.reports && s.core.now <= final.core.now
            && s.reports[k].expiresAt <= final.reports[k].expiresAt
  {
    if steps != [] {
      var before, last := steps[..|steps| - 1], steps[|steps| - 1];
      assert last in steps && forall step | step in before :: step in steps;
      ReportSurvives(cfg, s, before, k);
      ReportSurvivesStep(cfg, Run(cfg, s, before), last, k);
    }
  }

  /** While a report given out now is neither evicted nor thirty seconds old, whoever asks in its month and can
      reach the cache gets a report cached since, with no look at the subscription: also after it has been closed. */
  lemma ReportWithinLifetime(cfg: Config, s: System, tenant: TenantId, steps: seq<Step>, writable: bool)
    requires var k := (tenant, MonthOf(s.core.now));
             && (k in s.reports ==> s.reports[k].expiresAt <= s.core.now)
             && SystemStep(cfg, s, GetUsage(tenant, true, true)).1.rollup.Report?
             && (forall step | step in steps :: !EvictsReport(step, k))
    ensures var stored := SystemStep(cfg, s, GetUsage(tenant, true, true)).0;
            var final := Run(cfg, stored, steps);
            var k := (tenant, MonthOf(s.core.now));
            final.core.now < s.core.now + 30 && MonthOf(final.core.now) == MonthOf(s.core.now) ==>
              && k in final.reports
              && SystemStep(cfg, final, GetUsage(tenant, true, writable)) ==
                  (final, UsageAnswer(Report(final.reports[k].value)))
  {
    var stored := SystemStep(cfg, s, GetUsage(tenant, true, true)).0;
    ReportSurvives(cfg, stored, steps, (tenant, MonthOf(s.core.now)));
  }

  ghost predicate Extends(early: Core, late: Core) {
    WellFormed(late) && early.now <= late.now && early.ledger <= late.ledger
  }

  lemma StepExtends(cfg: Config, s: System, step: Step)
    requires WellFormed(s.core)
    ensures Extends(s.core, SystemStep(cfg, s, step).0.core)
  {
    CoreStepKeepsWellFormed(cfg, s.core, step);
  }

  lemma {:induction false} RunExtends(cfg: Config, start: System, steps: seq<Step>, j: nat)
    requires j <= |steps| && WellFormed(start.core)
    ensures WellFormed(Run(cfg, start, steps[..j]).core)
    ensures Extends(Run(cfg, start, steps[..j]).core, Run(cfg, start, steps).core)
  {
    if j < |steps| {
      var before := steps[..|steps| - 1];
      RunExtends(cfg, start, before, j);
      assert before[..j] == steps[..j];
      StepExtends(cfg, Run(cfg, start, before), steps[|steps| - 1]);
    } else {
      assert steps[..j] == steps;
      if j > 0 {
        var before := steps[..j - 1];
        RunExtends(cfg, start, before, j - 1);
        StepExtends(cfg, Run(cfg, start, before), steps[j - 1]);
      }
    }
  }

  /** In every run, what a tenant asking for its usage is told equals the fresh rollup at some point of the run in
      the same month, now or less than thirty seconds earlier, and no usage figure in a report exceeds current
      usage. */
  lemma BoundedStaleness(cfg: Config, core: Core, steps: seq<Step>, tenant: TenantId, readable: bool, writable: bool)
      returns (j: nat)
    requires WellFormed(core)
    ensures j <= |steps|
    ensures var start := System(core, map[], map[]);
            var early, now := Run(cfg, start, steps[..j]).core, Run(cfg, start, steps).core;
            var rollup := SystemStep(cfg, Run(cfg, start, steps), GetUsage(tenant, readable, writable)).1.rollup;
            && FreshRollup(cfg.pricing, early.ledger, early.store.tables, tenant, early.now) == rollup
            && Tells(cfg.pricing, rollup, early.ledger, early.store.tables, tenant, early.now)
            && early.now <= now.now && (now.now == early.now || now.now < early.now + 30)
            && MonthOf(early.now) == MonthOf(now.now)
            && (rollup.Report? ==> NeverExceeds(rollup.report, now, tenant))
  {
    var start := System(core, map[], map[]);
    var s := Run(cfg, start, steps);
    var month := MonthOf(s.core.now);
    if Live(s.reports, (tenant, month), s.core.now, readable).Some? {
      j := ReportsHaveASource(cfg, start, steps, tenant, month);
    } else {
      j := |steps|;
      assert steps[..j] == steps;
    }
    RunExtends(cfg, start, steps, j);
    var early := Run(cfg, start, steps[..j]).core;
    var rollup := SystemStep(cfg, s, GetUsage(tenant, readable, writable)).1.rollup;
    FreshRollupTells(cfg.pricing, early.ledger, early.store.tables, tenant, early.now);
    if rollup.Report? {
      ReportIsBounded(cfg, early, s.core, tenant, rollup.report);
    }
  }

  /** Every usage figure of the report is at most current usage. */
  predicate NeverExceeds(report: UsageReport, now: Core, tenant: TenantId) {
    var start := StartOfMonth(now.now);
    var reasoning := MonthlyUsage(now.ledger, tenant, ReasoningTokens, start);
    && report.apiUsed <= MonthlyUsage(now.ledger, tenant, ApiCall, start)
    && report.tokensUsed <= MonthlyTokens(now.ledger, tenant, start)
    && report.inputTokens <= MonthlyUsage(now.ledger, tenant, InputTokens, start)
    && report.cachedInputTokens <= MonthlyUsage(now.ledger, tenant, CachedInputTokens, start)
    && report.outputTokens <= MonthlyUsage(now.ledger, tenant, OutputTokens, start) + reasoning
    && report.reasoningTokens <= reasoning
  }

  lemma ReportIsBounded(cfg: Config, early: Core, now: Core, tenant: TenantId, report: UsageReport)
    requires FreshRollup(cfg.pricing, early.ledger, early.store.tables, tenant, early.now) == Report(report)
    requires early.ledger <= now.ledger && MonthOf(early.now) == MonthOf(now.now)
    ensures NeverExceeds(report, now, tenant)
  {
    var plan := ReadPlan(early.store.tables, tenant).plan;
    var month := MonthOf(early.now);
    var more := now.ledger[|early.ledger|..];
    assert now.ledger == early.ledger + more;
    ReportMatchesLedger(cfg.pricing, early.ledger, plan, tenant, month);
    UsageIsSumOfTypes(early.ledger, tenant, MonthStart(month));
    UsageIsSumOfTypes(now.ledger, tenant, MonthStart(month));
    forall u {
      UsageIsMonotone(early.ledger, more, tenant, u, MonthStart(month), MonthStart(month));
    }
  }
}
