/**
 The endpoints as they run: a database session with a committed and a working state, the cache, and the objects
 that read and write them step by step. Every method is proved to do what the serial machine's
 step functions (Metering.dfy, Webhook.dfy) say.
 */
module Service {
  import opened Types
  import opened Tables
  import opened Ledger
  import opened Calendar
  import opened Billing
  import opened CacheKeys
  import opened Metering
  import Retry
  import Webhook

  datatype State = State(store: Webhook.Store, ledger: Ledger)

  /** One request's database session. Queries and writes work on `working`; the commit at the end of the request
      publishes it. Once a statement has failed, every further one is refused until the rollback. */
  class Session {
    var committed: State
    var working: State
    var aborted: bool

    constructor (state: State)
      ensures committed == working == state && !aborted
    {
      committed, working, aborted := state, state, false;
    }

    method Commit()
      requires !aborted
      modifies this`committed
      ensures committed == working
    {
      committed := working;
    }

    method Rollback()
      modifies this`working, this`aborted
      ensures working == committed && !aborted
    {
      working, aborted := committed, false;
    }
  }

  /** A string-keyed store with expiry that may be unreachable; failures read as misses and drop writes. */
  class Cache<K(==), V> {
    var entries: map<K, Entry<V>>

    constructor ()
      ensures entries == map[]
    {
      entries := map[];
    }

    method Get(k: K, now: nat, reachable: bool) returns (v: Option<V>)
      ensures v == Live(entries, k, now, reachable)
    {
      v := None;
      if reachable {
        if k in entries && now < entries[k].expiresAt {
          v := Some(entries[k].value);
        }
      }
    }

    method Set(k: K, v: V, now: nat, ttl: nat, reachable: bool)
      modifies this
      ensures entries == if reachable then old(entries)[k := Entry(v, now + ttl)] else old(entries)
    {
      if reachable {
        entries := entries[k := Entry(v, now + ttl)];
      }
    }
  }

  class UsageRepository {
    const session: Session

    constructor (session: Session)
      ensures this.session == session
    {
      this.session := session;
    }

    /** Insert unless the triple is taken; then the row in the way is read. */
    method RecordUsage(row: UsageEvent) returns (event: Option<UsageEvent>)
      modifies session`working
      ensures session.working.store == old(session.working.store)
      ensures (session.working.ledger, event) ==
                (InsertOrExisting(old(session.working.ledger), row).0,
                    Some(InsertOrExisting(old(session.working.ledger), row).1))
    {
      var inserted := TryInsert(row);
      if inserted {
        return Some(row);
      }
      event := Find(session.working.ledger, row.tenant, row.key, row.usageType);
    }

    method TryInsert(row: UsageEvent) returns (inserted: bool)
      modifies session`working
      ensures session.working.store == old(session.working.store)
      ensures inserted <==> forall e | e in old(session.working.ledger) :: !SameTriple(e, row)
      ensures session.working.ledger == if inserted then old(session.working.ledger) + [row]
          else old(session.working.ledger)
    {
      inserted := Find(session.working.ledger, row.tenant, row.key, row.usageType).None?;
      if inserted {
        session.working := session.working.(ledger := session.working.ledger + [row]);
      }
    }
  }

  /** Where a database error strikes an attempt to record, if anywhere: no connection to be had, or a failing
      statement. */
  datatype Fault = NoFault | AtConnect(transient: bool) | AtCheck(transient: bool) | AtInsert(transient: bool)

  const MAX_RETRIES: nat := 3
  const BASE_DELAY: real := 0.05
  const MAX_DELAY: real := 0.5

  /** A request that is refused does not get as far as the insert. */
  predicate Harmless(fault: Fault, outcome: MeterOutcome) {
    fault.NoFault? || (fault.AtInsert? && !outcome.Metered?)
  }

  /** The fault is a failed statement, which aborts the transaction. */
  predicate Aborts(fault: Fault, outcome: MeterOutcome) {
    !fault.AtConnect? && !Harmless(fault, outcome)
  }

  /** What an attempt comes to. In an aborted transaction its first statement is refused, which is not transient. */
  function AttemptResult(fault: Fault, aborted: bool, outcome: MeterOutcome): Retry.Outcome<MeterOutcome> {
    if aborted then Retry.OtherError
    else if Harmless(fault, outcome) then Retry.Returned(outcome)
    else if fault.transient then Retry.TransientError
    else Retry.OtherError
  }

  predicate AbortedBefore(faults: seq<Fault>, outcome: MeterOutcome, i: nat)
    requires i <= |faults|
  {
    exists j | 0 <= j < i :: Aborts(faults[j], outcome)
  }

  function AttemptResults(faults: seq<Fault>, outcome: MeterOutcome): (rs: seq<Retry.Outcome<MeterOutcome>>)
    ensures |rs| == |faults|
    ensures forall i | 0 <= i < |faults| ::
              rs[i] == AttemptResult(faults[i], AbortedBefore(faults, outcome, i), outcome)
  {
    seq(|faults|, i requires 0 <= i < |faults| => AttemptResult(faults[i], AbortedBefore(faults, outcome, i), outcome))
  }

  class MeterService {
    const cfg: Config
    const session: Session
    const usageRepo: UsageRepository

    constructor (cfg: Config, session: Session)
      ensures this.cfg == cfg && this.session == session && usageRepo.session == session && fresh(usageRepo)
    {
      this.cfg, this.session := cfg, session;
      usageRepo := new UsageRepository(session);
    }

    /** One attempt: check, price, insert. A failing statement has no effect but to abort the transaction. */
    method Attempt(req: MeterRequest, eventId: string, now: nat, fault: Fault)
        returns (result: Retry.Outcome<MeterOutcome>)
      requires usageRepo.session == session
      modifies session`working, session`aborted
      ensures var (ledger, outcome) := Record(cfg.pricing, old(session.working.ledger),
          old(session.working.store.tables), req, eventId, now);
              && result == AttemptResult(fault, old(session.aborted), outcome)
              && session.aborted == (old(session.aborted) || Aborts(fault, outcome))
              && session.working == if result.Returned? then old(session.working).(ledger := ledger)
                  else old(session.working)
    {
      if session.aborted {
        return Retry.OtherError;
      }
      if fault.AtConnect? || fault.AtCheck? {
        session.aborted := fault.AtCheck?;
        return if fault.transient then Retry.TransientError else Retry.OtherError;
      }
      var found := GetActiveByTenant(session.working.store.tables.subs, req.tenant);
      if found.NoRow? {
        return Retry.Returned(PaymentRequired);
      }
      if found.ManyRows? {
        return Retry.Returned(ServerError);
      }
      var sub := session.working.store.tables.subs[found.index];
      if sub.status != Active {
        if sub.status == PastDue || sub.status == Canceled {
          return Retry.Returned(PaymentRequired);
        }
      }
      if sub.plan !in session.working.store.tables.plans {
        return Retry.Returned(PaymentRequired);
      }
      var limit := LimitFor(session.working.store.tables.plans[sub.plan], req.usageType);
      var used := MonthlyUsage(session.working.ledger, req.tenant, req.usageType, StartOfMonth(now));
      if used + req.quantity > limit {
        return Retry.Returned(QuotaExceeded(used, limit, req.quantity));
      }
      if fault.AtInsert? {
        session.aborted := true;
        return if fault.transient then Retry.TransientError else Retry.OtherError;
      }
      var cost := Calculate(cfg.pricing, req.usageType, req.quantity);
      var event := usageRepo.RecordUsage(UsageEvent(eventId, req.tenant, req.key, req.usageType, req.quantity, cost,
          now));
      if event.None? {
        return Retry.Returned(QuotaExceeded(used, limit, req.quantity));
      }
      return Retry.Returned(Metered(ResponseFor(req, event.value, used, limit)));
    }

    /** The attempts of one `record`: the loop of Retry.WithDbRetry around Attempt, whose effects a list of
        outcomes cannot carry. However many attempts fail, the ledger changes as one recording changes it, or not
        at all. */
    method RecordUsage(req: MeterRequest, eventId: string, now: nat, faults: seq<Fault>)
      returns (result: Retry.Outcome<MeterOutcome>, slept: real)
      requires usageRepo.session == session && !session.aborted && |faults| == MAX_RETRIES
      modifies session`working, session`aborted
      ensures var (ledger, outcome) := Record(cfg.pricing, old(session.working.ledger),
          old(session.working.store.tables), req, eventId, now);
              var results := AttemptResults(faults, outcome);
              && result == Retry.Result(results, MAX_RETRIES)
              && slept == Retry.TotalWait(Retry.Calls(results, MAX_RETRIES) - 1, BASE_DELAY, MAX_DELAY)
              && slept == [0.0, 0.055, 0.175][Retry.Calls(results, MAX_RETRIES) - 1]
              && (result.Returned? ==> !session.aborted)
              && session.working == if result.Returned? then old(session.working).(ledger := ledger)
                  else old(session.working)
    {
      ghost var outcome := Record(cfg.pricing, session.working.ledger, session.working.store.tables, req, eventId,
          now).1;
      ghost var results := AttemptResults(faults, outcome);
      Retry.RecordingWaits();
      slept := 0.0;
      for attempt := 0 to MAX_RETRIES
        invariant attempt < MAX_RETRIES && slept == Retry.TotalWait(attempt, BASE_DELAY, MAX_DELAY)
        invariant session.working == old(session.working)
        invariant session.aborted == AbortedBefore(faults, outcome, attempt)
        invariant forall i | 0 <= i < attempt :: !Retry.Ends(results[i])
      {
        result := Attempt(req, eventId, now, faults[attempt]);
        if !result.TransientError? || attempt == MAX_RETRIES - 1 {
          if Retry.Ends(result) {
            Retry.FirstEndIsFirst(results, attempt);
          }
          return;
        }
        slept := slept + Retry.Wait(attempt, BASE_DELAY, MAX_DELAY);
      }
      assert false;
    }
  }

  /** The retries get past the faults. */
  predicate Absorbed(faults: seq<Fault>, outcome: MeterOutcome)
    requires |faults| == MAX_RETRIES
  {
    Retry.Result(AttemptResults(faults, outcome), MAX_RETRIES).Returned?
  }

  /** What the retries absorb is exactly transient failures to connect, followed in time by an attempt no error
      strikes. One failed statement, transient or not, and every later attempt is refused by the aborted
      transaction. */
  lemma AbsorbedExactly(faults: seq<Fault>, outcome: MeterOutcome)
    requires |faults| == MAX_RETRIES
    ensures Absorbed(faults, outcome) <==>
              exists i | 0 <= i < MAX_RETRIES ::
                Harmless(faults[i], outcome) && forall j | 0 <= j < i :: faults[j] == AtConnect(true)
  {
    var results := AttemptResults(faults, outcome);
    Retry.ResultExactly(results, MAX_RETRIES);
    if Absorbed(faults, outcome) {
      var i :| 0 <= i < MAX_RETRIES && results[i].Returned? && forall j | 0 <= j < i :: results[j].TransientError?;
      assert !AbortedBefore(faults, outcome, i);
      forall j | 0 <= j < i ensures faults[j] == AtConnect(true) {
        assert results[j].TransientError? && !Aborts(faults[j], outcome);
      }
    }
    forall i | 0 <= i < MAX_RETRIES && Harmless(faults[i], outcome)
        && forall j | 0 <= j < i :: faults[j] == AtConnect(true)
      ensures Absorbed(faults, outcome)
    {
      assert results[i].Returned? && forall j | 0 <= j < i :: results[j].TransientError?;
    }
  }

  lemma RefusalKeepsLedger(cfg: Config, state: State, req: MeterRequest, eventId: string, now: nat)
    ensures var (ledger, outcome) := Record(cfg.pricing, state.ledger, state.store.tables, req, eventId, now);
            !outcome.Metered? ==> ledger == state.ledger
  {
  }

  class Endpoints {
    const cfg: Config
    const session: Session
    const responses: Cache<string, CachedResponse>
    const reports: Cache<(TenantId, nat), UsageReport>

    constructor (cfg: Config, session: Session, responses: Cache<string, CachedResponse>,
                 reports: Cache<(TenantId, nat), UsageReport>)
      ensures this.cfg == cfg && this.session == session && this.responses == responses && this.reports == reports
    {
      this.cfg, this.session, this.responses, this.reports := cfg, session, responses, reports;
    }

    /** Committed state, caches and clock, as the serial machine sees them. */
    ghost function Abstract(now: nat): System
      reads session, responses, reports
    {
      System(Core(session.committed.store, session.committed.ledger, now), responses.entries, reports.entries)
    }

    /** What recording the request comes to without a database error. */
    ghost function Recorded(req: MeterRequest, eventId: string, now: nat): MeterOutcome
      reads session
    {
      Record(cfg.pricing, session.committed.ledger, session.committed.store.tables, req, eventId, now).1
    }

    /** POST /meter. On a cache hit, or when the retries absorb whatever errors the database raises, exactly one
        step of the serial machine; otherwise a server error, with nothing committed and nothing cached. */
    method Meter(req: MeterRequest, eventId: string, now: nat, faults: seq<Fault>, readable: bool, writable: bool)
      returns (outcome: MeterOutcome)
      requires session.working == session.committed && !session.aborted && |faults| == MAX_RETRIES
      modifies session, responses
      ensures session.working == session.committed && !session.aborted
      ensures var step := Metering.Meter(req, eventId, readable, writable);
              var (after, answer) := SystemStep(cfg, old(Abstract(now)), step);
              if Live(old(responses.entries), KeyOf(req), now, readable).Some?
                  || Absorbed(faults, old(Recorded(req, eventId, now))) then
                Abstract(now) == after && MeterAnswer(outcome) == answer
              else
                Abstract(now) == old(Abstract(now)) && outcome == ServerError
    {
      var k := KeyOf(req);
      var cached := responses.Get(k, now, readable);
      if cached.Some? {
        var response := FromCached(cached.value);
        return if response.Some? then Metered(response.value) else ServerError;
      }
      MissedStep(cfg, Abstract(now), req, eventId, readable, writable);
      outcome := MeterUncached(req, eventId, now, faults, writable);
    }

    /** The rest of POST /meter after a miss: record, then cache the response, then commit; roll back on any error. */
    method MeterUncached(req: MeterRequest, eventId: string, now: nat, faults: seq<Fault>, writable: bool)
      returns (outcome: MeterOutcome)
      requires session.working == session.committed && !session.aborted && |faults| == MAX_RETRIES
      modifies session, responses
      ensures session.working == session.committed && !session.aborted
      ensures var (ledger, recorded) := Record(cfg.pricing, old(session.committed.ledger),
          old(session.committed.store.tables), req, eventId, now);
              if Absorbed(faults, recorded) then
                && outcome == recorded
                && session.committed == old(session.committed).(ledger := ledger)
                && responses.entries == Stored(old(responses.entries), req, recorded, now, writable)
              else
                && outcome == ServerError
                && session.committed == old(session.committed) && responses.entries == old(responses.entries)
    {
      var service := new MeterService(cfg, session);
      var result, _ := service.RecordUsage(req, eventId, now, faults);
      if !result.Returned? {
        session.Rollback();
        return ServerError;
      }
      outcome := result.value;
      if outcome.Metered? {
        responses.Set(KeyOf(req), ToCached(outcome.response), now,
          IDEMPOTENCY_TTL_SECONDS, writable);
        session.Commit();
      } else {
        session.Rollback();
      }
      RefusalKeepsLedger(cfg, old(session.committed), req, eventId, now);
    }

    /** GET /usage. Exactly one step of the serial machine, unless a query fails after a miss. */
    method GetUsage(tenant: TenantId, now: nat, failing: bool, readable: bool, writable: bool) returns (rollup: Rollup)
      requires session.working == session.committed && !session.aborted
      modifies session, reports
      ensures session.working == session.committed && !session.aborted
      ensures var (after, answer) := SystemStep(cfg, old(Abstract(now)), Metering.GetUsage(tenant, readable, writable));
              if failing && Live(old(reports.entries), (tenant, MonthOf(now)), now, readable).None? then
                Abstract(now) == old(Abstract(now)) && rollup == Unavailable
              else
                Abstract(now) == after && UsageAnswer(rollup) == answer
    {
      var k := (tenant, MonthOf(now));
      var cached := reports.Get(k, now, readable);
      if cached.Some? {
        return Report(cached.value);
      }
      if failing {
        session.aborted := true;
        session.Rollback();
        return Unavailable;
      }
      rollup := FreshRollup(cfg.pricing, session.working.ledger, session.working.store.tables, tenant, now);
      if rollup.Report? {
        reports.Set(k, rollup.report, now, USAGE_CACHE_TTL, writable);
      }
    }
  }

  /** A handler's exception. */
  datatype Handled = Done | Raised

  /** The webhook endpoint and its handlers, on the session they share. */
  class WebhookEndpoint {
    const proPriceId: string
    const session: Session

    constructor (proPriceId: string, session: Session)
      ensures this.proPriceId == proPriceId && this.session == session
    {
      this.proPriceId, this.session := proPriceId, session;
    }

    /** A handler that raises may leave any partial effect in the session; one that returns leaves exactly
        `expected`. */
    ghost predicate Carries(before: State, after: State, handled: Handled, expected: Attempt<Tables>) {
      && (handled.Done? <==> expected.Success?)
      && (handled.Done? ==> after == before.(store := before.store.(tables := expected.value)))
    }

    method SetTables(attempt: Attempt<Tables>) returns (handled: Handled)
      modifies session`working
      ensures Carries(old(session.working), session.working, handled, attempt)
    {
      if attempt.Failure? {
        return Raised;
      }
      session.working := session.working.(store := session.working.store.(tables := attempt.value));
      return Done;
    }

    method HandleCheckoutCompleted(d: Webhook.Delivery) returns (handled: Handled)
      requires d.body.CheckoutCompleted?
      modifies session`working
      ensures Carries(old(session.working), session.working, handled,
                      Webhook.Handle(proPriceId, old(session.working.store.tables), d))
    {
      var tenant: TenantId;
      if d.body.tenant.Malformed? {
        return Done;
      } else if d.body.tenant.Parsed? {
        tenant := d.body.tenant.tenant;
        if tenant !in session.working.store.tables.tenants {
          return Done;
        }
      } else {
        if d.customer.None? {
          return Raised;
        }
        tenant := d.freshTenant;
        handled := SetTables(CreateTenant(session.working.store.tables, tenant, d.customer.value.email,
            d.customer.value.id));
        if handled.Raised? {
          return;
        }
      }
      var existing := GetByStripeId(session.working.store.tables.subs, d.body.subscription);
      if existing.ManyRows? {
        return Raised;
      }
      var tier := if d.body.displayed == Webhook.PriceId(proPriceId) then Pro else Free;
      handled := SetTables(UpsertFromStripe(session.working.store.tables,
        Webhook.CheckoutRow(tenant, d.body.subscription, tier, d.now)));
    }

    /** Assign fields of the found row and flush. */
    method SetStatusOfInvoiced(invoiced: Option<string>, status: SubscriptionStatus) returns (handled: Handled)
      modifies session`working
      ensures Carries(old(session.working), session.working, handled,
                      Webhook.HandleInvoice(old(session.working.store.tables), invoiced, status))
    {
      if invoiced.None? || invoiced.value == "" {
        return Done;
      }
      var found := GetByStripeId(session.working.store.tables.subs, invoiced);
      if found.ManyRows? {
        return Raised;
      }
      if found.OneRow? {
        var row := session.working.store.tables.subs[found.index];
        row := row.(status := status);
        handled := SetTables(UpdateSubscription(session.working.store.tables, found.index, row));
      } else {
        handled := Done;
      }
    }

    method HandleSubscriptionCreated(sub: Webhook.StripeSubscription) returns (handled: Handled)
      modifies session`working
      ensures Carries(old(session.working), session.working, handled,
                      Webhook.HandleCreated(proPriceId, old(session.working.store.tables), sub))
    {
      var status := ParseStatus(sub.status);
      var found := GetByStripeId(session.working.store.tables.subs, Some(sub.id));
      if found.ManyRows? {
        return Raised;
      }
      if found.OneRow? {
        if status.None? {
          return Raised;
        }
        var row := session.working.store.tables.subs[found.index];
        row := row.(status := status.value);
        handled := SetTables(UpdateSubscription(session.working.store.tables, found.index, row));
      } else {
        if sub.price.Unreadable? || sub.tenant.Malformed? || sub.tenant.Missing? {
          return Raised;
        }
        if status.None? || sub.periodStart.None? || sub.periodEnd.None? {
          return Raised;
        }
        var tier := if sub.price == Webhook.PriceId(proPriceId) then Pro else Free;
        handled := SetTables(InsertSubscription(session.working.store.tables,
          Subscription(sub.tenant.tenant, tier, Some(sub.id), status.value, sub.periodStart, sub.periodEnd,
            sub.cancelAtPeriodEnd, Webhook.Truthy(sub.canceledAt))));
      }
    }

    method HandleSubscriptionUpdated(sub: Webhook.StripeSubscription) returns (handled: Handled)
      modifies session`working
      ensures Carries(old(session.working), session.working, handled,
                      Webhook.HandleUpdated(proPriceId, old(session.working.store.tables), sub))
    {
      var found := GetByStripeId(session.working.store.tables.subs, Some(sub.id));
      if found.ManyRows? {
        return Raised;
      }
      if found.NoRow? {
        return Done;
      }
      var row := session.working.store.tables.subs[found.index];
      var status := ParseStatus(sub.status);
      if status.None? || sub.periodStart.None? || sub.periodEnd.None? {
        return Raised;
      }
      row := row.(status := status.value);
      row := row.(periodStart := sub.periodStart);
      row := row.(periodEnd := sub.periodEnd);
      row := row.(cancelAtPeriodEnd := sub.cancelAtPeriodEnd);
      if sub.price.Unreadable? {
        return Raised;
      }
      if sub.price.PriceId? {
        if sub.price.id != TierValue(row.plan) {
          row := row.(plan := if sub.price.id == proPriceId then Pro else Free);
        }
      }
      handled := SetTables(UpdateSubscription(session.working.store.tables, found.index, row));
    }

    method HandleSubscriptionDeleted(sub: Webhook.StripeSubscription, now: int) returns (handled: Handled)
      modifies session`working
      ensures Carries(old(session.working), session.working, handled,
                      Webhook.HandleDeleted(old(session.working.store.tables), sub, now))
    {
      var found := GetByStripeId(session.working.store.tables.subs, Some(sub.id));
      if found.ManyRows? {
        return Raised;
      }
      if found.NoRow? {
        return Done;
      }
      var row := session.working.store.tables.subs[found.index];
      row := row.(status := Canceled);
      if Webhook.Truthy(sub.canceledAt).Some? {
        row := row.(canceledAt := sub.canceledAt);
      } else {
        row := row.(canceledAt := Some(now));
      }
      handled := SetTables(UpdateSubscription(session.working.store.tables, found.index, row));
    }

    method ProcessStripeEvent(d: Webhook.Delivery) returns (handled: Handled)
      modifies session`working
      ensures Carries(old(session.working), session.working, handled,
                      Webhook.Handle(proPriceId, old(session.working.store.tables), d))
    {
      match d.body
      case CheckoutCompleted(_, _, _) => handled := HandleCheckoutCompleted(d);
      case PaymentSucceeded(s) => handled := SetStatusOfInvoiced(s, Active);
      case PaymentFailed(s) => handled := SetStatusOfInvoiced(s, PastDue);
      case SubscriptionCreated(sub) => handled := HandleSubscriptionCreated(sub);
      case SubscriptionUpdated(sub) => handled := HandleSubscriptionUpdated(sub);
      case SubscriptionDeleted(sub) => handled := HandleSubscriptionDeleted(sub, d.now);
      case _ => handled := Done;
    }

    /** POST /webhooks/stripe, after signature verification: exactly one `Deliver`, and whatever a failed handler
        left in the session is rolled back. */
    method StripeWebhook(d: Webhook.Delivery) returns (outcome: Webhook.WebhookOutcome)
      requires session.working == session.committed && !session.aborted
      modifies session
      ensures session.working == session.committed && !session.aborted
          && session.committed.ledger == old(session.committed.ledger)
      ensures (session.committed.store, outcome) == Webhook.Deliver(proPriceId, old(session.committed.store), d)
    {
      if Webhook.IsProcessed(session.working.store.log, d.eventId) {
        return Webhook.AlreadyProcessed;
      }
      var handled := ProcessStripeEvent(d);
      if handled.Raised? || !d.payloadStorable {
        session.Rollback();
        return Webhook.Failed;
      }
      var store := session.working.store;
      session.working := session.working.(store := store.(log := store.log + [d]));
      session.Commit();
      return Webhook.Processed;
    }
  }
}
