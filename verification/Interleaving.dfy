/**
 Metering requests in flight at the same time. Each request goes through the same reads and writes as in the
 serial machine, but every one of them is a separate step, so anything may happen in between: other requests,
 webhook deliveries, lost cache entries, transient database errors.

 A check reads committed rows only, a row becomes visible when its transaction commits, an insert waits while
 another transaction holds an uncommitted row of the same triple, and at most `pool` transactions are open at once,
 a webhook's among them. A session that loads a row keeps the object: a later query finds the row by what is
 committed then, and returns the object as it was loaded.
 The response is cached before the commit; a built response is always committed.
 */
module Interleaving {
  import opened Types
  import opened Tables
  import opened Ledger
  import opened Billing
  import opened CacheKeys
  import opened Metering
  import Webhook

  /** A request's session: whether it holds a connection, and the subscription object it has loaded. */
  datatype Session = Session(connected: bool, loaded: Option<Subscription>)

  const NEW_SESSION := Session(false, None)

  datatype Phase =
    | Arrived(session: Session)                                         // authenticated
    | Missed(session: Session)                                          // not in the response cache
    | Planned(row: Subscription, limit: int)                            // subscription and plan read
    | Admitted(row: Subscription, used: int, limit: int)                // usage read, within the limit
    | Inserted(event: UsageEvent, used: int, limit: int)                // own row, uncommitted
    | Existing(event: UsageEvent, used: int, limit: int)                // row of an earlier commit
    | Built(reply: MeterResponse, pending: Option<UsageEvent>)          // response built, commit to come
    | Finished(outcome: MeterOutcome)

  datatype Flight = Flight(request: MeterRequest, phase: Phase)

  datatype World = World(store: Webhook.Store, ledger: Ledger, responses: map<string, CachedResponse>,
                         flights: seq<Flight>)

  /** `pool` is the connection limit of the process, `monthStart` the start of the one month a run takes place in. */
  datatype Setup = Setup(cfg: Config, pool: nat, monthStart: nat)

  datatype Step =
    | Arrive(request: MeterRequest, tenantCached: bool)  // the tenant from its cache, or loaded with its row
    | LookUp(i: nat, reachable: bool)
    | ReadSubscription(i: nat)
    | ReadUsage(i: nat)
    | Insert(i: nat, eventId: string, at: nat)
    | Retry(i: nat, connected: bool, kept: bool)  // a transient error sends `record` back to its first read
    | Build(i: nat, stored: bool)
    | Commit(i: nat)
    | Fail(i: nat)                                // any other error before the response is built: roll back
    | Forget(keys: set<string>)
    | Stripe(delivery: Webhook.Delivery)

  /** A flight can start its first read of the check: it has a connection or can get one. */
  predicate CanRead(setup: Setup, w: World, i: nat) {
    && i < |w.flights| && w.flights[i].phase.Missed?
    && (w.flights[i].phase.session.connected || Open(w.flights) < setup.pool)
  }

  predicate OpenTransaction(f: Flight) {
    match f.phase
    case Arrived(session) => session.connected
    case Missed(session) => session.connected
    case Finished(_) => false
    case _ => true
  }

  function Open(flights: seq<Flight>): nat {
    if flights == [] then 0
    else Open(flights[..|flights| - 1]) + (if OpenTransaction(flights[|flights| - 1]) then 1 else 0)
  }

  /** The row a flight has inserted and not committed. */
  function Uncommitted(f: Flight): Option<UsageEvent> {
    match f.phase
    case Inserted(event, _, _) => Some(event)
    case Built(_, pending) => pending
    case _ => None
  }

  predicate TripleLocked(flights: seq<Flight>, req: MeterRequest) {
    exists j | 0 <= j < |flights| ::
      Uncommitted(flights[j]).Some? && HasTriple(Uncommitted(flights[j]).value, req.tenant, req.key, req.usageType)
  }

  function Move(w: World, i: nat, phase: Phase): World
    requires i < |w.flights|
  {
    w.(flights := w.flights[i := w.flights[i].(phase := phase)])
  }

  function Arrival(w: World, req: MeterRequest, tenantCached: bool): Flight {
    Flight(req, Arrived(
      if tenantCached then NEW_SESSION else Session(true, SubscriptionOf(w.store.tables.subs, req.tenant))))
  }

  function LookUpResult(w: World, req: MeterRequest, session: Session, reachable: bool): Phase {
    var k := KeyOf(req);
    if reachable && k in w.responses then
      match FromCached(w.responses[k])
      case Some(reply) => Finished(Metered(reply))
      case None => Finished(ServerError)
    else
      Missed(session)
  }

  /** The query is decided by the committed rows, status and plan are those of the object in the session. */
  function SubscriptionResult(w: World, req: MeterRequest, loaded: Option<Subscription>): Phase {
    match GetActiveByTenant(w.store.tables.subs, req.tenant)
    case NoRow => Finished(PaymentRequired)
    case ManyRows => Finished(ServerError)
    case OneRow(i) =>
      var row := if loaded.Some? then loaded.value else w.store.tables.subs[i];
      var read := PlanOfRow(w.store.tables, row);
      if read.Covered? then Planned(row, LimitFor(read.plan, req.usageType)) else Finished(PaymentRequired)
  }

  function UsageResult(setup: Setup, w: World, req: MeterRequest, row: Subscription, limit: int): Phase {
    var used := MonthlyUsage(w.ledger, req.tenant, req.usageType, setup.monthStart);
    if WillExceed(used, req.quantity, limit) then Finished(QuotaExceeded(used, limit, req.quantity))
    else Admitted(row, used, limit)
  }

  function InsertResult(setup: Setup, w: World, req: MeterRequest, eventId: string, at: nat, used: int,
                        limit: int): Phase {
    match Find(w.ledger, req.tenant, req.key, req.usageType)
    case Some(event) => Existing(event, used, limit)
    case None => Inserted(NewRow(setup.cfg.pricing, req, eventId, at), used, limit)
  }

  function BuildResponse(w: World, i: nat, row: UsageEvent, pending: Option<UsageEvent>, used: int, limit: int,
                         stored: bool): World
    requires i < |w.flights|
  {
    var req := w.flights[i].request;
    var reply := ResponseFor(req, row, used, limit);
    var built := Move(w, i, Built(reply, pending));
    if stored then built.(responses := built.responses[KeyOf(req) := ToCached(reply)]) else built
  }

  /** One step. A step that is not possible (a lock is held, no connection is free, the request is elsewhere)
      changes nothing. */
  function Apply(setup: Setup, w: World, step: Step): World {
    match step
    case Arrive(req, tenantCached) =>
      if tenantCached || Open(w.flights) < setup.pool then
        w.(flights := w.flights + [Arrival(w, req, tenantCached)])
      else w
    case LookUp(i, reachable) =>
      if i < |w.flights| && w.flights[i].phase.Arrived? then
        Move(w, i, LookUpResult(w, w.flights[i].request, w.flights[i].phase.session, reachable))
      else w
    case ReadSubscription(i) =>
      if CanRead(setup, w, i) then
        Move(w, i, SubscriptionResult(w, w.flights[i].request, w.flights[i].phase.session.loaded))
      else w
    case ReadUsage(i) =>
      if i < |w.flights| && w.flights[i].phase.Planned? then
        Move(w, i, UsageResult(setup, w, w.flights[i].request, w.flights[i].phase.row, w.flights[i].phase.limit))
      else w
    case Insert(i, eventId, at) =>
      if i < |w.flights| && w.flights[i].phase.Admitted? && !TripleLocked(w.flights, w.flights[i].request) then
        Move(w, i, InsertResult(setup, w, w.flights[i].request, eventId, at, w.flights[i].phase.used,
            w.flights[i].phase.limit))
      else w
    case Retry(i, connected, kept) =>
      if i < |w.flights| && (w.flights[i].phase.Planned? || w.flights[i].phase.Admitted?) then
        Move(w, i, Missed(Session(connected, if kept then Some(w.flights[i].phase.row) else None)))
      else w
    case Build(i, stored) =>
      if i < |w.flights| && w.flights[i].phase.Inserted? then
        var p := w.flights[i].phase;
        BuildResponse(w, i, p.event, Some(p.event), p.used, p.limit, stored)
      else if i < |w.flights| && w.flights[i].phase.Existing? then
        var p := w.flights[i].phase;
        BuildResponse(w, i, p.event, None, p.used, p.limit, stored)
      else w
    case Commit(i) =>
      if i < |w.flights| && w.flights[i].phase.Built? then
        var p := w.flights[i].phase;
        var done := Move(w, i, Finished(Metered(p.reply)));
        if p.pending.Some? then done.(ledger := w.ledger + [p.pending.value]) else done
      else w
    case Fail(i) =>
      if i < |w.flights| && !w.flights[i].phase.Built? && !w.flights[i].phase.Finished? then
        Move(w, i, Finished(ServerError))
      else w
    case Forget(keys) => w.(responses := w.responses - keys)
    case Stripe(d) =>
      if Open(w.flights) < setup.pool then w.(store := Webhook.Deliver(setup.cfg.proPriceId, w.store, d).0) else w
  }

  function Run(setup: Setup, w: World, steps: seq<Step>): World {
    if steps == [] then w
    else Apply(setup, Run(setup, w, steps[..|steps| - 1]), steps[|steps| - 1])
  }

  // ----- Runs by the worlds they pass through -----

  function Next(setup: Setup): (World, Step) -> World {
    (w: World, step: Step) => Apply(setup, w, step)
  }

  ghost predicate Visits(next: (World, Step) -> World, steps: seq<Step>, worlds: seq<World>) {
    && |worlds| == |steps| + 1
    && forall i {:trigger steps[i]} | 0 <= i < |steps| :: worlds[i + 1] == next(worlds[i], steps[i])
  }

  /** Run(setup, w, steps) == after, in a form that does not unfold the steps. */
  ghost predicate Leads(setup: Setup, w: World, steps: seq<Step>, after: World) {
    exists worlds :: Visits(Next(setup), steps, worlds) && worlds[0] == w && worlds[|steps|] == after
  }

  lemma {:induction false} VisitsIsRun(setup: Setup, steps: seq<Step>, worlds: seq<World>)
    requires Visits(Next(setup), steps, worlds)
    ensures worlds[|steps|] == Run(setup, worlds[0], steps)
  {
    if steps != [] {
      VisitsIsRun(setup, steps[..|steps| - 1], worlds[..|steps|]);
    }
  }

  lemma LeadsIsRun(setup: Setup, w: World, steps: seq<Step>, after: World)
    requires Leads(setup, w, steps, after)
    ensures after == Run(setup, w, steps)
  {
    var worlds :| Visits(Next(setup), steps, worlds) && worlds[0] == w && worlds[|steps|] == after;
    VisitsIsRun(setup, steps, worlds);
  }

  lemma LeadsNowhere(setup: Setup, w: World)
    ensures Leads(setup, w, [], w)
  {
    assert Visits(Next(setup), [], [w]);
  }

  lemma VisitsOn(next: (World, Step) -> World, steps: seq<Step>, first: seq<World>, more: seq<Step>, second: seq<World>)
    requires Visits(next, steps, first) && Visits(next, more, second) && first[|steps|] == second[0]
    ensures Visits(next, steps + more, first + second[1..])
  {
    var worlds := first + second[1..];
    forall i | 0 <= i < |steps + more| ensures worlds[i + 1] == next(worlds[i], (steps + more)[i]) {
      if i < |steps| {
        assert (steps + more)[i] == steps[i];
      } else {
        assert (steps + more)[i] == more[i - |steps|];
      }
    }
  }

  lemma LeadsOn(setup: Setup, w: World, steps: seq<Step>, mid: World, more: seq<Step>, after: World)
    requires Leads(setup, w, steps, mid) && Leads(setup, mid, more, after)
    ensures Leads(setup, w, steps + more, after)
  {
    var first :| Visits(Next(setup), steps, first) && first[0] == w && first[|steps|] == mid;
    var second :| Visits(Next(setup), more, second) && second[0] == mid && second[|more|] == after;
    VisitsOn(Next(setup), steps, first, more, second);
  }

  lemma LeadsByOne(setup: Setup, w: World, step: Step)
    ensures Leads(setup, w, [step], Apply(setup, w, step))
  {
    assert Visits(Next(setup), [step], [w, Apply(setup, w, step)]);
  }

  lemma LeadsOneMore(setup: Setup, w: World, steps: seq<Step>, mid: World, step: Step)
    requires Leads(setup, w, steps, mid)
    ensures Leads(setup, w, steps + [step], Apply(setup, mid, step))
  {
    LeadsByOne(setup, mid, step);
    LeadsOn(setup, w, steps, mid, [step], Apply(setup, mid, step));
  }

  lemma VisitsEach(next: (World, Step) -> World, steps: seq<Step>, worlds: seq<World>)
    requires 3 <= |steps| <= 4 && |worlds| == |steps| + 1
    requires worlds[1] == next(worlds[0], steps[0]) && worlds[2] == next(worlds[1], steps[1])
    requires worlds[3] == next(worlds[2], steps[2]) && (|steps| == 4 ==> worlds[4] == next(worlds[3], steps[3]))
    ensures Visits(next, steps, worlds)
  {
  }

  lemma LeadsByThree(setup: Setup, steps: seq<Step>, worlds: seq<World>)
    requires |steps| == 3 && |worlds| == 4
    requires worlds[1] == Apply(setup, worlds[0], steps[0]) && worlds[2] == Apply(setup, worlds[1], steps[1])
    requires worlds[3] == Apply(setup, worlds[2], steps[2])
    ensures Leads(setup, worlds[0], steps, worlds[3])
  {
    VisitsEach(Next(setup), steps, worlds);
  }

  lemma LeadsByFour(setup: Setup, steps: seq<Step>, worlds: seq<World>)
    requires |steps| == 4 && |worlds| == 5
    requires worlds[1] == Apply(setup, worlds[0], steps[0]) && worlds[2] == Apply(setup, worlds[1], steps[1])
    requires worlds[3] == Apply(setup, worlds[2], steps[2]) && worlds[4] == Apply(setup, worlds[3], steps[3])
    ensures Leads(setup, worlds[0], steps, worlds[4])
  {
    VisitsEach(Next(setup), steps, worlds);
  }

  /** The world with one more flight at the end. */
  function With(w: World, req: MeterRequest, phase: Phase): World {
    w.(flights := w.flights + [Flight(req, phase)])
  }

  lemma MoveLast(w: World, req: MeterRequest, phase: Phase, next: Phase)
    ensures Move(With(w, req, phase), |w.flights|, next) == With(w, req, next)
  {
  }

  /** Nothing in flight and nothing cached; any ledger that is unique and any tables that satisfy their
      constraints. */
  ghost predicate Initial(w: World) {
    w.flights == [] && w.responses == map[] && UniqueTriples(w.ledger) && Consistent(w.store.tables)
  }
}
