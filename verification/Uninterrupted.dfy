/**
 The interleaved machine against the serial one: a metering request whose steps run with nothing in between does to the
 tables, the ledger, the response cache and the caller exactly what one step of the serial machine does.
 */
module Uninterrupted {
  import opened Types
  import opened Tables
  import opened Ledger
  import opened Calendar
  import opened Billing
  import opened CacheKeys
  import opened Interleaving
  import Metering
  import QuotaRace

  function CachedAt(w: World, k: string): Option<CachedResponse> {
    if k in w.responses then Some(w.responses[k]) else None
  }

  /** Same committed state, and the same responses in the cache, the serial machine's expired ones apart. */
  ghost predicate Same(s: Metering.System, w: World) {
    && s.core.store == w.store && s.core.ledger == w.ledger
    && forall k :: CachedAt(w, k) == Metering.Live(s.responses, k, s.core.now, true)
  }

  /** The steps of one request after its arrival, in order; those after an early answer change nothing. */
  function StepsFrom(i: nat, eventId: string, now: nat, writable: bool): seq<Step> {
    [ReadSubscription(i), ReadUsage(i)] + FinishSteps(i, eventId, now, writable)
  }

  function FinishSteps(i: nat, eventId: string, now: nat, writable: bool): seq<Step> {
    [Insert(i, eventId, now), Build(i, writable), Commit(i)]
  }

  predicate AboutOpen(step: Step, i: nat) {
    (step.ReadSubscription? || step.ReadUsage? || step.Insert? || step.Build? || step.Commit?) && step.i == i
  }

  lemma AnsweredIsIdle(setup: Setup, w: World, i: nat, steps: seq<Step>)
    requires i < |w.flights| && w.flights[i].phase.Finished? && forall step | step in steps :: AboutOpen(step, i)
    ensures Leads(setup, w, steps, w)
  {
    var worlds := seq(|steps| + 1, _ => w);
    forall k | 0 <= k < |steps| ensures Apply(setup, w, steps[k]) == w {
      assert AboutOpen(steps[k], i);
    }
    assert Visits(Next(setup), steps, worlds);
  }

  function StoreReply(w: World, req: MeterRequest, outcome: MeterOutcome, writable: bool): map<string, CachedResponse> {
    if outcome.Metered? && writable then w.responses[Metering.KeyOf(req) := ToCached(outcome.response)] else w.responses
  }

  /** The request is answered: its row, its cached response and its outcome. */
  function Answered(w: World, req: MeterRequest, ledger: Ledger, outcome: MeterOutcome, writable: bool): World {
    With(w.(ledger := ledger, responses := StoreReply(w, req, outcome, writable)), req, Finished(outcome))
  }

  lemma AdmittedIsRecorded(setup: Setup, w: World, req: MeterRequest, row: Subscription, used: int, limit: int,
                           eventId: string, now: nat, writable: bool)
    requires !TripleLocked(w.flights, req)
    ensures var (ledger, event) := InsertOrExisting(w.ledger, Metering.NewRow(setup.cfg.pricing, req, eventId, now));
            Leads(setup, With(w, req, Admitted(row, used, limit)), FinishSteps(|w.flights|, eventId, now, writable),
              Answered(w, req, ledger, Metered(Metering.ResponseFor(req, event, used, limit)), writable))
  {
    var i := |w.flights|;
    var (ledger, event) := InsertOrExisting(w.ledger, Metering.NewRow(setup.cfg.pricing, req, eventId, now));
    var phase := InsertResult(setup, w, req, eventId, now, used, limit);
    var reply := Metering.ResponseFor(req, event, used, limit);
    var pending := if phase.Inserted? then Some(event) else None;
    var a0, a1 := With(w, req, Admitted(row, used, limit)), With(w, req, phase);
    var stored := w.(responses := StoreReply(w, req, Metered(reply), writable));
    var a2, a3 := With(stored, req, Built(reply, pending)), Answered(w, req, ledger, Metered(reply), writable);
    MoveLast(w, req, Admitted(row, used, limit), phase);
    MoveLast(w, req, phase, Built(reply, pending));
    MoveLast(stored, req, Built(reply, pending), Finished(Metered(reply)));
    LeadsByThree(setup, FinishSteps(i, eventId, now, writable), [a0, a1, a2, a3]);
  }

  lemma PlannedIsRecorded(setup: Setup, w: World, req: MeterRequest, row: Subscription, plan: Plan,
                          eventId: string, now: nat, writable: bool)
    requires !TripleLocked(w.flights, req) && setup.monthStart == StartOfMonth(now)
    ensures var (ledger, outcome) := Metering.RecordUnder(setup.cfg.pricing, w.ledger, Covered(plan), req, eventId,
        now);
            Leads(setup, With(w, req, Planned(row, LimitFor(plan, req.usageType))),
              [ReadUsage(|w.flights|)] + FinishSteps(|w.flights|, eventId, now, writable),
              Answered(w, req, ledger, outcome, writable))
  {
    var i, limit := |w.flights|, LimitFor(plan, req.usageType);
    var phase := UsageResult(setup, w, req, row, limit);
    MoveLast(w, req, Planned(row, limit), phase);
    var planned, checked := With(w, req, Planned(row, limit)), With(w, req, phase);
    LeadsByOne(setup, planned, ReadUsage(i));
    var (ledger, outcome) := Metering.RecordUnder(setup.cfg.pricing, w.ledger, Covered(plan), req, eventId, now);
    var after := Answered(w, req, ledger, outcome, writable);
    if phase.Admitted? {
      AdmittedIsRecorded(setup, w, req, row, phase.used, limit, eventId, now, writable);
    } else {
      AnsweredIsIdle(setup, checked, i, FinishSteps(i, eventId, now, writable));
    }
    LeadsOn(setup, planned, [ReadUsage(i)], checked, FinishSteps(i, eventId, now, writable), after);
  }

  /** The session has loaded nothing, or the row as it is. */
  ghost predicate Current(w: World, req: MeterRequest, session: Session) {
    session.loaded.Some? ==> session.loaded == SubscriptionOf(w.store.tables.subs, req.tenant)
  }

  lemma CurrentReadsPlan(w: World, req: MeterRequest, session: Session)
    requires Consistent(w.store.tables) && Current(w, req, session)
    ensures var phase := SubscriptionResult(w, req, session.loaded);
            match ReadPlan(w.store.tables, req.tenant)
            case Refused => phase == Finished(PaymentRequired)
            case Ambiguous => phase == Finished(ServerError)
            case Covered(plan) => phase.Planned? && phase.limit == LimitFor(plan, req.usageType)
  {
    LiveRowIsTheRow(w.store.tables.subs, req.tenant);
  }

  /** After a miss: the steps record the request as the serial machine does. */
  lemma MissedIsRecorded(setup: Setup, w: World, req: MeterRequest, session: Session, eventId: string, now: nat,
                         writable: bool)
    requires Consistent(w.store.tables) && Current(w, req, session)
    requires !TripleLocked(w.flights, req) && setup.monthStart == StartOfMonth(now) && Open(w.flights) < setup.pool
    ensures var (ledger, outcome) :=
              Metering.Record(setup.cfg.pricing, w.ledger, w.store.tables, req, eventId, now);
            Leads(setup, With(w, req, Missed(session)), StepsFrom(|w.flights|, eventId, now, writable),
              Answered(w, req, ledger, outcome, writable))
  {
    var i, read := |w.flights|, ReadPlan(w.store.tables, req.tenant);
    var phase := SubscriptionResult(w, req, session.loaded);
    CurrentReadsPlan(w, req, session);
    MoveLast(w, req, Missed(session), phase);
    QuotaRace.SumsOfAppend(w.flights, Flight(req, Missed(session)), "", ApiCall);
    var missed, planned := With(w, req, Missed(session)), With(w, req, phase);
    LeadsByOne(setup, missed, ReadSubscription(i));
    var (ledger, outcome) := Metering.Record(setup.cfg.pricing, w.ledger, w.store.tables, req, eventId, now);
    var rest := [ReadUsage(i)] + FinishSteps(i, eventId, now, writable);
    var after := Answered(w, req, ledger, outcome, writable);
    if phase.Planned? {
      PlannedIsRecorded(setup, w, req, phase.row, read.plan, eventId, now, writable);
    } else {
      AnsweredIsIdle(setup, planned, i, rest);
    }
    LeadsOn(setup, missed, [ReadSubscription(i)], planned, rest, after);
    assert [ReadSubscription(i)] + rest == StepsFrom(i, eventId, now, writable);
  }

  /** All the steps of one request. */
  function Request(i: nat, req: MeterRequest, tenantCached: bool, eventId: string, now: nat, readable: bool,
                   writable: bool): seq<Step>
  {
    [Arrive(req, tenantCached), LookUp(i, readable)] + StepsFrom(i, eventId, now, writable)
  }

  /** The world the steps of one request lead to. */
  function Outcome(setup: Setup, w: World, req: MeterRequest, tenantCached: bool, eventId: string, now: nat,
                   readable: bool, writable: bool): World
  {
    var phase := LookUpResult(w, req, Arrival(w, req, tenantCached).phase.session, readable);
    if phase.Missed? then
      var (ledger, outcome) := Metering.Record(setup.cfg.pricing, w.ledger, w.store.tables, req, eventId, now);
      Answered(w, req, ledger, outcome, writable)
    else
      With(w, req, phase)
  }

  lemma RequestLeads(setup: Setup, w: World, req: MeterRequest, tenantCached: bool, eventId: string, now: nat,
                     readable: bool, writable: bool)
    requires Consistent(w.store.tables) && setup.monthStart == StartOfMonth(now)
    requires Open(w.flights) < setup.pool && !TripleLocked(w.flights, req)
    ensures Leads(setup, w, Request(|w.flights|, req, tenantCached, eventId, now, readable, writable),
              Outcome(setup, w, req, tenantCached, eventId, now, readable, writable))
  {
    var i, session := |w.flights|, Arrival(w, req, tenantCached).phase.session;
    var rest, phase := StepsFrom(i, eventId, now, writable), LookUpResult(w, req, session, readable);
    var seen := With(w, req, phase);
    LookedUp(setup, w, req, tenantCached, readable);
    if phase.Missed? {
      MissedIsRecorded(setup, w, req, session, eventId, now, writable);
    } else {
      AnsweredIsIdle(setup, seen, i, rest);
    }
    var final := Outcome(setup, w, req, tenantCached, eventId, now, readable, writable);
    LeadsOn(setup, w, [Arrive(req, tenantCached), LookUp(i, readable)], seen, rest, final);
  }

  lemma LookedUp(setup: Setup, w: World, req: MeterRequest, tenantCached: bool, readable: bool)
    requires Open(w.flights) < setup.pool
    ensures var session := Arrival(w, req, tenantCached).phase.session;
            Leads(setup, w, [Arrive(req, tenantCached), LookUp(|w.flights|, readable)],
              With(w, req, LookUpResult(w, req, session, readable)))
  {
    var i, f := |w.flights|, Arrival(w, req, tenantCached);
    MoveLast(w, req, f.phase, LookUpResult(w, req, f.phase.session, readable));
    LeadsByOne(setup, w, Arrive(req, tenantCached));
    LeadsOneMore(setup, w, [Arrive(req, tenantCached)], With(w, req, f.phase), LookUp(i, readable));
    assert [Arrive(req, tenantCached)] + [LookUp(i, readable)] == [Arrive(req, tenantCached), LookUp(i, readable)];
  }

  /** A response stored now is live in both. */
  lemma StoringKeepsSame(s: Metering.System, after: Metering.System, w: World, req: MeterRequest, ledger: Ledger,
                         response: MeterResponse)
    requires Same(s, w) && after.core == s.core.(ledger := ledger)
    requires after.responses == s.responses[Metering.KeyOf(req) :=
               Metering.Entry(ToCached(response), s.core.now + Metering.IDEMPOTENCY_TTL_SECONDS)]
    ensures Same(after, Answered(w, req, ledger, Metered(response), true))
  {
    var final := Answered(w, req, ledger, Metered(response), true);
    forall k ensures CachedAt(final, k) == Metering.Live(after.responses, k, after.core.now, true) {
      assert CachedAt(w, k) == Metering.Live(s.responses, k, s.core.now, true);
    }
  }

  lemma SerialMiss(setup: Setup, s: Metering.System, w: World, req: MeterRequest, eventId: string, readable: bool,
                   writable: bool)
    requires Same(s, w) && Metering.Live(s.responses, Metering.KeyOf(req), s.core.now, readable).None?
    ensures var (after, answer) := Metering.SystemStep(setup.cfg, s, Metering.Meter(req, eventId, readable, writable));
            var (ledger, outcome) :=
              Metering.Record(setup.cfg.pricing, w.ledger, w.store.tables, req, eventId, s.core.now);
            Same(after, Answered(w, req, ledger, outcome, writable)) && answer.outcome == outcome
  {
    Metering.MissedStep(setup.cfg, s, req, eventId, readable, writable);
    var after := Metering.SystemStep(setup.cfg, s, Metering.Meter(req, eventId, readable, writable)).0;
    var (ledger, outcome) := Metering.Record(setup.cfg.pricing, w.ledger, w.store.tables, req, eventId, s.core.now);
    if outcome.Metered? && writable {
      StoringKeepsSame(s, after, w, req, ledger, outcome.response);
    } else {
      assert Same(s.(core := s.core.(ledger := ledger)), w.(ledger := ledger));
    }
  }

  /** What the serial step comes to, in terms of the world. */
  lemma SerialStep(setup: Setup, s: Metering.System, w: World, req: MeterRequest, tenantCached: bool, eventId: string,
                   readable: bool, writable: bool)
    requires Same(s, w)
    ensures var (after, answer) := Metering.SystemStep(setup.cfg, s, Metering.Meter(req, eventId, readable, writable));
            var final := Outcome(setup, w, req, tenantCached, eventId, s.core.now, readable, writable);
            Same(after, final) && final.flights == w.flights + [Flight(req, Finished(answer.outcome))]
  {
    assert CachedAt(w, Metering.KeyOf(req)) == Metering.Live(s.responses, Metering.KeyOf(req), s.core.now, true);
    var phase := LookUpResult(w, req, Arrival(w, req, tenantCached).phase.session, readable);
    if phase.Missed? {
      SerialMiss(setup, s, w, req, eventId, readable, writable);
    } else {
      SameFlightsApart(s, w, req, phase);
    }
  }

  lemma SameFlightsApart(s: Metering.System, w: World, req: MeterRequest, phase: Phase)
    requires Same(s, w)
    ensures Same(s, With(w, req, phase))
  {
    forall k ensures CachedAt(With(w, req, phase), k) == Metering.Live(s.responses, k, s.core.now, true) {
      assert CachedAt(w, k) == Metering.Live(s.responses, k, s.core.now, true);
    }
  }

  /** One request's steps in a row, whatever the other requests have done so far, come to the serial machine's
      step: the states are the same again and the answer is the serial answer. */
  lemma UninterruptedIsSerial(setup: Setup, s: Metering.System, w: World, req: MeterRequest, tenantCached: bool,
                              eventId: string, readable: bool, writable: bool)
    requires Same(s, w) && Consistent(w.store.tables) && setup.monthStart == StartOfMonth(s.core.now)
    requires Open(w.flights) < setup.pool && !TripleLocked(w.flights, req)
    ensures var steps := Request(|w.flights|, req, tenantCached, eventId, s.core.now, readable, writable);
            var final := Run(setup, w, steps);
            var (after, answer) := Metering.SystemStep(setup.cfg, s, Metering.Meter(req, eventId, readable, writable));
            Same(after, final) && final.flights == w.flights + [Flight(req, Finished(answer.outcome))]
  {
    var steps := Request(|w.flights|, req, tenantCached, eventId, s.core.now, readable, writable);
    var final := Outcome(setup, w, req, tenantCached, eventId, s.core.now, readable, writable);
    RequestLeads(setup, w, req, tenantCached, eventId, s.core.now, readable, writable);
    LeadsIsRun(setup, w, steps, final);
    SerialStep(setup, s, w, req, tenantCached, eventId, readable, writable);
  }
}
