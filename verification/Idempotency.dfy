/**
 Idempotency over every interleaving: one ledger row per (tenant, key, type), one event behind all 200 responses
 for it, and no row without a 200 nor a 200 without a row.
 */
module Idempotency {
  import opened Types
  import opened Ledger
  import opened CacheKeys
  import opened Interleaving
  import Metering

  predicate ForRequest(e: UsageEvent, req: MeterRequest) {
    HasTriple(e, req.tenant, req.key, req.usageType)
  }

  /** A row that is committed, or whose response is built and whose commit is therefore coming. */
  ghost predicate Firm(w: World, e: UsageEvent) {
    e in w.ledger
    || exists j :: 0 <= j < |w.flights| && w.flights[j].phase.Built? && w.flights[j].phase.pending == Some(e)
  }

  ghost predicate Backed(w: World, req: MeterRequest, reply: MeterResponse) {
    exists e :: Firm(w, e) && ForRequest(e, req) && Metering.Reports(reply, e)
  }

  /** The cached response under `k` is that of a firm row `k` identifies. */
  ghost predicate CacheBacked(w: World, k: string)
    requires k in w.responses
  {
    exists e :: && Firm(w, e) && k == IdempotencyKey(e.tenant, e.key, e.usageType)
                && FromCached(w.responses[k]).Some? && Metering.Reports(FromCached(w.responses[k]).value, e)
  }

  ghost predicate FlightSound(w: World, f: Flight) {
    match f.phase
    case Inserted(event, _, _) => ForRequest(event, f.request)
    case Existing(event, _, _) => event in w.ledger && ForRequest(event, f.request)
    case Built(reply, Some(row)) => ForRequest(row, f.request) && Metering.Reports(reply, row)
    case Built(reply, None) => Backed(w, f.request, reply)
    case Finished(Metered(reply)) => Backed(w, f.request, reply)
    case _ => true
  }

  ghost predicate FlightsSound(w: World) {
    forall i | 0 <= i < |w.flights| :: FlightSound(w, w.flights[i])
  }

  /** No two rows, committed or not, have the same triple. */
  ghost predicate Exclusive(w: World) {
    && UniqueTriples(w.ledger)
    && (forall i, j | 0 <= i < j < |w.flights| && Uncommitted(w.flights[i]).Some? && Uncommitted(w.flights[j]).Some? ::
          !SameTriple(Uncommitted(w.flights[i]).value, Uncommitted(w.flights[j]).value))
    && (forall i, e | 0 <= i < |w.flights| && Uncommitted(w.flights[i]).Some? && e in w.ledger ::
          !SameTriple(Uncommitted(w.flights[i]).value, e))
  }

  ghost predicate CacheSound(w: World) {
    forall k | k in w.responses :: CacheBacked(w, k)
  }

  /** Every row beyond the initial ledger was answered with a 200 that reports it. */
  ghost predicate Answered(w: World, e: UsageEvent) {
    exists j :: 0 <= j < |w.flights| && ForRequest(e, w.flights[j].request)
      && w.flights[j].phase.Finished? && w.flights[j].phase.outcome.Metered?
      && Metering.Reports(w.flights[j].phase.outcome.response, e)
  }

  ghost predicate AllAnswered(w: World, initial: Ledger) {
    initial <= w.ledger && forall i | |initial| <= i < |w.ledger| :: Answered(w, w.ledger[i])
  }

  ghost predicate Invariant(w: World, initial: Ledger) {
    Exclusive(w) && FlightsSound(w) && CacheSound(w) && AllAnswered(w, initial)
  }

  /** Two firm rows of one triple are one row. */
  lemma FirmIsUnique(w: World, e: UsageEvent, f: UsageEvent)
    requires Exclusive(w) && Firm(w, e) && Firm(w, f) && SameTriple(e, f)
    ensures e == f
  {
    if e in w.ledger && f in w.ledger {
      FindIsThatRow(w.ledger, e);
      FindIsThatRow(w.ledger, f);
    }
  }

  ghost predicate FirmGrows(before: World, after: World) {
    forall e | Firm(before, e) :: Firm(after, e)
  }

  lemma BackedGrows(before: World, after: World, req: MeterRequest, reply: MeterResponse)
    requires FirmGrows(before, after) && Backed(before, req, reply)
    ensures Backed(after, req, reply)
  {
  }

  /** A flight that is not finished moves; the committed rows and the other flights stay. */
  lemma MoveIsSound(w: World, i: nat, phase: Phase, initial: Ledger)
    requires Invariant(w, initial) && i < |w.flights| && !w.flights[i].phase.Built? && !w.flights[i].phase.Finished?
    requires Uncommitted(w.flights[i].(phase := phase)).None?
        || Uncommitted(w.flights[i].(phase := phase)) == Uncommitted(w.flights[i])
    requires FlightSound(Move(w, i, phase), w.flights[i].(phase := phase))
    ensures Invariant(Move(w, i, phase), initial) && FirmGrows(w, Move(w, i, phase))
  {
    var after := Move(w, i, phase);
    MoveGrowsFirm(w, i, phase);
    forall j | 0 <= j < |w.flights| ensures FlightSound(after, after.flights[j]) {
      if j != i { OthersStaySound(w, after, w.flights[j]); }
    }
    CacheStaysSound(w, after);
    AnswersStay(w, after, initial);
  }

  lemma MoveGrowsFirm(w: World, i: nat, phase: Phase)
    requires i < |w.flights| && !w.flights[i].phase.Built?
    ensures FirmGrows(w, Move(w, i, phase))
  {
    var after := Move(w, i, phase);
    forall e | Firm(w, e) ensures Firm(after, e) {
      if e !in w.ledger {
        var j :| 0 <= j < |w.flights| && w.flights[j].phase.Built? && w.flights[j].phase.pending == Some(e);
        assert after.flights[j] == w.flights[j];
      }
    }
  }

  lemma OthersStaySound(before: World, after: World, f: Flight)
    requires FirmGrows(before, after) && before.ledger <= after.ledger && FlightSound(before, f)
    ensures FlightSound(after, f)
  {
    match f.phase
    case Built(reply, None) => BackedGrows(before, after, f.request, reply);
    case Finished(Metered(reply)) => BackedGrows(before, after, f.request, reply);
    case _ =>
  }

  lemma CacheStaysSound(before: World, after: World)
    requires CacheSound(before) && FirmGrows(before, after)
    requires forall k | k in after.responses :: k in before.responses && after.responses[k] == before.responses[k]
    ensures CacheSound(after)
  {
    forall k | k in after.responses ensures CacheBacked(after, k) {
      assert CacheBacked(before, k);
    }
  }

  ghost predicate FinishedStays(before: World, after: World) {
    && |before.flights| <= |after.flights|
    && forall j | 0 <= j < |before.flights| && before.flights[j].phase.Finished?
         :: after.flights[j] == before.flights[j]
  }

  lemma AnswersStay(before: World, after: World, initial: Ledger)
    requires AllAnswered(before, initial) && before.ledger == after.ledger && FinishedStays(before, after)
    ensures AllAnswered(after, initial)
  {
    forall i | |initial| <= i < |after.ledger| ensures Answered(after, after.ledger[i]) {
      AnswerStays(before, after, before.ledger[i]);
    }
  }

  lemma AnswerStays(before: World, after: World, e: UsageEvent)
    requires Answered(before, e) && FinishedStays(before, after)
    ensures Answered(after, e)
  {
    var j :| 0 <= j < |before.flights| && ForRequest(e, before.flights[j].request)
      && before.flights[j].phase.Finished? && before.flights[j].phase.outcome.Metered?
      && Metering.Reports(before.flights[j].phase.outcome.response, e);
    assert after.flights[j] == before.flights[j];
  }

  lemma ArriveIsSound(setup: Setup, w: World, req: MeterRequest, cached: bool, initial: Ledger)
    requires Invariant(w, initial)
    ensures Invariant(Apply(setup, w, Arrive(req, cached)), initial)
  {
    if cached || Open(w.flights) < setup.pool {
      JoinIsSound(w, Arrival(w, req, cached), initial);
    }
  }

  lemma JoinIsSound(w: World, f: Flight, initial: Ledger)
    requires Invariant(w, initial) && f.phase.Arrived?
    ensures Invariant(w.(flights := w.flights + [f]), initial)
  {
    var after := w.(flights := w.flights + [f]);
    forall e | Firm(w, e) ensures Firm(after, e) {
      if e !in w.ledger {
        var j :| 0 <= j < |w.flights| && w.flights[j].phase.Built? && w.flights[j].phase.pending == Some(e);
        assert after.flights[j] == w.flights[j];
      }
    }
    forall j | 0 <= j < |after.flights| ensures FlightSound(after, after.flights[j]) {
      if j < |w.flights| { OthersStaySound(w, after, w.flights[j]); }
    }
    CacheStaysSound(w, after);
    AnswersStay(w, after, initial);
  }

  /** A cached response is backed by a row of the very request that finds it. */
  lemma LookUpIsSound(setup: Setup, w: World, i: nat, reachable: bool, initial: Ledger)
    requires Invariant(w, initial)
    ensures Invariant(Apply(setup, w, LookUp(i, reachable)), initial)
  {
    if i < |w.flights| && w.flights[i].phase.Arrived? {
      var req := w.flights[i].request;
      var phase := LookUpResult(w, req, w.flights[i].phase.session, reachable);
      if phase.Finished? {
        var k := Metering.KeyOf(req);
        assert CacheBacked(w, k);
        var e :| Firm(w, e) && k == IdempotencyKey(e.tenant, e.key, e.usageType)
                 && FromCached(w.responses[k]).Some? && Metering.Reports(FromCached(w.responses[k]).value, e);
        CacheKeyIsInjective(req.tenant, req.key, req.usageType, e.tenant, e.key, e.usageType);
        MoveGrowsFirm(w, i, phase);
        assert Firm(Move(w, i, phase), e);
      }
      MoveIsSound(w, i, phase, initial);
    }
  }

  lemma InsertIsSound(setup: Setup, w: World, i: nat, eventId: string, at: nat, initial: Ledger)
    requires Invariant(w, initial)
    ensures Invariant(Apply(setup, w, Insert(i, eventId, at)), initial)
  {
    if i < |w.flights| && w.flights[i].phase.Admitted? && !TripleLocked(w.flights, w.flights[i].request) {
      var f := w.flights[i];
      var phase := InsertResult(setup, w, f.request, eventId, at, f.phase.used, f.phase.limit);
      if phase.Existing? {
        MoveIsSound(w, i, phase, initial);
      } else {
        InsertedIsSound(w, i, phase, initial);
      }
    }
  }

  /** An uncommitted row appears where no committed or uncommitted row of its triple is. */
  lemma InsertedIsSound(w: World, i: nat, phase: Phase, initial: Ledger)
    requires Invariant(w, initial) && i < |w.flights| && w.flights[i].phase.Admitted?
    requires phase.Inserted? && ForRequest(phase.event, w.flights[i].request)
    requires !TripleLocked(w.flights, w.flights[i].request)
    requires forall e | e in w.ledger :: !ForRequest(e, w.flights[i].request)
    ensures Invariant(Move(w, i, phase), initial)
  {
    var after := Move(w, i, phase);
    MoveGrowsFirm(w, i, phase);
    forall j | 0 <= j < |w.flights| ensures FlightSound(after, after.flights[j]) {
      if j != i { OthersStaySound(w, after, w.flights[j]); }
    }
    CacheStaysSound(w, after);
    AnswersStay(w, after, initial);
    forall j | 0 <= j < |w.flights| && j != i && Uncommitted(w.flights[j]).Some?
      ensures !SameTriple(Uncommitted(w.flights[j]).value, phase.event)
          && !SameTriple(phase.event, Uncommitted(w.flights[j]).value)
    {
    }
  }

  /** Building a response makes the flight's own row firm, or reports a committed one; the cache entry written is
      that response. */
  lemma BuildIsSound(setup: Setup, w: World, i: nat, stored: bool, initial: Ledger)
    requires Invariant(w, initial)
    ensures Invariant(Apply(setup, w, Build(i, stored)), initial)
  {
    if i < |w.flights| && (w.flights[i].phase.Inserted? || w.flights[i].phase.Existing?) {
      var f := w.flights[i];
      assert FlightSound(w, f);
      var row := f.phase.event;
      var reply := Metering.ResponseFor(f.request, row, f.phase.used, f.phase.limit);
      var phase := Built(reply, if f.phase.Inserted? then Some(row) else None);
      var moved := Move(w, i, phase);
      var after := Apply(setup, w, Build(i, stored));
      assert moved.flights[i].phase == phase;
      assert Firm(moved, row);
      MoveIsSound(w, i, phase, initial);
      CachedRoundTrip(reply, ToCached(reply));
      BuildKeepsCache(moved, after, f.request, row, reply);
      forall j | 0 <= j < |after.flights| ensures FlightSound(after, after.flights[j]) {
        OthersStaySound(moved, after, moved.flights[j]);
      }
      AnswersStay(moved, after, initial);
    }
  }

  lemma BuildKeepsCache(moved: World, after: World, req: MeterRequest, row: UsageEvent, reply: MeterResponse)
    requires CacheSound(moved) && after.ledger == moved.ledger && after.flights == moved.flights
    requires Firm(moved, row) && ForRequest(row, req) && Metering.Reports(reply, row)
        && FromCached(ToCached(reply)) == Some(reply)
    requires after.responses == moved.responses || after.responses ==
        moved.responses[Metering.KeyOf(req) := ToCached(reply)]
    ensures CacheSound(after) && FirmGrows(moved, after)
  {
    forall e | Firm(moved, e) ensures Firm(after, e) {
    }
    forall k | k in after.responses ensures CacheBacked(after, k) {
      if k in moved.responses && after.responses[k] == moved.responses[k] {
        assert CacheBacked(moved, k);
      } else {
        assert Firm(after, row);
      }
    }
  }

  lemma CommitIsSound(setup: Setup, w: World, i: nat, initial: Ledger)
    requires Invariant(w, initial) && i < |w.flights| && w.flights[i].phase.Built?
    ensures Invariant(Apply(setup, w, Commit(i)), initial)
  {
    var f := w.flights[i];
    assert FlightSound(w, f);
    var after := Apply(setup, w, Commit(i));
    forall e | Firm(w, e) ensures Firm(after, e) {
      if e !in w.ledger {
        var j :| 0 <= j < |w.flights| && w.flights[j].phase.Built? && w.flights[j].phase.pending == Some(e);
        if j != i {
          assert after.flights[j] == w.flights[j];
        } else {
          assert e in after.ledger;
        }
      }
    }
    if f.phase.pending.Some? {
      var row := f.phase.pending.value;
      assert Firm(w, row);
      assert Backed(w, f.request, f.phase.reply);
    }
    BackedGrows(w, after, f.request, f.phase.reply);
    forall j | 0 <= j < |w.flights| ensures FlightSound(after, after.flights[j]) {
      if j != i { OthersStaySound(w, after, w.flights[j]); }
    }
    CacheStaysSound(w, after);
    CommitKeepsExclusive(setup, w, i, initial);
    CommitIsAnswered(setup, w, i, initial);
  }

  lemma CommitKeepsExclusive(setup: Setup, w: World, i: nat, initial: Ledger)
    requires Invariant(w, initial) && i < |w.flights| && w.flights[i].phase.Built?
    ensures Exclusive(Apply(setup, w, Commit(i)))
  {
    var after := Apply(setup, w, Commit(i));
    var pending := w.flights[i].phase.pending;
    if pending.Some? {
      var row := pending.value;
      assert Uncommitted(w.flights[i]) == Some(row);
      assert forall e | e in w.ledger :: !SameTriple(row, e) && !SameTriple(e, row);
      forall j, e | 0 <= j < |after.flights| && Uncommitted(after.flights[j]).Some? && e in after.ledger
        ensures !SameTriple(Uncommitted(after.flights[j]).value, e)
      {
        assert j != i && after.flights[j] == w.flights[j];
        if e == row {
          assert j < i ==> !SameTriple(Uncommitted(w.flights[j]).value, row);
          assert i < j ==> !SameTriple(row, Uncommitted(w.flights[j]).value);
        } else {
          assert e in w.ledger;
        }
      }
    }
  }

  lemma CommitIsAnswered(setup: Setup, w: World, i: nat, initial: Ledger)
    requires Invariant(w, initial) && i < |w.flights| && w.flights[i].phase.Built?
    ensures AllAnswered(Apply(setup, w, Commit(i)), initial)
  {
    var after := Apply(setup, w, Commit(i));
    assert FlightSound(w, w.flights[i]);
    forall n | |initial| <= n < |after.ledger| ensures Answered(after, after.ledger[n]) {
      if n < |w.ledger| {
        assert after.ledger[n] == w.ledger[n];
        AnswerStays(w, after, w.ledger[n]);
      } else {
        assert after.flights[i].phase.Finished?;
      }
    }
  }

  lemma StepIsSound(setup: Setup, w: World, step: Step, initial: Ledger)
    requires Invariant(w, initial)
    ensures Invariant(Apply(setup, w, step), initial)
  {
    match step
    case Arrive(req, cached) => ArriveIsSound(setup, w, req, cached, initial);
    case LookUp(i, reachable) => LookUpIsSound(setup, w, i, reachable, initial);
    case ReadSubscription(i) =>
      if CanRead(setup, w, i) {
        MoveIsSound(w, i, SubscriptionResult(w, w.flights[i].request, w.flights[i].phase.session.loaded), initial);
      }
    case ReadUsage(i) =>
      if i < |w.flights| && w.flights[i].phase.Planned? {
        MoveIsSound(w, i, UsageResult(setup, w, w.flights[i].request, w.flights[i].phase.row, w.flights[i].phase.limit),
            initial);
      }
    case Insert(i, eventId, at) => InsertIsSound(setup, w, i, eventId, at, initial);
    case Retry(i, connected, kept) =>
      if i < |w.flights| && (w.flights[i].phase.Planned? || w.flights[i].phase.Admitted?) {
        MoveIsSound(w, i, Missed(Session(connected, if kept then Some(w.flights[i].phase.row) else None)), initial);
      }
    case Build(i, stored) => BuildIsSound(setup, w, i, stored, initial);
    case Commit(i) =>
      if i < |w.flights| && w.flights[i].phase.Built? {
        CommitIsSound(setup, w, i, initial);
      }
    case Fail(i) =>
      if i < |w.flights| && !w.flights[i].phase.Built? && !w.flights[i].phase.Finished? {
        MoveIsSound(w, i, Finished(ServerError), initial);
      }
    case _ => SameRowsStaySound(w, Apply(setup, w, step), initial);
  }

  lemma SameRowsStaySound(w: World, after: World, initial: Ledger)
    requires Invariant(w, initial) && after.ledger == w.ledger && after.flights == w.flights
    requires forall k | k in after.responses :: k in w.responses && after.responses[k] == w.responses[k]
    ensures Invariant(after, initial)
  {
    forall e | Firm(w, e) ensures Firm(after, e) {
    }
    forall j | 0 <= j < |w.flights| ensures FlightSound(after, after.flights[j]) {
      OthersStaySound(w, after, w.flights[j]);
    }
    CacheStaysSound(w, after);
    AnswersStay(w, after, initial);
  }

  lemma {:induction false} RunIsSound(setup: Setup, w: World, steps: seq<Step>)
    requires Initial(w)
    ensures Invariant(Run(setup, w, steps), w.ledger)
  {
    if steps != [] {
      RunIsSound(setup, w, steps[..|steps| - 1]);
      StepIsSound(setup, Run(setup, w, steps[..|steps| - 1]), steps[|steps| - 1], w.ledger);
    }
  }

  predicate Succeeded(f: Flight) {
    f.phase.Finished? && f.phase.outcome.Metered?
  }

  /** In every reachable state: the ledger has at most one row for a triple; any two 200 responses for a triple
      carry the same event id, type, quantity and cost, whether from the cache, a fresh insert or a conflict and
      whatever quantities the requests asked for; and every row written during the run was answered with a 200
      reporting it. */
  lemma IdempotentUnderConcurrency(setup: Setup, w: World, steps: seq<Step>, i: nat, j: nat)
    requires Initial(w)
    ensures var final := Run(setup, w, steps);
            && UniqueTriples(final.ledger)
            && (&& i < |final.flights| && j < |final.flights| && Succeeded(final.flights[i])
                && Succeeded(final.flights[j])
                && Metering.KeyOf(final.flights[i].request) == Metering.KeyOf(final.flights[j].request) ==>
                  Metering.SameEvent(final.flights[i].phase.outcome.response, final.flights[j].phase.outcome.response))
            && w.ledger <= final.ledger
            && (forall n | |w.ledger| <= n < |final.ledger| :: Answered(final, final.ledger[n]))
  {
    RunIsSound(setup, w, steps);
    var final := Run(setup, w, steps);
    if i < |final.flights| && j < |final.flights| && Succeeded(final.flights[i]) && Succeeded(final.flights[j])
       && Metering.KeyOf(final.flights[i].request) == Metering.KeyOf(final.flights[j].request) {
      var a, b := final.flights[i], final.flights[j];
      assert FlightSound(final, a) && FlightSound(final, b);
      var e :| Firm(final, e) && ForRequest(e, a.request) && Metering.Reports(a.phase.outcome.response, e);
      var f :| Firm(final, f) && ForRequest(f, b.request) && Metering.Reports(b.phase.outcome.response, f);
      CacheKeyIsInjective(a.request.tenant, a.request.key, a.request.usageType, b.request.tenant, b.request.key,
          b.request.usageType);
      FirmIsUnique(final, e, f);
    }
  }

  /** Once no commit is outstanding, every 200 given out has exactly the row it reports in the ledger. */
  lemma SettledResponsesAreBilled(setup: Setup, w: World, steps: seq<Step>, i: nat)
    requires Initial(w)
    requires var final := Run(setup, w, steps);
             && i < |final.flights| && Succeeded(final.flights[i])
             && forall j | 0 <= j < |final.flights| :: !final.flights[j].phase.Built?
    ensures var final := Run(setup, w, steps);
            var req := final.flights[i].request;
            var row := Find(final.ledger, req.tenant, req.key, req.usageType);
            row.Some? && Metering.Reports(final.flights[i].phase.outcome.response, row.value)
  {
    RunIsSound(setup, w, steps);
    var final := Run(setup, w, steps);
    var f := final.flights[i];
    assert FlightSound(final, f);
    var e :| Firm(final, e) && ForRequest(e, f.request) && Metering.Reports(f.phase.outcome.response, e);
    FindIsThatRow(final.ledger, e);
  }
}
