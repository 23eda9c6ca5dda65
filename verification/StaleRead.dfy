/**
 The object a session has loaded against the row as it is. A request that loaded its tenant's subscription when it
 authenticated is checked by that object, so it may be refused although the subscription has been reopened since.
 The main result: exactly for which pools some run refuses a tenant whose subscription is live.
 */
module StaleRead {
  import opened Types
  import opened Tables
  import opened Billing
  import opened Interleaving
  import opened GateWitness
  import StatusRace
  import Webhook

  /** The object's status and plan pass the check. */
  predicate Passes(w: World, row: Subscription) {
    PlanOfRow(w.store.tables, row).Covered?
  }

  /** A session's object is the row as it is, and nothing can change that row while the session has its
      connection, or it is one that passes. */
  ghost predicate FreshOrPassing(w: World, f: Flight) {
    match f.phase
    case Arrived(session) => SessionFits(w, f.request, session)
    case Missed(session) => SessionFits(w, f.request, session)
    case Planned(row, _) => Passes(w, row)
    case Admitted(row, _, _) => Passes(w, row)
    case _ => true
  }

  ghost predicate SessionFits(w: World, req: MeterRequest, session: Session) {
    session.loaded.Some? ==>
      Passes(w, session.loaded.value)
      || (session.connected && SubscriptionOf(w.store.tables.subs, req.tenant) == session.loaded)
  }

  ghost predicate AllFit(w: World) {
    forall i | 0 <= i < |w.flights| :: FreshOrPassing(w, w.flights[i])
  }

  lemma {:induction false} NoneOpen(flights: seq<Flight>, i: nat)
    requires Open(flights) == 0 && i < |flights|
    ensures !OpenTransaction(flights[i])
  {
    if i < |flights| - 1 {
      NoneOpen(flights[..|flights| - 1], i);
    }
  }

  /** With a single connection a webhook runs only while no session holds one. */
  lemma StripeFits(setup: Setup, w: World, d: Webhook.Delivery)
    requires setup.pool <= 1 && AllFit(w)
    ensures AllFit(Apply(setup, w, Stripe(d)))
  {
    var after := Apply(setup, w, Stripe(d));
    if after.store != w.store {
      Webhook.HandleKeepsTables(setup.cfg.proPriceId, w.store.tables, d);
      forall i | 0 <= i < |w.flights| ensures FreshOrPassing(after, after.flights[i]) {
        NoneOpen(w.flights, i);
        assert FreshOrPassing(w, w.flights[i]);
      }
    }
  }

  lemma MoveFits(w: World, after: World, n: nat)
    requires AllFit(w) && after.store == w.store && n < |w.flights| == |after.flights|
    requires after.flights == w.flights[n := after.flights[n]] && FreshOrPassing(after, after.flights[n])
    ensures AllFit(after)
  {
    forall i | 0 <= i < |after.flights| ensures FreshOrPassing(after, after.flights[i]) {
      if i != n {
        assert FreshOrPassing(w, w.flights[i]);
      }
    }
  }

  lemma MovedFits(setup: Setup, w: World, step: Step, n: nat)
    requires AllFit(w) && !step.Arrive? && !step.Stripe? && !step.Forget? && step.i == n
    ensures AllFit(Apply(setup, w, step))
  {
    var after := Apply(setup, w, step);
    if after.flights != w.flights {
      assert FreshOrPassing(w, w.flights[n]);
      MoveFits(w, after, n);
    }
  }

  lemma StepFits(setup: Setup, w: World, step: Step)
    requires setup.pool <= 1 && AllFit(w)
    ensures AllFit(Apply(setup, w, step))
  {
    match step
    case Arrive(req, cached) => ArriveFits(setup, w, req, cached);
    case Stripe(d) => StripeFits(setup, w, d);
    case Forget(_) => assert forall i | 0 <= i < |w.flights| :: FreshOrPassing(w, w.flights[i]);
    case _ => MovedFits(setup, w, step, step.i);
  }

  lemma ArriveFits(setup: Setup, w: World, req: MeterRequest, cached: bool)
    requires AllFit(w)
    ensures AllFit(Apply(setup, w, Arrive(req, cached)))
  {
    var after := Apply(setup, w, Arrive(req, cached));
    forall i | 0 <= i < |after.flights| ensures FreshOrPassing(after, after.flights[i]) {
      if i < |w.flights| {
        assert FreshOrPassing(w, w.flights[i]);
      }
    }
  }

  lemma {:induction false} RunFits(setup: Setup, w: World, steps: seq<Step>)
    requires setup.pool <= 1 && Initial(w)
    ensures AllFit(Run(setup, w, steps))
  {
    if steps != [] {
      RunFits(setup, w, steps[..|steps| - 1]);
      StepFits(setup, Run(setup, w, steps[..|steps| - 1]), steps[|steps| - 1]);
    }
  }

  /** What one read of the subscription refuses: no row is live now, or the session holds an object whose status
      does not pass (or whose plan is gone). */
  lemma RefusalExactly(w: World, req: MeterRequest, loaded: Option<Subscription>)
    requires Consistent(w.store.tables)
    ensures SubscriptionResult(w, req, loaded) == Finished(PaymentRequired) <==>
              || ReadPlan(w.store.tables, req.tenant).Refused?
              || (loaded.Some? && (!IsLive(loaded.value.status) || loaded.value.plan !in w.store.tables.plans))
  {
    LookupsAreUnambiguous(w.store.tables.subs, "", req.tenant);
    RefusedExactlyWithoutLiveRow(w.store.tables, req.tenant);
  }

  /** An object that is the current row, or passes, is no reason to refuse a tenant who is covered. */
  lemma FitIsAccepted(w: World, req: MeterRequest, session: Session)
    requires Consistent(w.store.tables) && SessionFits(w, req, session) && ReadPlan(w.store.tables, req.tenant).Covered?
    ensures SubscriptionResult(w, req, session.loaded) != Finished(PaymentRequired)
  {
    LiveRowIsTheRow(w.store.tables.subs, req.tenant);
    RefusalExactly(w, req, session.loaded);
  }

  /** A flight about to read its subscription, whose tenant is covered now, is refused payment. */
  ghost predicate RefusesLive(setup: Setup, w: World, i: nat) {
    && CanRead(setup, w, i)
    && ReadPlan(w.store.tables, w.flights[i].request.tenant).Covered?
    && SubscriptionResult(w, w.flights[i].request, w.flights[i].phase.session.loaded) == Finished(PaymentRequired)
  }

  lemma RefusalIsTheStep(setup: Setup, w: World, i: nat)
    requires RefusesLive(setup, w, i)
    ensures Apply(setup, w, ReadSubscription(i)) == Move(w, i, Finished(PaymentRequired))
  {
  }

  ghost predicate NeverRefusesLive(setup: Setup) {
    forall w, steps, i :: Initial(w) ==> !RefusesLive(setup, Run(setup, w, steps), i)
  }

  /** Over every interleaving, no tenant is refused payment while its subscription is live, exactly when there is
      no second connection. */
  lemma NeverRefusesLiveExactly(setup: Setup)
    ensures NeverRefusesLive(setup) <==> setup.pool <= 1
  {
    if setup.pool <= 1 {
      forall w, steps, i | Initial(w) ensures !RefusesLive(setup, Run(setup, w, steps), i) {
        NoRefusalWithOneConnection(setup, w, steps, i);
      }
    } else {
      var steps, missed := HoldsStaleRow(setup, "", ApiCall, "sub");
      LeadsIsRun(setup, Subscribed("", "sub", PastDue), steps, missed);
      SubscribedIsInitial("", "sub", PastDue);
    }
  }

  lemma NoRefusalWithOneConnection(setup: Setup, w: World, steps: seq<Step>, i: nat)
    requires setup.pool <= 1 && Initial(w)
    ensures !RefusesLive(setup, Run(setup, w, steps), i)
  {
    var final := Run(setup, w, steps);
    RunFits(setup, w, steps);
    StatusRace.RunStaysInPool(setup, w, steps);
    if RefusesLive(setup, final, i) {
      assert FreshOrPassing(final, final.flights[i]);
      FitIsAccepted(final, final.flights[i].request, final.flights[i].phase.session);
    }
  }

  // ----- A run that refuses a tenant whose subscription is live -----

  /** The request loads the past-due row when it authenticates, and the payment that reopens the subscription is
      committed before its check. */
  lemma HoldsStaleRow(setup: Setup, tenant: TenantId, u: UsageType, stripeId: string)
      returns (steps: seq<Step>, missed: World)
    requires setup.pool >= 2 && stripeId != ""
    ensures Leads(setup, Subscribed(tenant, stripeId, PastDue), steps, missed)
    ensures |missed.flights| == 1 && missed.flights[0].request == MeterRequest(tenant, "", u, 1)
    ensures RefusesLive(setup, missed, 0)
  {
    var w, req := Subscribed(tenant, stripeId, PastDue), MeterRequest(tenant, "", u, 1);
    var paid := Invoice(Webhook.PaymentSucceeded(Some(stripeId)));
    steps := [Arrive(req, false), Stripe(paid), LookUp(0, false)];
    var stale := w.(flights := [Arrival(w, req, false)]);
    var paidUp := stale.(store := Webhook.Store(Subscribed(tenant, stripeId, Active).store.tables, [paid]));
    missed := Move(paidUp, 0, Missed(stale.flights[0].phase.session));
    Reopened(setup, w, stale, tenant, stripeId, req);
    StaleIsRefused(setup, paidUp, missed, tenant, stripeId, req);
    LeadsByThree(setup, steps, [w, stale, paidUp, missed]);
  }

  lemma RefusedWhileLive(setup: Setup, tenant: TenantId, u: UsageType, stripeId: string) returns (steps: seq<Step>)
    requires setup.pool >= 2 && stripeId != ""
    ensures var final := Run(setup, Subscribed(tenant, stripeId, PastDue), steps);
            && final.flights == [Flight(MeterRequest(tenant, "", u, 1), Finished(PaymentRequired))]
            && ReadPlan(final.store.tables, tenant).Covered?
  {
    var before, missed := HoldsStaleRow(setup, tenant, u, stripeId);
    RefusalIsTheStep(setup, missed, 0);
    LeadsOneMore(setup, Subscribed(tenant, stripeId, PastDue), before, missed, ReadSubscription(0));
    steps := before + [ReadSubscription(0)];
    LeadsIsRun(setup, Subscribed(tenant, stripeId, PastDue), steps, Apply(setup, missed, ReadSubscription(0)));
  }

  lemma Reopened(setup: Setup, w: World, stale: World, tenant: TenantId, stripeId: string, req: MeterRequest)
    requires setup.pool >= 2 && stripeId != "" && w == Subscribed(tenant, stripeId, PastDue) && req.tenant == tenant
    requires stale == w.(flights := [Arrival(w, req, false)])
    ensures var paid := Invoice(Webhook.PaymentSucceeded(Some(stripeId)));
            && Apply(setup, w, Arrive(req, false)) == stale
            && Apply(setup, stale, Stripe(paid)) ==
                 stale.(store := Webhook.Store(Subscribed(tenant, stripeId, Active).store.tables, [paid]))
  {
    SubscribedIsInitial(tenant, stripeId, PastDue);
    assert stale.flights[..0] == [];
    var before := w.store.tables;
    assert before.subs[0 := before.subs[0].(status := Active)] ==
        Subscribed(tenant, stripeId, Active).store.tables.subs;
  }

  lemma StaleIsRefused(setup: Setup, paidUp: World, missed: World, tenant: TenantId, stripeId: string,
                       req: MeterRequest)
    requires paidUp.store.tables == Subscribed(tenant, stripeId, Active).store.tables && req.tenant == tenant
    requires paidUp.flights == [Arrival(Subscribed(tenant, stripeId, PastDue), req, false)]
    requires missed == Move(paidUp, 0, Missed(paidUp.flights[0].phase.session))
    ensures Apply(setup, paidUp, LookUp(0, false)) == missed
    ensures RefusesLive(setup, missed, 0)
  {
    SubscribedIsInitial(tenant, stripeId, PastDue);
    SubscribedIsInitial(tenant, stripeId, Active);
  }
}
