/**
 Runs that show what the status gate does not promise when requests are in flight: rows written after a closing
 event, for every pool size, and exactly for which pools there are none.
 */
module GateWitness {
  import opened Types
  import opened Tables
  import opened Interleaving
  import opened Limits
  import opened QuotaWitness
  import opened StatusRace
  import Webhook

  /** A tenant alone, with this subscription in this status, on a plan that allows one unit of each type. */
  function Subscribed(tenant: TenantId, stripeId: string, status: SubscriptionStatus): World {
    var sub := Subscription(tenant, Free, Some(stripeId), status, None, None, false, None);
    World(Webhook.Store(Tables(map[Free := Plan("", 1, 1)], map[tenant := Tenant("", None)], [sub]), []), [], map[], [])
  }

  /** An event about the invoice of a subscription. */
  function Invoice(body: Webhook.EventBody): Webhook.Delivery {
    Webhook.Delivery("", body, 0, "", None, true)
  }

  lemma SubscribedIsInitial(tenant: TenantId, stripeId: string, status: SubscriptionStatus)
    ensures var w := Subscribed(tenant, stripeId, status);
            && Initial(w) && OwnsRow(w.store.tables, 0, tenant, stripeId)
            && SubscriptionOf(w.store.tables.subs, tenant) == Some(w.store.tables.subs[0])
            && GetByStripeId(w.store.tables.subs, Some(stripeId)) == OneRow(0)
            && (IsLive(status) ==>
                  GetActiveByTenant(w.store.tables.subs, tenant) == OneRow(0) && CoveredWith(w, tenant, 1))
  {
    var w := Subscribed(tenant, stripeId, status);
    assert w.store.tables.subs[..0] == [];
  }

  /** A payment failure of the subscription is processed and changes nothing else. */
  lemma PaymentFails(setup: Setup, w: World, tenant: TenantId, stripeId: string)
    requires w.store == Subscribed(tenant, stripeId, Active).store && Open(w.flights) < setup.pool && stripeId != ""
    ensures var closing := Invoice(Webhook.PaymentFailed(Some(stripeId)));
            && ClosesNow(setup, w, closing, 0, tenant, stripeId)
            && Apply(setup, w, Stripe(closing)) == w.(store := Apply(setup, w, Stripe(closing)).store)
  {
    SubscribedIsInitial(tenant, stripeId, Active);
  }

  lemma FullPoolButOne(setup: Setup, tenant: TenantId, u: UsageType, stripeId: string)
      returns (prefix: seq<Step>, mid: World)
    requires setup.pool >= 1
    ensures Leads(setup, Subscribed(tenant, stripeId, Active), prefix, mid)
    ensures Queue(mid, 0, tenant, u, 1) && |mid.flights| == setup.pool - 1 && Open(mid.flights) == setup.pool - 1
    ensures mid.store == Subscribed(tenant, stripeId, Active).store
  {
    var w := Subscribed(tenant, stripeId, Active);
    SubscribedIsInitial(tenant, stripeId, Active);
    prefix, mid := AdmitMany(setup, w, 0, setup.pool - 1, tenant, u, 1, 1);
    OpenInQueue(mid.flights, 0);
  }

  /** A full pool but one passes the check, the payment fails, and then all of them commit: the closed tenant
      gains one row for each connection but one. */
  lemma GateBoundIsReached(setup: Setup, tenant: TenantId, u: UsageType, stripeId: string)
    returns (prefix: seq<Step>, steps: seq<Step>)
    requires setup.pool >= 1 && stripeId != ""
    ensures var w, closing := Subscribed(tenant, stripeId, Active), Invoice(Webhook.PaymentFailed(Some(stripeId)));
            && ClosedRun(setup, w, prefix, closing, steps, 0, tenant, stripeId)
            && Gained(setup, Run(setup, w, prefix), closing, steps, tenant) == setup.pool - 1
  {
    var closing := Invoice(Webhook.PaymentFailed(Some(stripeId)));
    var mid, after;
    prefix, mid := FullPoolButOne(setup, tenant, u, stripeId);
    SubscribedIsInitial(tenant, stripeId, Active);
    LeadsIsRun(setup, Subscribed(tenant, stripeId, Active), prefix, mid);
    PaymentFails(setup, mid, tenant, stripeId);
    var shut := Apply(setup, mid, Stripe(closing));
    steps, after := FinishMany(setup, shut, 0, setup.pool - 1, tenant, u, 1);
    LeadsIsRun(setup, shut, steps, after);
  }

  ghost predicate AlwaysImmediate(setup: Setup) {
    forall w, prefix, closing, steps, i, tenant, stripeId ::
      ClosedRun(setup, w, prefix, closing, steps, i, tenant, stripeId) ==>
        Gained(setup, Run(setup, w, prefix), closing, steps, tenant) <= 0
  }

  /** The gate shuts at once, over every run, exactly when the pool has no second connection. With two or more,
      some run writes rows for a tenant after the event that closed its subscription has been committed. */
  lemma GateIsImmediateExactly(setup: Setup)
    ensures AlwaysImmediate(setup) <==> setup.pool <= 1
  {
    if setup.pool <= 1 {
      forall w, prefix, closing, steps, i, tenant, stripeId
        | ClosedRun(setup, w, prefix, closing, steps, i, tenant, stripeId)
        ensures Gained(setup, Run(setup, w, prefix), closing, steps, tenant) <= 0
      {
        ClosedTenantGainsLessThanPool(setup, w, prefix, closing, steps, i, tenant, stripeId);
      }
    } else {
      var prefix, steps := GateBoundIsReached(setup, "", ApiCall, "sub");
    }
  }
}
