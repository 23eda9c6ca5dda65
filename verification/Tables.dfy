/**
 The relational tables behind subscriptions, with the constraints the database enforces on them:
 one subscription per tenant, one per (non-null) Stripe id, foreign keys to tenants and plans,
 one tenant per (non-null) Stripe customer.
 */
module Tables {
  import opened Types

  datatype Tables = Tables(
    plans: map<PlanTier, Plan>,
    tenants: map<TenantId, Tenant>,
    subs: seq<Subscription>)

  /** The result of `scalar_one_or_none`, which raises when several rows match. */
  datatype Lookup = NoRow | OneRow(index: nat) | ManyRows

  function ScalarOneOrNone(subs: seq<Subscription>, p: Subscription -> bool): (r: Lookup)
    ensures r.NoRow? <==> forall i | 0 <= i < |subs| :: !p(subs[i])
    ensures r.OneRow? ==> r.index < |subs| && p(subs[r.index])
    ensures r.OneRow? ==> forall i | 0 <= i < |subs| && p(subs[i]) :: i == r.index
    ensures r.ManyRows? ==> exists i, j | 0 <= i < j < |subs| :: p(subs[i]) && p(subs[j])
  {
    if subs == [] then
      NoRow
    else
      var last := |subs| - 1;
      var before := ScalarOneOrNone(subs[..last], p);
      if !p(subs[last]) then before
      else if before.NoRow? then OneRow(last)
      else ManyRows
  }

  /** Selecting by a null Stripe id selects the rows whose id is null. */
  function GetByStripeId(subs: seq<Subscription>, stripeId: Option<string>): Lookup {
    ScalarOneOrNone(subs, (s: Subscription) => s.stripeId == stripeId)
  }

  function GetActiveByTenant(subs: seq<Subscription>, tenant: TenantId): Lookup {
    ScalarOneOrNone(subs, (s: Subscription) => s.tenant == tenant && IsLive(s.status))
  }

  /** The row the relationship from a tenant to its subscription loads, whatever its status. */
  function SubscriptionOf(subs: seq<Subscription>, tenant: TenantId): Option<Subscription> {
    match ScalarOneOrNone(subs, (s: Subscription) => s.tenant == tenant)
    case OneRow(i) => Some(subs[i])
    case _ => None
  }

  predicate Clashes(a: Subscription, b: Subscription) {
    a.tenant == b.tenant || (a.stripeId.Some? && a.stripeId == b.stripeId)
  }

  /** No two rows share a tenant, no two share a Stripe id. */
  ghost predicate UniqueSubscriptions(subs: seq<Subscription>) {
    forall i, j | 0 <= i < j < |subs| :: !Clashes(subs[i], subs[j])
  }

  ghost predicate UniqueCustomers(tenants: map<TenantId, Tenant>) {
    forall s, t | s in tenants && t in tenants && s != t && tenants[s].stripeCustomerId.Some? ::
      tenants[s].stripeCustomerId != tenants[t].stripeCustomerId
  }

  ghost predicate References(tables: Tables, s: Subscription) {
    s.tenant in tables.tenants && s.plan in tables.plans
  }

  ghost predicate Consistent(tables: Tables) {
    && UniqueSubscriptions(tables.subs)
    && UniqueCustomers(tables.tenants)
    && forall i | 0 <= i < |tables.subs| :: References(tables, tables.subs[i])
  }

  /** `Failure` is any exception: a violated constraint, an unparsable value, several rows where one was expected. */
  datatype Attempt<+T> = Failure | Success(value: T) {
    predicate IsFailure() { Failure? }
    function PropagateFailure<U>(): Attempt<U> requires Failure? { Failure }
    function Extract(): T requires Success? { value }
  }

  predicate ClashesWithSome(subs: seq<Subscription>, row: Subscription) {
    exists i | 0 <= i < |subs| :: Clashes(subs[i], row)
  }

  /** A plain INSERT. */
  function InsertSubscription(tables: Tables, row: Subscription): (r: Attempt<Tables>)
    ensures Consistent(tables) && r.Success? ==> Consistent(r.value)
  {
    if row.tenant !in tables.tenants || row.plan !in tables.plans || ClashesWithSome(tables.subs, row) then
      Failure
    else
      Success(tables.(subs := tables.subs + [row]))
  }

  /** Flush of a changed row. Handlers never assign the tenant or the Stripe id. */
  function UpdateSubscription(tables: Tables, i: nat, row: Subscription): (r: Attempt<Tables>)
    requires i < |tables.subs|
    requires row.tenant == tables.subs[i].tenant && row.stripeId == tables.subs[i].stripeId
    ensures Consistent(tables) && r.Success? ==> Consistent(r.value)
  {
    if row.plan !in tables.plans then
      Failure
    else
      Success(tables.(subs := tables.subs[i := row]))
  }

  /** INSERT ... ON CONFLICT (stripe_subscription_id) DO UPDATE. The update leaves the tenant, the Stripe id and
      the cancellation time alone. A null Stripe id conflicts with nothing. */
  function UpsertFromStripe(tables: Tables, row: Subscription): (r: Attempt<Tables>)
    ensures Consistent(tables) && r.Success? ==> Consistent(r.value)
  {
    var found := if row.stripeId.Some? then GetByStripeId(tables.subs, row.stripeId) else NoRow;
    match found
    case NoRow => InsertSubscription(tables, row.(canceledAt := None))
    case OneRow(i) =>
      var current := tables.subs[i];
      UpdateSubscription(tables, i, current.(status := row.status, periodStart := row.periodStart,
        periodEnd := row.periodEnd, plan := row.plan, cancelAtPeriodEnd := row.cancelAtPeriodEnd))
    case ManyRows => Failure
  }

  /** An insert succeeds exactly when the table with the row in it meets the constraints, and that is the result. */
  lemma InsertExactly(tables: Tables, row: Subscription)
    requires Consistent(tables)
    ensures var after := tables.(subs := tables.subs + [row]);
            InsertSubscription(tables, row) == if Consistent(after) then Success(after) else Failure
  {
    var after := tables.(subs := tables.subs + [row]);
    assert after.subs[|tables.subs|] == row && forall i | 0 <= i < |tables.subs| :: after.subs[i] == tables.subs[i];
    if Consistent(after) {
      assert References(after, after.subs[|tables.subs|]);
      assert forall i | 0 <= i < |tables.subs| :: !Clashes(after.subs[i], after.subs[|tables.subs|]);
    }
  }

  /** So does a flush of a changed row whose tenant and Stripe id stay. */
  lemma UpdateExactly(tables: Tables, i: nat, row: Subscription)
    requires Consistent(tables) && i < |tables.subs|
    requires row.tenant == tables.subs[i].tenant && row.stripeId == tables.subs[i].stripeId
    ensures var after := tables.(subs := tables.subs[i := row]);
            UpdateSubscription(tables, i, row) == if Consistent(after) then Success(after) else Failure
  {
    var after := tables.(subs := tables.subs[i := row]);
    assert after.subs[i] == row;
    if Consistent(after) {
      assert References(after, after.subs[i]);
    }
  }

  predicate CustomerTaken(tenants: map<TenantId, Tenant>, customer: string) {
    exists t | t in tenants :: tenants[t].stripeCustomerId == Some(customer)
  }

  /** INSERT of a tenant: its id is the primary key, the email may not be null. */
  function CreateTenant(tables: Tables, id: TenantId, email: Option<string>, customer: string): (r: Attempt<Tables>)
    ensures Consistent(tables) && r.Success? ==> Consistent(r.value)
  {
    if id in tables.tenants || email.None? || CustomerTaken(tables.tenants, customer) then
      Failure
    else
      Success(tables.(tenants := tables.tenants[id := Tenant(email.value, Some(customer))]))
  }

  /** A tenant is created exactly when its id is new, it has an email and the constraints still hold; it then has
      that email and customer. */
  lemma CreateExactly(tables: Tables, id: TenantId, email: Option<string>, customer: string)
    requires Consistent(tables)
    ensures CreateTenant(tables, id, email, customer).Success? <==>
              && email.Some? && id !in tables.tenants
              && UniqueCustomers(tables.tenants[id := Tenant(email.value, Some(customer))])
    ensures CreateTenant(tables, id, email, customer).Success? ==>
              CreateTenant(tables, id, email, customer).value ==
                tables.(tenants := tables.tenants[id := Tenant(email.value, Some(customer))])
  {
    if email.Some? && id !in tables.tenants {
      var after := tables.tenants[id := Tenant(email.value, Some(customer))];
      if UniqueCustomers(after) {
        forall t | t in tables.tenants ensures tables.tenants[t].stripeCustomerId != Some(customer) {
          assert t in after && t != id && after[id].stripeCustomerId.Some?;
        }
      }
    }
  }

  /** With the constraints in place no lookup by Stripe id or by tenant can find several rows. */
  lemma LookupsAreUnambiguous(subs: seq<Subscription>, stripeId: string, tenant: TenantId)
    requires UniqueSubscriptions(subs)
    ensures !GetByStripeId(subs, Some(stripeId)).ManyRows?
    ensures !GetActiveByTenant(subs, tenant).ManyRows?
  {
  }

  /** A tenant has one row, so the live one is the one the relationship loads. */
  lemma LiveRowIsTheRow(subs: seq<Subscription>, tenant: TenantId)
    requires UniqueSubscriptions(subs)
    ensures var found := GetActiveByTenant(subs, tenant);
            found.OneRow? ==> SubscriptionOf(subs, tenant) == Some(subs[found.index])
  {
    var found := GetActiveByTenant(subs, tenant);
    if found.OneRow? {
      forall i | 0 <= i < |subs| && i != found.index ensures subs[i].tenant != tenant {
        if i < found.index {
          assert !Clashes(subs[i], subs[found.index]);
        } else {
          assert !Clashes(subs[found.index], subs[i]);
        }
      }
    }
  }

  /** What a step may do to the subscription rows: add at most one, for the named Stripe id, and change only rows
      of that id, and of those neither tenant nor id. */
  ghost predicate OnlyTouches(before: seq<Subscription>, after: seq<Subscription>, named: Option<string>) {
    && |before| <= |after| <= |before| + 1
    && (forall i | 0 <= i < |before| ::
          && after[i].tenant == before[i].tenant
          && after[i].stripeId == before[i].stripeId
          && (named.None? || before[i].stripeId != named ==> after[i] == before[i]))
    && (|after| > |before| ==> after[|before|].stripeId == named)
  }

  ghost predicate Keeps(before: Tables, after: Tables, named: Option<string>) {
    && OnlyTouches(before.subs, after.subs, named)
    && after.plans == before.plans
    && forall t | t in before.tenants :: t in after.tenants && after.tenants[t] == before.tenants[t]
  }

  lemma UpsertKeeps(tables: Tables, row: Subscription)
    requires UpsertFromStripe(tables, row).Success?
    ensures Keeps(tables, UpsertFromStripe(tables, row).value, row.stripeId)
  {
  }

  function StatusOf(subs: seq<Subscription>, stripeId: string): Option<SubscriptionStatus> {
    match GetByStripeId(subs, Some(stripeId))
    case OneRow(i) => Some(subs[i].status)
    case _ => None
  }

  lemma InsertWrites(tables: Tables, row: Subscription, stripeId: string)
    requires Consistent(tables) && InsertSubscription(tables, row).Success?
    ensures var after := InsertSubscription(tables, row).value.subs;
            StatusOf(after, stripeId) == if row.stripeId == Some(stripeId) then Some(row.status)
                else StatusOf(tables.subs, stripeId)
  {
    var after := InsertSubscription(tables, row).value.subs;
    assert after[..|after| - 1] == tables.subs;
    if row.stripeId == Some(stripeId) {
      assert forall i | 0 <= i < |tables.subs| :: !Clashes(tables.subs[i], row);
    }
  }

  lemma UpdateWrites(tables: Tables, i: nat, row: Subscription, stripeId: string)
    requires Consistent(tables) && i < |tables.subs|
    requires row.tenant == tables.subs[i].tenant && row.stripeId == tables.subs[i].stripeId
    requires UpdateSubscription(tables, i, row).Success?
    ensures var after := UpdateSubscription(tables, i, row).value.subs;
            StatusOf(after, stripeId) == if row.stripeId == Some(stripeId) then Some(row.status)
                else StatusOf(tables.subs, stripeId)
  {
    var after := UpdateSubscription(tables, i, row).value.subs;
    SameIdsSameLookup(tables.subs, after, stripeId);
    LookupsAreUnambiguous(tables.subs, stripeId, "");
  }

  lemma SameIdsSameLookup(subs: seq<Subscription>, after: seq<Subscription>, stripeId: string)
    requires |subs| == |after| && forall i | 0 <= i < |subs| :: subs[i].stripeId == after[i].stripeId
    ensures GetByStripeId(subs, Some(stripeId)) == GetByStripeId(after, Some(stripeId))
  {
    if subs != [] {
      SameIdsSameLookup(subs[..|subs| - 1], after[..|after| - 1], stripeId);
    }
  }

  lemma UpsertWrites(tables: Tables, row: Subscription, stripeId: string)
    requires Consistent(tables) && UpsertFromStripe(tables, row).Success?
    ensures var after := UpsertFromStripe(tables, row).value.subs;
            StatusOf(after, stripeId) == if row.stripeId == Some(stripeId) then Some(row.status)
                else StatusOf(tables.subs, stripeId)
  {
    var found := if row.stripeId.Some? then GetByStripeId(tables.subs, row.stripeId) else NoRow;
    match found
    case NoRow => InsertWrites(tables, row.(canceledAt := None), stripeId);
    case OneRow(i) => UpdateWrites(tables, i, UpsertFromStripe(tables, row).value.subs[i], stripeId);
  }
}
