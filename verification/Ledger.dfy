/**
 The usage ledger: an append-only table of usage events, unique on (tenant, idempotency key, usage type),
 and the three monthly aggregations over it. Rows are listed in commit order.
 */
module Ledger {
  import opened Types

  type Ledger = seq<UsageEvent>

  predicate HasTriple(e: UsageEvent, tenant: TenantId, key: string, u: UsageType) {
    e.tenant == tenant && e.key == key && e.usageType == u
  }

  predicate SameTriple(e: UsageEvent, f: UsageEvent) {
    HasTriple(e, f.tenant, f.key, f.usageType)
  }

  ghost predicate UniqueTriples(ledger: Ledger) {
    forall i, j | 0 <= i < j < |ledger| :: !SameTriple(ledger[i], ledger[j])
  }

  /** The row a triple selects. */
  function Find(ledger: Ledger, tenant: TenantId, key: string, u: UsageType): (r: Option<UsageEvent>)
    ensures r.Some? ==> r.value in ledger && HasTriple(r.value, tenant, key, u)
    ensures r.None? ==> forall e | e in ledger :: !HasTriple(e, tenant, key, u)
  {
    if ledger == [] then
      None
    else
      var last := |ledger| - 1;
      var earlier := Find(ledger[..last], tenant, key, u);
      if earlier.Some? then earlier
      else if HasTriple(ledger[last], tenant, key, u) then Some(ledger[last])
      else None
  }

  /** INSERT ... ON CONFLICT DO NOTHING RETURNING, then a read of the row that was in the way. */
  function InsertOrExisting(ledger: Ledger, row: UsageEvent): (Ledger, UsageEvent) {
    match Find(ledger, row.tenant, row.key, row.usageType)
    case None => (ledger + [row], row)
    case Some(existing) => (ledger, existing)
  }

  /** A unique ledger has one answer for each triple, whatever the search order. */
  lemma FindIsThatRow(ledger: Ledger, e: UsageEvent)
    requires UniqueTriples(ledger) && e in ledger
    ensures Find(ledger, e.tenant, e.key, e.usageType) == Some(e)
  {
    var found := Find(ledger, e.tenant, e.key, e.usageType);
    var i :| 0 <= i < |ledger| && ledger[i] == e;
    var j :| 0 <= j < |ledger| && ledger[j] == found.value;
  }

  lemma InsertKeepsUnique(ledger: Ledger, row: UsageEvent)
    requires UniqueTriples(ledger)
    ensures UniqueTriples(InsertOrExisting(ledger, row).0)
    ensures Find(InsertOrExisting(ledger, row).0, row.tenant, row.key, row.usageType) ==
        Some(InsertOrExisting(ledger, row).1)
  {
    var (after, event) := InsertOrExisting(ledger, row);
    if after != ledger {
      assert after[..|ledger|] == ledger;
    } else {
      FindIsThatRow(ledger, event);
    }
  }

  /** Keys no earlier row of a run uses. */
  ghost predicate KeysShorterThan(ledger: Ledger, n: nat) {
    forall e | e in ledger :: |e.key| < n
  }

  function KeyOfLength(n: nat): (key: string)
    ensures |key| == n
  {
    seq(n, _ => 'k')
  }

  // ----- Monthly aggregations -----

  /** A row counts for a tenant from `start` on. There is no upper bound on its time. */
  predicate Counts(e: UsageEvent, tenant: TenantId, start: nat) {
    e.tenant == tenant && e.createdAt >= start
  }

  function MonthlyUsage(ledger: Ledger, tenant: TenantId, u: UsageType, start: nat): nat {
    if ledger == [] then
      0
    else
      var e := ledger[|ledger| - 1];
      MonthlyUsage(ledger[..|ledger| - 1], tenant, u, start)
        + (if Counts(e, tenant, start) && e.usageType == u then e.quantity else 0)
  }

  function MonthlyCost(ledger: Ledger, tenant: TenantId, start: nat): nat {
    if ledger == [] then
      0
    else
      var e := ledger[|ledger| - 1];
      MonthlyCost(ledger[..|ledger| - 1], tenant, start) + (if Counts(e, tenant, start) then e.cost else 0)
  }

  /** GROUP BY usage type: a type with no row has no entry. */
  function Breakdown(ledger: Ledger, tenant: TenantId, start: nat): map<UsageType, nat> {
    if ledger == [] then
      map[]
    else
      var e := ledger[|ledger| - 1];
      var groups := Breakdown(ledger[..|ledger| - 1], tenant, start);
      if Counts(e, tenant, start) then groups[e.usageType := Get(groups, e.usageType) + e.quantity] else groups
  }

  function Get(groups: map<UsageType, nat>, u: UsageType): nat {
    if u in groups then groups[u] else 0
  }

  /** Usage of all four token types together, in one pass. */
  function MonthlyTokens(ledger: Ledger, tenant: TenantId, start: nat): nat {
    if ledger == [] then
      0
    else
      var e := ledger[|ledger| - 1];
      MonthlyTokens(ledger[..|ledger| - 1], tenant, start)
        + (if Counts(e, tenant, start) && e.usageType != ApiCall then e.quantity else 0)
  }

  /** The breakdown's entries other than API calls, added up. */
  function TokenTotal(groups: map<UsageType, nat>): nat {
    Get(groups, InputTokens) + Get(groups, CachedInputTokens) + Get(groups, OutputTokens) + Get(groups, ReasoningTokens)
  }

  lemma {:induction false} GroupMatchesFilter(ledger: Ledger, tenant: TenantId, start: nat, u: UsageType)
    ensures Get(Breakdown(ledger, tenant, start), u) == MonthlyUsage(ledger, tenant, u, start)
    ensures u in Breakdown(ledger, tenant, start) <==>
              exists e :: e in ledger && Counts(e, tenant, start) && e.usageType == u
  {
    if ledger != [] {
      var before, last := ledger[..|ledger| - 1], ledger[|ledger| - 1];
      GroupMatchesFilter(before, tenant, start, u);
      assert ledger == before + [last];
    }
  }

  /** The grouped query and the filtered query agree on every ledger, for every type; a group exists exactly when
      some row counts; and the token groups add up to the token usage. */
  lemma {:induction false} AggregationsAgree(ledger: Ledger, tenant: TenantId, start: nat)
    ensures var groups := Breakdown(ledger, tenant, start);
            && (forall u :: Get(groups, u) == MonthlyUsage(ledger, tenant, u, start))
            && (forall u :: u in groups <==> exists e :: e in ledger && Counts(e, tenant, start) && e.usageType == u)
            && TokenTotal(groups) == MonthlyTokens(ledger, tenant, start)
  {
    forall u {
      GroupMatchesFilter(ledger, tenant, start, u);
    }
    TokensMatchGroups(ledger, tenant, start);
  }

  lemma {:induction false} TokensMatchGroups(ledger: Ledger, tenant: TenantId, start: nat)
    ensures TokenTotal(Breakdown(ledger, tenant, start)) == MonthlyTokens(ledger, tenant, start)
  {
    if ledger != [] {
      TokensMatchGroups(ledger[..|ledger| - 1], tenant, start);
    }
  }

  lemma {:induction false} UsageIsSumOfTypes(ledger: Ledger, tenant: TenantId, start: nat)
    ensures MonthlyTokens(ledger, tenant, start) ==
              MonthlyUsage(ledger, tenant, InputTokens, start) + MonthlyUsage(ledger, tenant, CachedInputTokens, start)
              + MonthlyUsage(ledger, tenant, OutputTokens, start) + MonthlyUsage(ledger, tenant, ReasoningTokens, start)
  {
    AggregationsAgree(ledger, tenant, start);
  }

  lemma UsageOfAppend(ledger: Ledger, row: UsageEvent, tenant: TenantId, u: UsageType, start: nat)
    ensures MonthlyUsage(ledger + [row], tenant, u, start) ==
              MonthlyUsage(ledger, tenant, u, start)
              + (if Counts(row, tenant, start) && row.usageType == u then row.quantity else 0)
  {
    assert (ledger + [row])[..|ledger|] == ledger;
  }

  /** Appending rows never lowers a sum, and a later start never raises it. */
  lemma {:induction false} UsageIsMonotone(ledger: Ledger, more: Ledger, tenant: TenantId, u: UsageType, start: nat,
                                           later: nat)
    requires start <= later
    ensures MonthlyUsage(ledger, tenant, u, later) <= MonthlyUsage(ledger, tenant, u, start)
    ensures MonthlyUsage(ledger, tenant, u, start) <= MonthlyUsage(ledger + more, tenant, u, start)
  {
    if more != [] {
      UsageIsMonotone(ledger, more[..|more| - 1], tenant, u, start, later);
      assert ledger + more == (ledger + more[..|more| - 1]) + [more[|more| - 1]];
      UsageOfAppend(ledger + more[..|more| - 1], more[|more| - 1], tenant, u, start);
    } else {
      assert ledger + more == ledger;
      if ledger != [] {
        UsageIsMonotone(ledger[..|ledger| - 1], [], tenant, u, start, later);
      }
    }
  }

  // ----- The sums, row by row -----

  /** What the rows a condition selects add up to, by some measure. */
  function Total(ledger: Ledger, selects: UsageEvent -> bool, measure: UsageEvent -> nat): nat {
    if ledger == [] then 0
    else Total(ledger[..|ledger| - 1], selects, measure)
           + (if selects(ledger[|ledger| - 1]) then measure(ledger[|ledger| - 1]) else 0)
  }

  function QuantityOf(): UsageEvent -> nat {
    (e: UsageEvent) => e.quantity
  }

  function CostOf(): UsageEvent -> nat {
    (e: UsageEvent) => e.cost
  }

  /** The rows of a tenant and type that were created at `start` or later. */
  function OfType(tenant: TenantId, u: UsageType, start: nat): UsageEvent -> bool {
    (e: UsageEvent) => e.tenant == tenant && e.usageType == u && start <= e.createdAt
  }

  function OfTokens(tenant: TenantId, start: nat): UsageEvent -> bool {
    (e: UsageEvent) => e.tenant == tenant && e.usageType != ApiCall && start <= e.createdAt
  }

  function OfTenant(tenant: TenantId, start: nat): UsageEvent -> bool {
    (e: UsageEvent) => e.tenant == tenant && start <= e.createdAt
  }

  /** The monthly sums are the totals of exactly the rows of the tenant created at the month's start or later. */
  lemma {:induction false} SumsAreTotals(ledger: Ledger, tenant: TenantId, u: UsageType, start: nat)
    ensures MonthlyUsage(ledger, tenant, u, start) == Total(ledger, OfType(tenant, u, start), QuantityOf())
    ensures MonthlyTokens(ledger, tenant, start) == Total(ledger, OfTokens(tenant, start), QuantityOf())
    ensures MonthlyCost(ledger, tenant, start) == Total(ledger, OfTenant(tenant, start), CostOf())
    ensures Get(Breakdown(ledger, tenant, start), u) == Total(ledger, OfType(tenant, u, start), QuantityOf())
  {
    if ledger != [] {
      SumsAreTotals(ledger[..|ledger| - 1], tenant, u, start);
    }
    GroupMatchesFilter(ledger, tenant, start, u);
  }

  lemma {:induction false} NothingSelected(ledger: Ledger, selects: UsageEvent -> bool, measure: UsageEvent -> nat)
    requires forall e | e in ledger :: !selects(e)
    ensures Total(ledger, selects, measure) == 0
  {
    if ledger != [] {
      NothingSelected(ledger[..|ledger| - 1], selects, measure);
    }
  }

  /** Rows from before the month add nothing, and later rows are counted in full: older rows in front of a ledger
      of the month change none of its sums. */
  lemma {:induction false} OldRowsDoNotCount(past: Ledger, ledger: Ledger, tenant: TenantId, u: UsageType, start: nat)
    requires forall e | e in past :: e.createdAt < start
    ensures MonthlyUsage(past + ledger, tenant, u, start) == MonthlyUsage(ledger, tenant, u, start)
    ensures MonthlyTokens(past + ledger, tenant, start) == MonthlyTokens(ledger, tenant, start)
    ensures MonthlyCost(past + ledger, tenant, start) == MonthlyCost(ledger, tenant, start)
    ensures Breakdown(past + ledger, tenant, start) == Breakdown(ledger, tenant, start)
  {
    if ledger != [] {
      OldRowsDoNotCount(past, ledger[..|ledger| - 1], tenant, u, start);
      assert (past + ledger)[..|past + ledger| - 1] == past + ledger[..|ledger| - 1];
    } else if past != [] {
      assert past + ledger == past;
      OldRowsDoNotCount(past[..|past| - 1], [], tenant, u, start);
      assert past[..|past| - 1] + [] == past[..|past| - 1];
    } else {
      assert past + ledger == [];
    }
  }
}
