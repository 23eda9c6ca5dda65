/** The cache key of an idempotent response and the stored form of that response. */
module CacheKeys {
  import opened Types

  function IdempotencyKey(tenant: TenantId, key: string, u: UsageType): string {
    "idem:" + tenant + ":" + key + ":" + UsageTypeValue(u)
  }

  lemma UsageTypeValueIsPlain(u: UsageType)
    ensures ':' !in UsageTypeValue(u)
    ensures ParseUsageType(UsageTypeValue(u)) == Some(u)
  {
  }

  /** Characters before the first colon. */
  function UpToColon(s: string): nat {
    if s == "" || s[0] == ':' then 0 else 1 + UpToColon(s[1..])
  }

  /** Characters after the last colon. */
  function AfterColon(s: string): nat {
    if s == "" || s[|s| - 1] == ':' then 0 else 1 + AfterColon(s[..|s| - 1])
  }

  lemma {:induction false} UpToColonOf(a: string, x: string)
    requires ':' !in a
    ensures UpToColon(a + ":" + x) == |a|
  {
    if a != "" {
      UpToColonOf(a[1..], x);
      assert (a + ":" + x)[1..] == a[1..] + ":" + x;
    }
  }

  lemma {:induction false} AfterColonOf(x: string, a: string)
    requires ':' !in a
    ensures AfterColon(x + ":" + a) == |a|
  {
    if a != "" {
      AfterColonOf(x, a[..|a| - 1]);
      assert (x + ":" + a)[..|x| + |a|] == x + ":" + a[..|a| - 1];
    }
  }

  lemma SplitAtFirstColon(a: string, x: string, b: string, y: string)
    requires ':' !in a && ':' !in b && a + ":" + x == b + ":" + y
    ensures a == b && x == y
  {
    UpToColonOf(a, x);
    UpToColonOf(b, y);
    assert a == (a + ":" + x)[..|a|] == b;
    assert x == (a + ":" + x)[|a| + 1..] == y;
  }

  lemma SplitAtLastColon(x: string, a: string, y: string, b: string)
    requires ':' !in a && ':' !in b && x + ":" + a == y + ":" + b
    ensures x == y && a == b
  {
    AfterColonOf(x, a);
    AfterColonOf(y, b);
    assert x == (x + ":" + a)[..|x|] == y;
    assert a == (x + ":" + a)[|x| + 1..] == b;
  }

  lemma KeyParts(tenant: TenantId, key: string, u: UsageType)
    ensures IdempotencyKey(tenant, key, u)[5..] == tenant + ":" + (key + ":" + UsageTypeValue(u))
  {
  }

  lemma EqualKeysAgree(t1: TenantId, k1: string, v1: string, t2: TenantId, k2: string, v2: string)
    requires ':' !in v1 && ':' !in v2
    requires t1 + ":" + (k1 + ":" + v1) == t2 + ":" + (k2 + ":" + v2)
    ensures t1 == t2 && k1 == k2 && v1 == v2
  {
    SplitAtFirstColon(t1, k1 + ":" + v1, t2, k2 + ":" + v2);
    SplitAtLastColon(k1, v1, k2, v2);
  }

  /** Two requests share a cache key exactly when tenant, idempotency key and type all agree, whatever characters
      the idempotency key contains: cache identity is the ledger's unique constraint. */
  lemma CacheKeyIsInjective(t1: TenantId, k1: string, u1: UsageType, t2: TenantId, k2: string, u2: UsageType)
    ensures IdempotencyKey(t1, k1, u1) == IdempotencyKey(t2, k2, u2) <==> t1 == t2 && k1 == k2 && u1 == u2
  {
    if IdempotencyKey(t1, k1, u1) == IdempotencyKey(t2, k2, u2) {
      KeyParts(t1, k1, u1);
      KeyParts(t2, k2, u2);
      UsageTypeValueIsPlain(u1);
      UsageTypeValueIsPlain(u2);
      EqualKeysAgree(t1, k1, UsageTypeValue(u1), t2, k2, UsageTypeValue(u2));
    }
  }

  /** The JSON form of a response: enum and id as strings. */
  datatype CachedResponse = CachedResponse(
    eventId: string,
    usageType: string,
    quantity: int,
    cost: int,
    remainingApiCalls: int,
    remainingTokens: int)

  function ToCached(r: MeterResponse): CachedResponse {
    CachedResponse(r.eventId, UsageTypeValue(r.usageType), r.quantity, r.cost, r.remainingApiCalls, r.remainingTokens)
  }

  /** `None` when the stored type is not a usage type. */
  function FromCached(c: CachedResponse): Option<MeterResponse> {
    match ParseUsageType(c.usageType)
    case None => None
    case Some(u) => Some(MeterResponse(c.eventId, u, c.quantity, c.cost, c.remainingApiCalls, c.remainingTokens))
  }

  /** A stored response reads back as it was, and nothing else reads back as it. */
  lemma CachedRoundTrip(r: MeterResponse, c: CachedResponse)
    ensures FromCached(c) == Some(r) <==> c == ToCached(r)
  {
    UsageTypeValueIsPlain(r.usageType);
  }
}
