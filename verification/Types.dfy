/** Entities shared by metering, billing and webhook processing. */
module Types {

  datatype Option<+T> = None | Some(value: T)

  /** A tenant id in its textual UUID form: hexadecimal digits and dashes, so never a colon. */
  type TenantId = s: string | ':' !in s witness ""

  datatype UsageType = ApiCall | InputTokens | CachedInputTokens | OutputTokens | ReasoningTokens

  /** The enum value, as it appears in requests, cache keys and cached responses. */
  function UsageTypeValue(u: UsageType): string {
    match u
    case ApiCall => "api_call"
    case InputTokens => "input_tokens"
    case CachedInputTokens => "cached_input_tokens"
    case OutputTokens => "output_tokens"
    case ReasoningTokens => "reasoning_tokens"
  }

  /** Enum lookup by value; `None` is the `ValueError`. */
  function ParseUsageType(s: string): Option<UsageType> {
    if s == "api_call" then Some(ApiCall)
    else if s == "input_tokens" then Some(InputTokens)
    else if s == "cached_input_tokens" then Some(CachedInputTokens)
    else if s == "output_tokens" then Some(OutputTokens)
    else if s == "reasoning_tokens" then Some(ReasoningTokens)
    else None
  }

  datatype PlanTier = Free | Pro

  function TierValue(tier: PlanTier): string {
    match tier case Free => "FREE" case Pro => "PRO"
  }

  datatype Plan = Plan(name: string, apiCallQuota: int, aiTokenQuota: int)

  /** The monthly limit a plan sets for one usage type. Each token type is held to the token quota by itself. */
  function LimitFor(plan: Plan, u: UsageType): int {
    if u == ApiCall then plan.apiCallQuota else plan.aiTokenQuota
  }

  datatype SubscriptionStatus = Active | PastDue | Canceled | Incomplete | Trialing

  function ParseStatus(s: string): Option<SubscriptionStatus> {
    if s == "active" then Some(Active)
    else if s == "past_due" then Some(PastDue)
    else if s == "canceled" then Some(Canceled)
    else if s == "incomplete" then Some(Incomplete)
    else if s == "trialing" then Some(Trialing)
    else None
  }

  /** The statuses the subscription query of the metering path selects. */
  predicate IsLive(status: SubscriptionStatus) {
    status == Active || status == Trialing || status == Incomplete
  }

  datatype Tenant = Tenant(email: string, stripeCustomerId: Option<string>)

  datatype Subscription = Subscription(
    tenant: TenantId,
    plan: PlanTier,
    stripeId: Option<string>,
    status: SubscriptionStatus,
    periodStart: Option<int>,
    periodEnd: Option<int>,
    cancelAtPeriodEnd: bool,
    canceledAt: Option<int>)

  const MAX_QUANTITY := 10_000_000

  /** A validated metering request of an authenticated tenant. */
  datatype MeterRequest = MeterRequest(tenant: TenantId, key: string, usageType: UsageType, quantity: Quantity)

  type Quantity = q: int | 0 < q <= MAX_QUANTITY witness 1

  /** A row of the usage ledger. */
  datatype UsageEvent = UsageEvent(
    id: string,
    tenant: TenantId,
    key: string,
    usageType: UsageType,
    quantity: Quantity,
    cost: nat,
    createdAt: nat)

  /** The body of a 200 from the metering endpoint. */
  datatype MeterResponse = MeterResponse(
    eventId: string,
    usageType: UsageType,
    quantity: int,
    cost: int,
    remainingApiCalls: int,
    remainingTokens: int)

  /** What the metering endpoint answers. */
  datatype MeterOutcome =
    | Metered(response: MeterResponse)
    | PaymentRequired
    | QuotaExceeded(used: int, limit: int, requested: int)
    | ServerError
}
