# Metering ledger, webhooks and limits: a verified model

A Dafny model of a multi-tenant usage metering and billing service, with proofs about whole runs of it.

| file | what it holds |
|---|---|
| `Types.dfy`, `Calendar.dfy` | shared entities; UTC months on a clock of whole seconds |
| `Money.dfy` | half-up micro-unit costs, rounding drift, cents |
| `Ledger.dfy` | the append-only usage table and its monthly aggregations |
| `Tables.dfy`, `Webhook.dfy` | tenants, plans and subscriptions with their constraints; Stripe deliveries and the processed-event log |
| `Handlers.dfy` | what each Stripe event does to the subscription table, field by field |
| `Billing.dfy` | prices, the quota check, the usage report and its cost figures |
| `CacheKeys.dfy` | cache key and stored form of an idempotent response |
| `Metering.dfy`, `Limits.dfy` | the service as a serial machine, with and without caches; ceilings, remaining quota, status gate |
| `Answers.dfy` | the row, the figures and the deciding quota of a metering request; the turn of the month |
| `Interleaving.dfy`, `Idempotency.dfy`, `QuotaRace.dfy`, `QuotaWitness.dfy`, `StatusRace.dfy`, `GateWitness.dfy`, `StaleRead.dfy` | requests in flight side by side, one read or write at a time |
| `Uninterrupted.dfy` | the interleaved machine against the serial one |
| `RateLimit.dfy`, `Waiting.dfy` | the sliding-window limiter; clients that wait as told |
| `Retry.dfy`, `Service.dfy` | the retry loop; the session, caches, repositories and endpoints as classes, proved against the step functions |

The step functions (`Metering.SystemStep`, `Webhook.Deliver`, `RateLimit.Decide`, `Interleaving.Apply`) say what one
step does. The classes carry the same steps out in place and their methods ensure exactly those functions.
`Answers`, `Handlers` and `Billing.Tells` say the same in terms of rows, sums and plans alone.
The theorems are about runs: sequences of steps of any length, in any order.

## Assumptions

- One non-decreasing clock, read once per request. Redis uses the same clock.
- The commit at the end of a request succeeds whenever a 200 was built. The response is cached before that commit.
- Ledger rows are written by the service only. Event ids are fresh.
- Webhook deliveries are processed one after the other. The processed-event table has a composite primary key
  (`src/models/base.py:12`, `src/models/stripe_event.py:12`), so nothing is claimed about concurrent duplicates.
- READ COMMITTED: a check sees committed rows only; an insert waits for an uncommitted row of the same triple.
- Every open transaction holds a connection of the pool, a webhook's too. A session that loaded a tenant with its
  subscription keeps that object: later queries find rows by what is committed and return the object as it was loaded.
- Once a statement of a session has failed, every further one is refused until the rollback, with an error that is not
  transient.
- An interleaved run takes place within one calendar month. Serial runs may cross months.

## Where code and documentation differ

The model follows the code in each case.

- The documentation calls the quota boundary absolute (`README.md:22`). `QuotaWitness.HardCeilingExactly`: it is exactly
  when one request is served at a time. With a pool of k connections, usage can reach, and never exceeds, the limit
  plus (k - 1) times the largest admissible request.
- The plan's token quota reads as one budget, and the report shows all token types against it. The check applies
  it to each of the four types (`src/services/quota_service.py:42-48`). `Limits.OneBudgetExactly`: it is one budget over
  every run only when it is nothing; `Limits.TokenCeilingIsReached` uses it four times; `Limits.BudgetKeptExactly` is the
  condition for a single request.
- "No rounding errors" (`README.md:26`). `Billing.RollupAgreesExactly`: the stored total and the report agree on every
  ledger if and only if no price rounds and reasoning costs what output costs. The default prices round
  (`Billing.RollupDriftHappens`).
- The documented report shows 5000 cents for 5000 API calls (`README.md:281`); at the default price a cent buys ten
  calls, so the code reports 500 (`Billing.DefaultApiCents`).
- Replays within 24 hours return the cached response (`README.md:20`) only while the cache still has it
  (`Metering.ReplayWithinLifetime`); after that the database refuses one unless the tenant is covered and the quota has
  room for the quantity once more (`Limits.ReplayAfterRun`). Right after the request that is room for the quantity
  twice (`Limits.ReplayNeedsRoomTwice`).
- A closed subscription is refused immediately (`README.md:24`). `GateWitness.GateIsImmediateExactly`: in every run
  only with a single connection. With a pool of k, a tenant can gain k - 1 rows after the event that closed its
  subscription, and never more.
- Honouring the limiter's Retry-After does not imply being let in. `Waiting.HeedingStarvesExactly`: some client that
  always waits at least as told is rejected for ever if and only if nothing is permitted or the window has more seconds
  than requests are permitted. For clients that come back to the instant, the window must have at least
  2 * maxRequests + 1 seconds (`Waiting.StarvationExactly`). The default of 100000 requests in 60 seconds
  (`src/config/settings.py:30-31`) is safe from both: every client that waits at least as told is let in within
  sixty retries (`Waiting.DefaultClientGetsIn`).
- The past-due and canceled branches of the quota check (`src/services/quota_service.py:26-36`) are dead on a current
  row, since the query selects live rows only (`Billing.StatusBranchesAreDead`), and so in every serial run. They are
  taken when the session loaded the row before the event that reopened it. `StaleRead.NeverRefusesLiveExactly`: no run
  refuses payment to a tenant whose subscription is live if and only if there is no second connection. The limit is that
  of the loaded object's plan too, which is why the bound under concurrency is stated for the largest plan.
- Deadlocks and lost connections are listed as transient (`src/config/database.py:19-28`), but within one session the
  retries absorb only failures to connect (`Service.AbsorbedExactly`): after a failed statement every attempt is refused.

## Model

| member | source | states |
|---|---|---|
| Money.CalculateCostMicrounits | src/utils/money.py:4-10 | A positive quantity at a positive price costs the nearest whole micro-unit, a tie going up; anything else costs nothing |
| Money.RoundingDrift | src/utils/money.py:4-10 | For any n quantities at any price, twice the distance between the sum of rounded costs and the rounded cost of the sum is at most n |
| Money.RoundingDriftIsTight | src/utils/money.py:4-10 | That bound is attained for every even n |
| Money.DriftFreeExactlyAtWholePrices | src/utils/money.py:4-10 | There is never any drift if and only if the price is a whole number of micro-units per unit or not positive |
| Money.CentsOfParts | src/utils/money.py:13-14 | Flooring two parts to cents separately loses between the cents of the remainder and two more |
| Calendar.MonthOf | src/services/quota_service.py:47 | The month found contains the instant |
| Calendar.MonthStartIsCivil | src/services/quota_service.py:47 | Every month of the clock starts at midnight UTC of its first day in the Gregorian calendar |
| Calendar.PeriodIsTheMonth | src/api/v1/usage.py:54-58 | The printed period is the month the instant falls in: its end is the month that starts next, over the turn of the year too |
| Ledger.Find | src/repositories/usage_repo.py:41-50 | Returns a row of the triple exactly when the ledger has one |
| Ledger.InsertKeepsUnique | src/repositories/usage_repo.py:23-50 | Insert-or-read keeps one row per triple, and the row it returns is the triple's row afterwards |
| Ledger.AggregationsAgree | src/repositories/usage_repo.py:52-79 | On every ledger the grouped breakdown equals the filtered sum of every type, has a group exactly for types with rows, and its token groups add up to the token usage |
| Ledger.SumsAreTotals | src/repositories/usage_repo.py:52-90 | Each monthly sum is the total over exactly the tenant's rows created at the month's start or later |
| Ledger.OldRowsDoNotCount | src/repositories/usage_repo.py:52-90 | Rows from before the month, however many, change none of the sums |
| Ledger.UsageIsMonotone | src/repositories/usage_repo.py:52-64 | Later rows never lower a monthly sum; a later month start never raises it |
| Tables.ScalarOneOrNone | src/repositories/subscription_repo.py:13-30 | No row, the only matching row, or an error when several match |
| Tables.InsertExactly | src/repositories/subscription_repo.py:32-36 | An insert succeeds exactly when the table with the row added meets the constraints, and then that is the table |
| Tables.UpdateExactly | src/repositories/subscription_repo.py:38-41 | A flush of a changed row succeeds exactly when the table with the row replaced meets the constraints, and then that is the table |
| Tables.UpsertKeeps | src/repositories/subscription_repo.py:43-74 | An upsert touches only the row of its Stripe id, never its tenant, and otherwise adds one row of that id |
| Tables.UpsertWrites | src/repositories/subscription_repo.py:43-74 | After an upsert the Stripe id has the given status; every other id has the status it had |
| Tables.CreateExactly | src/repositories/tenant_repo.py:10-15 | A tenant is created, with its email and customer, exactly when its id is new, it has an email and its customer is nobody else's |
| Tables.LookupsAreUnambiguous | src/models/subscription.py:21-29 | With the constraints in place no lookup by Stripe id or by live tenant finds several rows |
| Webhook.LogRefinement | src/api/v1/webhook.py:109-142 | After any run the tables are the handlers folded over the committed log, the log is exactly the accepted deliveries in order, and no event id is in it twice |
| Webhook.RedeliveryIsHarmless | src/api/v1/webhook.py:109-142 | Delivering only what was accepted gives the same store as the run with all redeliveries and failures |
| Webhook.ProcessedForGood | src/repositories/stripe_event_repo.py:10-31 | A processed event id is answered as already processed ever after, with no effect |
| Webhook.AllOrNothing | src/api/v1/webhook.py:109-142 | A delivery is processed exactly when its id is new, its handler succeeds and its payload can be stored; then its mark is appended to the log, and otherwise nothing changes |
| Webhook.HandleKeepsTables | src/api/v1/webhook.py:188-417 | Every handler touches only the named subscription, never a tenant or Stripe id of an existing row, and keeps the constraints |
| Webhook.RunKeepsSubscriptions | src/models/subscription.py:21-29 | Over every run: at most one row per tenant and per Stripe id, rows keep tenant and id, and rows no processed event named are unchanged |
| Webhook.PlanFollowsPrice | src/api/v1/webhook.py:371-375 | An update moves to pro for the configured price and to free for any other, except exactly when the price is named like the stored tier and stands for another |
| Webhook.HandleWritesStatus | src/api/v1/webhook.py:281-396 | Each event writes the status its type calls for to the subscription it names and to no other |
| Webhook.LastWriterWins | src/api/v1/webhook.py:281-396 | After replaying any log, a subscription's status is the one set by the last event that wrote it |
| Webhook.StatusOverRuns | src/api/v1/webhook.py:109-142 | The same for the committed state after any run of deliveries |
| Handlers.StatusReadsBack | src/models/subscription.py:11-16 | A status is read exactly from its name, and from nothing else |
| Handlers.CheckoutKnownExactly | src/api/v1/webhook.py:243-278 | A checkout of a known subscription puts its row on the plan bought, active from now for thirty days, and changes nothing else |
| Handlers.CheckoutNewExactly | src/api/v1/webhook.py:188-278 | A checkout of a new subscription adds such a row for its tenant, found or created, exactly when the plan exists and the tenant has no row |
| Handlers.CheckoutWithoutTenantExactly | src/api/v1/webhook.py:203-214 | A checkout naming an unknown tenant has no effect; one that cannot create a tenant fails |
| Handlers.InvoiceExactly | src/api/v1/webhook.py:281-317 | A paid invoice makes its subscription active, a failed one past due, and changes nothing else |
| Handlers.OtherInvoiceExactly | src/api/v1/webhook.py:281-317 | An invoice of no known subscription has no effect |
| Handlers.CreatedKnownExactly | src/api/v1/webhook.py:320-353 | A created event for a known id changes the status alone, and fails exactly for a name the service does not know |
| Handlers.CreatedNewExactly | src/api/v1/webhook.py:320-353 | A created event for a new id adds a row with the price's plan and the event's status, period and flags, exactly when all can be read and the tenant has none |
| Handlers.UpdatedExactly | src/api/v1/webhook.py:356-380 | An update writes status, period, flag and plan, all or none; tenant, id and cancellation time stay |
| Handlers.DeletedExactly | src/api/v1/webhook.py:383-396 | A deletion cancels at the time the event says or else now, and changes nothing else |
| Handlers.NoEffectExactly | src/api/v1/webhook.py:356-417 | Updates and deletions of unknown ids and events that are only logged have no effect |
| Handlers.HandleWritesPlan | src/api/v1/webhook.py:251-380 | Every handled event leaves every subscription on its plan except the one it writes, which is on the plan of the price |
| Handlers.PlanOverRuns | src/api/v1/webhook.py:109-142 | Over every run a subscription is on the plan the last committed event that wrote one put it on |
| Billing.RefusedExactlyWithoutLiveRow | src/services/quota_service.py:22-40 | Payment is required exactly when the tenant has no active, trialing or incomplete row |
| Billing.StatusBranchesAreDead | src/services/quota_service.py:22-36 | On a row as it is now, the refusing branches of the status check are not taken |
| Billing.ReportMatchesLedger | src/api/v1/usage.py:35-84 | The period is the month up to the start of the next; every usage figure of the report is that of the ledger, the three token lines add up to the token usage, used and remaining add up to the limit |
| Billing.FreshRollupTells | src/api/v1/usage.py:22-88 | A tenant without a live row is not found; any other is told, for the month of now, its sums since the month began, its own plan's name and quotas, what remains of each, and the cents of each line's own cost |
| Billing.ReasoningCostsAsOutput | src/services/cost_service.py:18-30 | Reasoning tokens are priced as output, together with it; input and cached input by themselves |
| Billing.CostSplit | src/repositories/usage_repo.py:81-90 | The stored monthly total is the sum over usage types of costs rounded one event at a time |
| Billing.RollupCostAgreement | src/api/v1/usage.py:40-83 | At any prices the stored total differs from the recomputed cost by what reasoning tokens cost beyond output and at most half the number of rounded rows; in cents it exceeds the reported parts by the cents of that difference and at most two |
| Billing.DefaultRoundedRows | src/config/settings.py:45-49 | At the default prices the rounded rows are the token rows and reasoning costs nothing beyond output, so the total is within half the number of token rows |
| Billing.RollupAgreesExactly | src/services/cost_service.py:8-30 | Stored total and recomputed cost agree on every correctly priced ledger if and only if no price rounds and reasoning costs what output costs |
| Billing.RollupDriftHappens | src/services/cost_service.py:25-30 | At the default prices two one-token reasoning events are stored one micro-unit above what is recomputed |
| Billing.DefaultApiCents | src/utils/money.py:13-14 | At the default price the API cents of a report are a tenth of the calls |
| CacheKeys.CacheKeyIsInjective | src/config/cache.py:104-111 | Two requests share a cache key exactly when tenant, key and type agree, colons in the key included |
| CacheKeys.CachedRoundTrip | src/api/v1/meter.py:15-20 | A stored response reads back as itself and as nothing else |
| Metering.RecordKeepsUnique | src/services/meter_service.py:27-65 | Recording appends at most, keeps triples unique, reports a row of the request's triple, and leaves the ledger alone when there is one already |
| Answers.NewRequestExactly | src/services/meter_service.py:27-65 | A covered tenant's request with an unused key is recorded, at its own cost and now, exactly when the month's usage of its type and its quantity fit the API or token quota; the 200 tells what remains under its own name, the 429 what is used, the limit and the request |
| Answers.RepeatedRequestExactly | src/repositories/usage_repo.py:41-50 | With its row already there nothing is written and a 200 reports that row |
| Answers.UncoveredRequestExactly | src/services/quota_service.py:22-40 | Without a live row or its plan: payment required, nothing written |
| Metering.HitIsReplay | src/api/v1/meter.py:41-45 | A cache hit answers for a row the ledger has, where the uncached service would have changed nothing |
| Metering.AnyEntryCanBeLost | src/config/cache.py:52-62 | Any cached entry can be gone at any moment, alone |
| Metering.CacheTransparency | src/api/v1/meter.py:41-97 | Over every run and every pattern of loss and expiry the committed state is that of the service without caches; a metering answer differs only by turning a replay's refusal or 200 into a 200 for its row (usage answers: see BoundedStaleness) |
| Metering.ReplayWithinLifetime | src/config/cache.py:101-111 | While a cached response is neither evicted nor expired, every request of its triple that reaches the cache is answered 200 for the same event |
| Metering.ReportsHaveASource | src/api/v1/usage.py:86 | Every cached report was fresh at an earlier point of the run that its expiry dates |
| Metering.ReportWithinLifetime | src/api/v1/usage.py:26-29 | For thirty seconds after a report, unless evicted, whoever asks in its month and can reach the cache gets a report cached since, whatever became of the subscription |
| Metering.BoundedStaleness | src/api/v1/usage.py:26-29 | Every answer to a usage request tells exactly what held at a point of the run in the same month, now or less than thirty seconds earlier; no usage figure of a report exceeds current usage |
| Limits.SerialCeiling | src/services/quota_service.py:42-61 | In every serial run, across months and plan changes, no usage type exceeds the largest plan limit |
| Answers.ApiCallCeiling | src/services/quota_service.py:42-61 | In every serial run the month's API calls stay within the largest API quota, whatever the token quotas |
| Answers.NewMonthStartsAtZero | src/services/quota_service.py:47-48 | When the clock passes into a later month every current sum is zero |
| Answers.FirstRequestOfMonth | src/services/quota_service.py:47-50 | The first request of a month is recorded whenever it fits the quota by itself, however much earlier months used |
| Limits.RunKeepsPrices | src/services/meter_service.py:38-48 | Every recorded row carries the cost of its own type and quantity |
| Limits.RemainingIsHonest | src/api/v1/meter.py:81-90 | A fresh 200's remaining API calls or tokens plus the month's sum of its type is the API or token quota, the other figure is zero; a replay's remaining never exceeds what is left |
| Limits.ReplayExactly | src/services/meter_service.py:27-48 | While the ledger has the row of its triple, whatever has been recorded since, the database alone answers 200 for that row exactly when the plan read covers the tenant and usage plus quantity is within the limit; nothing is written |
| Limits.ReplayAfterRun | src/repositories/usage_repo.py:23-50 | The same after any serial run from a state that has the row, over months, plan changes and webhooks |
| Limits.TokenCeiling | src/services/quota_service.py:42-61 | The four token types together stay within four times the token quota |
| Limits.TokenCeilingIsReached | src/services/quota_service.py:42-48 | For every quota some run uses exactly four times it |
| Limits.OneBudgetExactly | src/services/quota_service.py:42-48 | The token quota bounds the four types together over every run if and only if it is nothing |
| Limits.BudgetKeptExactly | src/services/quota_service.py:42-50 | A recorded token request keeps the four types together within the quota exactly when their total before and the quantity fit; the check has looked at its own type only |
| Limits.DeliveryAndGate | src/api/v1/webhook.py:301-396 | A processed payment failure or deletion closes the subscription; it stays closed under any delivery that does not reopen it |
| Limits.StatusGate | src/repositories/subscription_repo.py:13-23 | From a processed closing event on, through any serial run without a reopening event, the tenant gains no row and is refused |
| Idempotency.StepIsSound | src/repositories/usage_repo.py:23-50 | Every step of every interleaving keeps: unique triples over committed and uncommitted rows, and a row behind every response given or cached |
| Idempotency.IdempotentUnderConcurrency | src/models/usage_event.py:32-36 | In every reachable state at most one row per triple, one event behind all its 200 responses, and a 200 behind every row |
| Idempotency.SettledResponsesAreBilled | src/api/v1/meter.py:81-97 | Once no commit is outstanding, every 200 given out has the row it reports in the ledger |
| Uninterrupted.UninterruptedIsSerial | src/api/v1/meter.py:34-97 | A request whose steps run in a row, whatever other requests have done so far, changes tables, ledger and cached responses and answers exactly as one step of the serial machine |
| QuotaRace.AdmissionInBounds | src/services/quota_service.py:47-61 | Passing the check against committed usage keeps usage plus pending quantities within the bound |
| QuotaRace.QuotaUnderConcurrency | src/services/meter_service.py:27-48 | In every interleaving, usage plus everything past the check is at most the limit plus one request cap for each connection but one |
| QuotaWitness.BoundIsReached | src/schemas/meter.py:9 | For every pool size, limit and type some interleaving reaches that bound |
| QuotaWitness.HardCeilingExactly | src/services/quota_service.py:50 | No interleaving exceeds the limit if and only if the pool serves one request at a time or the limit is zero |
| QuotaWitness.FreePlanWithDefaultPool | src/config/settings.py:24-25 | One process with the default pool lets a free tenant use thirty times its API quota at worst, and that happens |
| StatusRace.ClosedTenantGainsLessThanPool | src/services/quota_service.py:22-36 | In every interleaving, after a processed closing event and without a reopening one, a tenant gains at most one row for each of its transactions past the subscription check, fewer than there are connections |
| GateWitness.GateBoundIsReached | src/services/meter_service.py:27-48 | For every pool some interleaving writes one row for each connection but one after the subscription has been closed |
| GateWitness.GateIsImmediateExactly | src/config/database.py:67-74 | No interleaving writes a row after a processed closing event if and only if there is no second connection |
| StaleRead.NeverRefusesLiveExactly | src/services/quota_service.py:22-40 | Over every interleaving no tenant is refused payment while its subscription is live if and only if there is no second connection |
| StaleRead.RefusedWhileLive | src/api/middleware/auth.py:39-41 | With two connections some interleaving answers 402 to a tenant whose subscription is live |
| StatusRace.RunStaysInPool | src/config/database.py:67-74 | Over every run the open transactions fit the pool, webhooks waiting for a free connection, and the tables keep their constraints |
| RateLimit.BucketIsRecentHistory | src/api/middleware/rate_limit.py:27-32 | After pruning and expiry the sorted set is exactly the recent part of the full history |
| RateLimit.FullHistoryRefinement | src/api/middleware/rate_limit.py:24-43 | The limiter decides exactly as one that remembers every arrival for ever |
| RateLimit.AllowedExactly | src/api/middleware/rate_limit.py:24-43 | For strictly increasing arrivals, arrival i is allowed exactly when fewer than the maximum came before or the one that many earlier has left the window |
| RateLimit.WindowIsNeverOverfull | src/api/middleware/rate_limit.py:34-43 | No interval of one window's length holds more than the maximum of distinct allowed times |
| RateLimit.RetryAfterClearsOldest | src/api/middleware/rate_limit.py:36-41 | The wait asked for is between one and the window plus one seconds, and puts the oldest entry outside the window |
| RateLimit.RetryAfterIsLeast | src/api/middleware/rate_limit.py:36-41 | The wait is the least number of whole seconds, at least one, after which the oldest entry is more than a window ago |
| RateLimit.SilenceRestores | src/api/middleware/rate_limit.py:24-43 | After a silent window the next maximum number of arrivals are all allowed |
| Waiting.RetryIsLetInExactly | src/api/middleware/rate_limit.py:36-41 | The retry made exactly when told is let in exactly when the arrival that many places before it has left the window |
| Waiting.StarvationExactly | src/api/middleware/rate_limit.py:24-43 | Some client that always waits exactly as told is rejected for ever if and only if nothing is permitted or the window has at least twice the maximum plus one seconds |
| Waiting.HeedingStarvesExactly | src/api/middleware/rate_limit.py:24-43 | Some client that always waits at least as told is rejected for ever if and only if nothing is permitted or the window has more seconds than requests are permitted |
| Waiting.AdmittedWithinWindow | src/api/middleware/rate_limit.py:24-43 | Where that cannot happen, every client that waits at least as told is let in within as many retries as the window has seconds |
| Waiting.DefaultClientGetsIn | src/config/settings.py:30-31 | As configured by default, within sixty |
| RateLimit.RedisRateLimiter.IsAllowed | src/api/middleware/rate_limit.py:18-46 | Over any sequence of calls, keys and outages, a call that gets through is decided by the full history of its key; one that does not is allowed, and recorded only if the pipeline had run |
| Retry.FirstEnd | src/config/database.py:45-51 | The first call that returns or raises a non-transient error |
| Retry.TotalWaitIsBounded | src/config/database.py:52-54 | The summed waits are at most one capped, jittered delay for each failure |
| Retry.WaitsGrow | src/config/database.py:52-54 | The delay starts at its base and doubles up to its cap; each wait adds a tenth of it per attempt made |
| Retry.ResultExactly | src/config/database.py:44-51 | A value is returned exactly when some allowed call returns one and all before it fail transiently; a transient error is raised exactly when every allowed call fails so |
| Retry.WithDbRetry | src/config/database.py:44-60 | The operation is called up to and including its first success or non-transient error and never more than allowed; total sleep is within the bound; allowing no call ends in an error |
| Service.MeterService.RecordUsage | src/services/meter_service.py:17-65 | However many attempts fail, the ledger changes as one recording changes it or not at all; the result is that of the last attempt the retry loop makes, after 0, 55 or 175 milliseconds of waiting |
| Service.AbsorbedExactly | src/services/meter_service.py:17-27 | The retries absorb exactly transient failures to connect, followed in time by an attempt no error strikes |
| Service.Endpoints.Meter | src/api/v1/meter.py:34-97 | Exactly one step of the serial machine on a cache hit or when the retries absorb the database errors; otherwise a server error that commits and caches nothing |
| Service.Endpoints.GetUsage | src/api/v1/usage.py:22-88 | Exactly one step of the serial machine, or a server error without effect when a query fails after a cache miss |
| Service.WebhookEndpoint.StripeWebhook | src/api/v1/webhook.py:84-142 | Exactly one delivery: effects and processed mark together, or everything a failed handler did rolled back |

## Left out

- Money.CalculateCostMicrounits: does not model the 28-digit context of decimal arithmetic; products of quantity and price from 10^28 on, which no stored quantity at the default prices can reach, are rounded earlier there.
- Calendar.MonthOf: the clock is in whole seconds; fractions of a second are dropped.
- CacheKeys.CachedRoundTrip: the cached dictionary is a value and reading it back a function; the overwriting of its entries in place is not captured.
- Retry.WithDbRetry: whether an error is transient (a substring test on its message) is an input.
- Service.MeterService.RecordUsage: repeats the loop of Retry.WithDbRetry, because a list of outcomes cannot carry the attempts' effects.
- Service.WebhookEndpoint.StripeWebhook: rows are values written back by index, so aliasing between ORM objects of one session is not captured; the two invoice handlers share one method.
- RateLimit.RedisRateLimiter.IsAllowed: the separate read of the oldest entry sees the set as the pipeline left it; the window is not negative; the server loses no data of its own accord.
- Interleaving: no source object runs several requests, so this part is a state machine over values and not a class. It lets a request retry after any transient error, also where its session would refuse; what is proved of every run holds of the fewer runs that remain, and no run given as a witness retries.
- A commit that fails after a 200 was built, requests that straddle a month boundary, and concurrent duplicate webhook deliveries.
- Row ids and timestamps other than those a query reads, tenant names and key hashes, column length limits.
- Signature verification, Stripe calls, authentication, request validation, headers and JSON error bodies; their results are inputs.
- The contents of the tenant cache (whether it answers is a choice of each request), the invalidation of a cache prefix nothing writes, the connection cooldown, health checks, checkout and portal endpoints, seeding and migrations: they touch neither the ledger nor the rules above.
