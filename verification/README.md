# Verified models of an order, payment and delivery back end

Models, in Dafny 4.11, of the parts of a restaurant's API where a mistake costs money or trust: the online payment
protocol of a checkout, refresh-token rotation, the address filter of outgoing requests, cash reconciliation, the stock
ledger, destination edits, migration identity, the audit sanitizer, delivery fees and provider quotas. `dafny verify
dfyconfig.toml` checks everything.

## What is modelled

**Checkout payments** (`PaymentLifecycle`, `CheckoutTables`, `CheckoutPolicy`, `CheckoutRepository`, `CheckoutProtocol`).
Tables are sequences whose indices are row ids. Every repository transaction is a function from tables to a commit or an
abort. `CheckoutProtocol.Next` lets twenty kinds of step by any clients interleave on one clock; whatever a client read
earlier is a parameter of its step, so stale reads are included. `CheckoutSafety` proves what every run keeps,
`CheckoutHazards` shows two runs that break a promise, `CheckoutProgress` treats checkouts and leases, and
`KitchenSafety` follows every release back to its one verified payment; `KitchenNewest` and `KitchenHazards` say when that
payment stays the only one. `WebhookPipeline` runs one claimed event as seven effects that may be cut off anywhere;
`WebhookResume` proves that cutting and reclaiming is invisible, `WebhookRank` when the recorded checkpoint moves,
`WebhookOutcomes` what a whole run achieves, and `WebhookRelease` when it releases a checkout. `PaymentReplies` says what
a request for a link is answered, in terms of the rows. `PaymentService` is the imperative service on those tables: every
method leads from its old world to its new one by some run of the protocol, kitchen approvals included, so the service
keeps whatever runs keep.

**Sessions** (`AuthTables`, `AuthSafety`, `AuthPruning`, `AuthCleanup`, `AuthAnswers`, `AuthService`). Rows live in a table
keyed by token hash. What has been signed and handed out is kept in two records nothing can take back, so "every access
token issued before" can be said. `AuthAnswers` says what every presented token is answered, now and after any run.
`AuthService.Sessions` is the stateful service: its `Valid()` is the invariant and the bound of `AuthSafety` and
`AuthPruning`, and every method keeps it. A mint handed to a method must be new and correctly listed.

**Addresses** (`Strings`, `Bits`, `IpText`, `IpAddress`, `IpAccepted`, `IpRouting`, `IpForbidden`). The parsers work on
characters, with the runtime's split, shift and mask operations spelled out on natural numbers. `IpForbidden` states the
verdict over octets and groups, without the tables of ranges.

**Cash** (`CashRecords`, `CashReconciliation`, `CashLaws`, `CashOrder`, `CashCancellation`, and `CashVocabulary`, which restates
the summary by the words of the method codes), **destinations** (`DestinationText`, `DestinationEdits`), **stock**
(`StockLedger`, `PurchaseLines`), **migrations** (`MigrationIdentity`), **audit** (`AuditSanitizer`), **quotas**
(`ProviderQuota`, `QuotaSafety`) and **fees** (`DeliveryFee`) are one small model each, imperative where the source updates
state and pure where it computes.

## Where the code and its promises part

The models follow the code. Each of these promises is false as stated; for each, the first members named give a concrete
input or run, and the last the exact condition under which the code keeps it.

- The relink policy is documented as keeping at most one active link per checkout. Starting a payment looks at neither the
  link nor the intent's TTL again, and a replayed command gives a link a fresh expiry: `CheckoutHazards.LateStartAfterResolvedLink`
  and `CheckoutHazards.ReplayedLinkOutlivesItsIntent`. The exact condition over all runs is `CheckoutSafety.RunUnique`.
- A release always rests on exactly one successful attempt, the newest (`KitchenSafety.EveryReleaseWasEarned`), but that
  attempt need not stay the only one paid: `KitchenHazards.ReleasedThenPaidAgain`. The exact condition over all runs is
  `KitchenNewest.RunPaysOnlyNewest`.
- A recorded checkpoint can fall: `WebhookRank.RankMayFall`. A try lowers it exactly as in `WebhookRank.RankFallsExactly`,
  and over sequences of tries as in `WebhookRank.TriesFallExactly`.
- A token just issued can be pruned by its own login when enough others share its creation time:
  `AuthPruning.TieMayRevokeJustIssued`, exactly as in `AuthPruning.JustIssuedSurvives`.
- Purchase lines run concurrently inside one transaction, where row locks do not exclude each other. A repeated item can
  lose a quantity: `PurchaseLines.RepeatedItemLosesUpdate` and `PurchaseLines.SafeExactlyWhenDistinct`.
- A blank delivery reference keeps the coordinates and forgets their text: `DestinationEdits.BlankForgetsTheText`.
  The exact condition is `DestinationEdits.PlaceIsKeptExactlyWhenWritten`.
- The audit depth limit is tested before the key, so at depth six a blocked value becomes the truncation marker, null
  included: `AuditSanitizer.DeepBlockedIsTruncated`. `AuditSanitizer.BlockedIsRedacted` says what stands at every depth.
- A provider check that fails on its own admits the call: `QuotaSafety.FailedCheckBreaksTheLimit`. The plain bound holds
  exactly when no call is admitted that way, `QuotaSafety.PlainBoundExactly`.
- The expected cash is meant to be what is in the drawer. A cash sale that is cancelled after it was paid leaves the drawer
  once and the expected cash twice: `CashCancellation.CancelledSaleLeavesAGap` and `CashCancellation.CancellationCountsTwice`.
  The two agree exactly when the gap of the records is zero, `CashLaws.DrawerAgreesExactly`.
- Allocated fees are rounded payment by payment, so a small fee can vanish: `CashLaws.FeeMayVanish`, exactly as in
  `CashLaws.FeesVanishExactly`.

## Model

| member | source | states |
|---|---|---|
| PaymentLifecycle.WalkClimbs | apps/api/src/modules/order-checkout/payment-lifecycle.ts:4-18 | Every allowed status change climbs a level, so the table has no cycle. |
| PaymentLifecycle.WalkIsFinite | apps/api/src/modules/order-checkout/payment-lifecycle.ts:4-18 | No history visits a status twice or has more than six entries. |
| PaymentLifecycle.EnteredFrom | apps/api/src/modules/order-checkout/payment-lifecycle.ts:4-18 | The table read the other way: from which statuses each status is entered. |
| PaymentLifecycle.AfterSuccess | apps/api/src/modules/order-checkout/payment-lifecycle.ts:7-13 | SUCCEEDED is entered only from PENDING or UNKNOWN_RESULT, and only a financial review follows it. |
| CheckoutPolicy.AssertRelinkAllowed | apps/api/src/modules/order-checkout/payment-orchestration.service.ts:229-276 | The loop with its early exits lets a command through exactly when it is a replay, or the checkout is payable and unexpired and every attempt is dead; otherwise it reports the first blocking reason. |
| CheckoutPolicy.DecisionMeans | apps/api/src/modules/order-checkout/canonical-payment-webhook.service.ts:283-346 | When each status is asked for and each outcome given: success exactly for a matching approval of an open checkout, and which mismatch is named first. |
| CheckoutTables.AttemptsAreTheIntents | apps/api/src/modules/order-checkout/persistence/prisma-order-checkout.repository.ts:227-231 | The attempts the policy sees are all and only the intents of the checkout. |
| CheckoutTables.FindActiveLink | apps/api/src/modules/order-checkout/persistence/prisma-order-checkout.repository.ts:339-348 | The newest active, unexpired link of an intent; none only when it has none. |
| CheckoutProtocol.CreatedIntentIs | apps/api/src/modules/order-checkout/persistence/prisma-order-checkout.repository.ts:233-295 | A new attempt has a new key, the next attempt number and a history of one row; nothing else of the intents changes. |
| CheckoutProtocol.AppliedIs | apps/api/src/modules/order-checkout/persistence/prisma-order-checkout.repository.ts:531-599 | A webhook writes only when the row it read is the current one, the change is allowed and its key is new; it then appends exactly one history row. |
| CheckoutProtocol.ApplyKeeps | apps/api/src/modules/order-checkout/persistence/prisma-order-checkout.repository.ts:531-599 | A success written by a webhook was verified against the row it changes, even when the worker read earlier. |
| CheckoutProtocol.NextKeepsInv | apps/api/src/modules/order-checkout/persistence/prisma-order-checkout.repository.ts:233-599 | Each of the twenty kinds of step keeps the invariant: sound histories, unique keys, numbered attempts, events bound to begun intents. |
| CheckoutProtocol.RunKeepsInv | apps/api/src/modules/order-checkout/persistence/prisma-order-checkout.repository.ts:233-1166 | Every interleaving of those steps keeps it. |
| CheckoutSafety.NextUnique | apps/api/src/modules/order-checkout/payment-orchestration.service.ts:229-276 | One step keeps at most one live attempt per checkout exactly when it does not start a lapsed attempt beside a live one. |
| CheckoutSafety.RunUnique | apps/api/src/modules/order-checkout/payment-orchestration.service.ts:229-276 | Over every run with a monotone clock, at most one attempt of a checkout is ever live if and only if no payment is started on an attempt past its own TTL while another is live. |
| CheckoutSafety.DisciplinedRunsAreSafe | apps/api/src/modules/order-checkout/payment-orchestration.service.ts:311-327 | When links never outlive their intents and payments start behind a usable link, every run is safe. |
| CheckoutSafety.NextKeepsNested | apps/api/src/modules/order-checkout/persistence/prisma-order-checkout.repository.ts:297-337 | Links keep expiring no later than their intents while each new one does. |
| CheckoutSafety.AtMostOneSuccess | apps/api/src/modules/order-checkout/canonical-payment-webhook.service.ts:212-217 | With at most one live attempt the branch for several successful payments is never taken. |
| CheckoutSafety.ReplayReturnsSameIntent | apps/api/src/modules/order-checkout/persistence/prisma-order-checkout.repository.ts:233-295 | After any run, repeating an accepted command returns its own intent and writes nothing, also when the checkout has expired since. |
| CheckoutSafety.OneTransitionPerEvent | apps/api/src/modules/order-checkout/persistence/prisma-order-checkout.repository.ts:531-599 | An event is behind at most one history row of one intent, whatever is retried. |
| CheckoutSafety.HistoriesAreShort | apps/api/src/modules/order-checkout/payment-lifecycle.ts:4-18 | Every reachable intent has at most six history rows, all of different status. |
| CheckoutSafety.RunEvolves | apps/api/src/modules/order-checkout/persistence/prisma-order-checkout.repository.ts:380-599 | Over any run rows keep identity and price, histories only grow, and equal versions mean equal rows. |
| CheckoutSafety.RunKeepsCheckouts | apps/api/src/modules/order-checkout/persistence/prisma-order-checkout.repository.ts:233-295 | No run changes the price, currency, fulfillment or preference of a checkout. |
| CheckoutSafety.StartIsSafe | apps/api/src/modules/order-checkout/persistence/prisma-order-checkout.repository.ts:233-295 | Empty tables satisfy everything the safety theorems assume of the start of a run. |
| CheckoutHazards.ReplayedLinkOutlivesItsIntent | apps/api/src/modules/order-checkout/payment-orchestration.service.ts:49-73 | A run that reaches two live attempts: a replayed command gives a link a fresh expiry beyond its intent's TTL. |
| CheckoutHazards.LateStartAfterResolvedLink | apps/api/src/modules/order-checkout/payment-orchestration.service.ts:102-122 | A run that reaches two live attempts: the payment starts after the resolved link and the intent have expired. |
| CheckoutProgress.NextMovesForward | apps/api/src/modules/order-checkout/persistence/prisma-order-checkout.repository.ts:601-677 | No step moves a checkout backwards, and each status is entered only by its own step. |
| CheckoutProgress.ClosedForGood | apps/api/src/modules/order-checkout/persistence/prisma-order-checkout.repository.ts:601-633 | Over every run a cancelled, expired or reviewed checkout is never verified, released or ordered. |
| CheckoutProgress.MarksAreIdempotent | apps/api/src/modules/order-checkout/persistence/prisma-order-checkout.repository.ts:601-677 | Repeating a downstream mark changes nothing. |
| CheckoutProgress.OthersCannotApply | apps/api/src/modules/order-checkout/persistence/prisma-order-checkout.repository.ts:531-599 | A worker that does not hold the lease writes nothing. |
| CheckoutProgress.LeaseIsExclusive | apps/api/src/modules/order-checkout/persistence/prisma-order-checkout.repository.ts:694-1166 | Over any run in which the holder works on without finishing the event or shortening its lease, and everybody else interleaves, the holder keeps the lease to its end and no step of anybody else changes the row of the event. |
| CheckoutProgress.ClaimMeans | apps/api/src/modules/order-checkout/persistence/prisma-order-checkout.repository.ts:911-1004 | What the recovery worker is answered, in every case, and what a grant or refusal leaves of the row; at most five attempts are granted. |
| CheckoutProgress.RedeliveryMeans | apps/api/src/modules/order-checkout/persistence/prisma-order-checkout.repository.ts:694-856 | What a redelivery is answered, in every case: an identity conflict, the stored or the legacy result, an earlier effect, a grant, or another worker's lease. |
| CheckoutProgress.FailureIsRetried | apps/api/src/modules/order-checkout/persistence/prisma-order-checkout.repository.ts:1116-1166 | A retryable failure before the last attempt can be claimed again at once; any other closes the event; what a failure leaves of the row is stated in full. |
| CheckoutProgress.RenewalHolds | apps/api/src/modules/order-checkout/persistence/prisma-order-checkout.repository.ts:1100-1114 | A lease renewed in time is held until its new end. |
| CheckoutProgress.ForgedRedeliveryIsRefused | apps/api/src/modules/order-checkout/persistence/prisma-order-checkout.repository.ts:694-856 | A redelivery with another payload or account is an identity conflict and changes nothing. |
| CheckoutProgress.FoundExactly | apps/api/src/modules/order-checkout/persistence/prisma-order-checkout.repository.ts:1168-1198 | Which intent an event speaks of, both ways: the one with its payment id unless it carries another reference; with no such id, the only one with its reference; otherwise none. |
| CheckoutProgress.LocatedMeans | apps/api/src/modules/order-checkout/persistence/prisma-order-checkout.repository.ts:1168-1198 | Without assuming unique payment ids: a located intent carries the payment id, or alone carries the reference, and never contradicts the reference. |
| KitchenSafety.EvaluationMeans | apps/api/src/modules/order-checkout/kitchen-eligibility.service.ts:39-49 | For an online checkout the evaluation answers yes exactly when one attempt succeeded and it is the newest. |
| KitchenSafety.OfflineEvaluation | apps/api/src/modules/order-checkout/checkout-policy.service.ts:25-39 | For the other preferences it answers yes for a valid combination unless the newest attempt is unknown. |
| KitchenSafety.PaidIsVerified | apps/api/src/modules/order-checkout/canonical-payment-webhook.service.ts:283-319 | Whatever was ever paid was paid from PENDING or UNKNOWN_RESULT by its own event with equal amount, currency and account. |
| KitchenSafety.StartIsSound | apps/api/src/modules/order-checkout/kitchen-eligibility.service.ts:39-62 | Empty tables satisfy everything the kitchen theorems assume of the start of a run. |
| KitchenSafety.EveryReleaseWasEarned | apps/api/src/modules/order-checkout/kitchen-eligibility.service.ts:39-62 | Over every run, each release of an online checkout rests on an evaluation at which exactly one attempt was SUCCEEDED, it was the newest, and its own verified event had paid it. |
| KitchenSafety.ReleasedOnlineCheckoutIsPaid | apps/api/src/modules/order-checkout/kitchen-eligibility.service.ts:39-62 | After every run a released online checkout has an attempt that a verified event paid. |
| KitchenNewest.NextPays | apps/api/src/modules/order-checkout/persistence/prisma-order-checkout.repository.ts:531-599 | A step newly pays an attempt exactly when it is a worker transaction that writes a success on it. |
| KitchenNewest.RunKeepsNewest | apps/api/src/modules/order-checkout/payment-orchestration.service.ts:229-276 | Over every run only the newest attempt of a checkout is live or paid if and only if no payment is started on an attempt that has a newer one. |
| KitchenNewest.TimelyStartsSuffice | apps/api/src/modules/order-checkout/payment-orchestration.service.ts:102-122 | Starting payments within the TTL of their attempt keeps that rule. |
| KitchenNewest.RunPaysOnlyNewest | apps/api/src/modules/order-checkout/canonical-payment-webhook.service.ts:187-224 | At the end of any run no superseded attempt has been paid if and only if no worker wrote a success on an attempt that already had a newer one. |
| KitchenNewest.ReleasedPaidOnce | apps/api/src/modules/order-checkout/kitchen-eligibility.service.ts:39-62 | In those runs a released online checkout has exactly one attempt ever paid, the newest, by its verified event. |
| KitchenNewest.NewestThroughoutPaysNewest | apps/api/src/modules/order-checkout/payment-orchestration.service.ts:229-276 | Where only newest attempts count throughout, no superseded one is ever paid. |
| KitchenHazards.ReleasedThenPaidAgain | apps/api/src/modules/order-checkout/payment-orchestration.service.ts:102-122 | A run that releases a checkout on its newest attempt and then has an older one, started past its TTL, paid as well. |
| WebhookPipeline.AttemptKeeps | apps/api/src/modules/order-checkout/canonical-payment-webhook.service.ts:159-242 | Whatever each effect keeps, an attempt cut off anywhere keeps. |
| WebhookResume.WholeAttempt | apps/api/src/modules/order-checkout/canonical-payment-webhook.service.ts:159-242 | From any stage already reached, a whole attempt ends with the uninterrupted report or error and its last stage. |
| WebhookResume.ReclaimMeans | apps/api/src/modules/order-checkout/persistence/prisma-order-checkout.repository.ts:694-1004 | When recovery or a redelivery is granted an event again, and what a grant or refusal leaves of its row. |
| WebhookResume.InterruptionIsInvisible | apps/api/src/modules/order-checkout/canonical-payment-webhook.service.ts:159-242 | Cutting the processing of an event after any effect, with or without a recorded fault, and reclaiming it any number of times by recovery or redelivery ends with the same report, intents and checkouts. |
| WebhookRank.FailureMeans | apps/api/src/modules/order-checkout/canonical-payment-webhook.service.ts:159-242 | At which effect a claimed event fails, in terms of its rows: a refused status change, a closed checkout, or a kitchen that says no. |
| WebhookRank.AttemptGoesAsFar | apps/api/src/modules/order-checkout/canonical-payment-webhook.service.ts:159-242 | Under a held lease an attempt is over after its seven effects, or exactly when one of them fails. |
| WebhookRank.RankFallsExactly | apps/api/src/modules/order-checkout/canonical-payment-webhook.service.ts:360-376 | A try lowers the recorded checkpoint if and only if, on the row before it, the attempts are used up or the granted attempt is about to record a failure: its own, or the fault that stops it. |
| WebhookRank.TriesFallExactly | apps/api/src/modules/order-checkout/canonical-payment-webhook.service.ts:360-376 | Over any sequence of tries the rank never falls if and only if no try meets that condition. |
| WebhookRank.CutsNeverLowerTheRank | apps/api/src/modules/order-checkout/canonical-payment-webhook.service.ts:360-376 | An event whose processing succeeds never loses a checkpoint to silent cuts and reclaims within its five attempts. |
| WebhookRank.RankMayFall | apps/api/src/modules/order-checkout/persistence/prisma-order-checkout.repository.ts:1116-1166 | A delivered approval noted as applied goes back to FAILED when its next worker records a retryable fault. |
| WebhookRank.AttemptsAreBounded | apps/api/src/modules/order-checkout/persistence/prisma-order-checkout.repository.ts:694-1004 | Claims, by recovery or redelivery, are counted one by one and never exceed five. |
| WebhookOutcomes.ApprovedPaymentGoesThrough | apps/api/src/modules/order-checkout/canonical-payment-webhook.service.ts:159-242 | With the kitchen gate open a fresh approval of a payable checkout ends accepted, with its intent SUCCEEDED by that event and the checkout released. |
| WebhookOutcomes.ApprovedPaymentIsDeferred | apps/api/src/modules/order-checkout/kitchen-eligibility.service.ts:21-29 | With the gate closed it ends accepted and SUCCEEDED as well, and its checkout stays verified and unreleased. |
| WebhookRelease.AttemptReleases | apps/api/src/modules/order-checkout/kitchen-eligibility.service.ts:21-50 | Over a whole attempt, cut anywhere, a checkout enters the kitchen only by an effect behind an open gate on whose own tables the evaluation says yes: for an online checkout exactly one attempt is SUCCEEDED there, the newest. |
| WebhookRelease.ClosedGateReleasesNothing | apps/api/src/modules/order-checkout/kitchen-eligibility.service.ts:21-29 | With the gate closed no attempt ever releases anything. |
| WebhookRelease.ReleaseMeans | apps/api/src/modules/order-checkout/kitchen-eligibility.service.ts:21-62 | What the release effect does in every case: nothing while the gate is closed; otherwise one status change exactly when the evaluation says yes and the checkout is releasable, and an error exactly when not. |
| WebhookOutcomes.FreshChange | apps/api/src/modules/order-checkout/canonical-payment-webhook.service.ts:181-209 | The status change of a fresh event in every case: what it leaves of the intents, what it reports, and when it is refused. |
| WebhookOutcomes.SettleMeans | apps/api/src/modules/order-checkout/canonical-payment-webhook.service.ts:212-220 | After a success: review exactly when two attempts of the checkout have succeeded, otherwise verified once, or an error for a closed checkout. |
| WebhookOutcomes.FinishedIsClosed | apps/api/src/modules/order-checkout/canonical-payment-webhook.service.ts:227-234 | A finished attempt has closed its event under the result it reports. |
| WebhookOutcomes.OnlySuccessMovesCheckouts | apps/api/src/modules/order-checkout/canonical-payment-webhook.service.ts:212-224 | An event that leaves its intent in any other status changes no checkout. |
| WebhookOutcomes.MismatchIsReviewed | apps/api/src/modules/order-checkout/canonical-payment-webhook.service.ts:283-305 | A mismatching event sends its intent to review, fails exactly on a taken payment id, and touches no checkout. |
| PaymentReplies.PaymentTtlMinutes | apps/api/src/modules/order-checkout/payment-orchestration.service.ts:278-280 | The configured lifetime, or the nearer end of a minute to a day when it lies outside. |
| PaymentReplies.LinkCommandMeans | apps/api/src/modules/order-checkout/payment-orchestration.service.ts:31-100 | A request for a link succeeds if and only if the rows grant it: a payable online checkout, and either an earlier attempt of it under the key, at its price, with a usable link or still CREATED, or a new key and nothing in the way. A refusal changes nothing and names the first missing condition. |
| PaymentReplies.CreateAnswers | apps/api/src/modules/order-checkout/payment-orchestration.service.ts:229-276 | When a command opens, repeats or is refused an attempt; a refusal is that of the newest attempt in the way, active within its time and blocked otherwise. |
| PaymentReplies.RepeatedCommandReturnsItsLink | apps/api/src/modules/order-checkout/payment-orchestration.service.ts:59-67 | After any run, repeating an accepted command while it has a usable link answers that link, replayed, and changes nothing. |
| PaymentService.ResolvePaymentLink | apps/api/src/modules/order-checkout/payment-orchestration.service.ts:311-327 | A reference resolves if and only if its own link is there, usable and not revoked, under the very expiry the reference was signed with. |
| PaymentService.StartsExactly | apps/api/src/modules/order-checkout/persistence/prisma-order-checkout.repository.ts:380-457 | In every reachable state a start succeeds exactly on an unstarted attempt, read at its current version, whose reference nobody else carries. |
| PaymentService.StartedPaymentIsAccountedFor | apps/api/src/modules/order-checkout/payment-orchestration.service.ts:102-150 | A started payment is bound to its own reference; an untrusted answer leaves UNKNOWN_RESULT, any other PENDING; no other intent changes. |
| PaymentService.ResolvedStartIsDisciplined | apps/api/src/modules/order-checkout/payment-orchestration.service.ts:311-327 | A start right after resolving a link that does not outlive its intent obeys the rule the safety theorem needs. |
| PaymentService.FirstCommandIsDisciplined | apps/api/src/modules/order-checkout/payment-orchestration.service.ts:49-73 | So does the link of a command that opens its attempt. |
| PaymentService.FirstDeliveryIsFresh | apps/api/src/modules/order-checkout/persistence/prisma-order-checkout.repository.ts:694-856 | A first delivery is claimed under its own lease, as the first attempt, and has changed nothing yet. |
| PaymentService.RunKeepsLinksBound | apps/api/src/modules/order-checkout/persistence/prisma-order-checkout.repository.ts:297-337 | Over every run each link belongs to an existing intent. |
| PaymentService.ThrownIsRecorded | apps/api/src/modules/order-checkout/canonical-payment-webhook.service.ts:234-237 | Processing that throws has recorded what it throws, or has lost its lease, records nothing and says so. |
| PaymentService.EffectIsStep | apps/api/src/modules/order-checkout/canonical-payment-webhook.service.ts:159-242 | Each effect of an attempt but the release is one step of the protocol, from the world as it is, or changes nothing. |
| PaymentService.ReleaseIsSteps | apps/api/src/modules/order-checkout/kitchen-eligibility.service.ts:21-50 | A release is two steps of the protocol, the kitchen evaluation of the current tables and then the mark; so it never rests on an approval nobody gave. |
| PaymentService.EffectFollows | apps/api/src/modules/order-checkout/canonical-payment-webhook.service.ts:159-242 | So from every world some run of the protocol leads to what an effect leaves, and the approvals grow only by evaluations made behind an open gate. |
| PaymentService.FollowsKeepsSound | apps/api/src/modules/order-checkout/canonical-payment-webhook.service.ts:159-242 | What some run of the protocol reaches from a sound world is sound: the invariant, links of existing intents, and every release earned. |
| PaymentService.CountedMeans | apps/api/src/modules/order-checkout/canonical-payment-webhook.service.ts:121-157 | How recovery counts a candidate, read off its row before and after: replayed, completed, failed, active or blocked. |
| PaymentService.RecoverOne | apps/api/src/modules/order-checkout/canonical-payment-webhook.service.ts:130-155 | Each candidate is counted exactly once. |
| PaymentService.Payments.CreateOnlinePaymentLink | apps/api/src/modules/order-checkout/payment-orchestration.service.ts:31-100 | It succeeds if and only if the rows grant it, a refusal changes nothing and names the first missing condition, and a reply answers the command with its own intent and a link of it, replayed exactly when no link was added. |
| PaymentService.Payments.StartBoldPayment | apps/api/src/modules/order-checkout/payment-orchestration.service.ts:102-150 | The provider is called exactly when the link resolves and this call begins the payment; then the intent carries its own reference and account, no other intent changes and every answer is accounted for; otherwise nothing changes and the reply is fixed by the link and the status of the attempt. |
| PaymentService.Payments.AskProvider | apps/api/src/modules/order-checkout/payment-orchestration.service.ts:123-150 | An untrusted answer leaves UNKNOWN_RESULT, any other PENDING with the bound payment id and the link opened; a taken payment id or a missing link is refused; no other intent changes. |
| PaymentService.Payments.ProcessClaimedWebhook | apps/api/src/modules/order-checkout/canonical-payment-webhook.service.ts:159-242 | Effect by effect the method leaves the specified tables and outcome by steps of the protocol, so every release was earned; behind a closed gate no approval is added; an error is recorded on the event, and a refused record is thrown in its place. |
| PaymentService.Payments.RecoverPendingBatch | apps/api/src/modules/order-checkout/canonical-payment-webhook.service.ts:121-157 | The loop is the fold of its candidates, and the counts add up to their number. |
| AuthSafety.RunKeepsInv | apps/api/src/modules/auth/auth.service.ts:509-563 | Over every run with a monotone clock each row matches its signature and outlives it, and a token whose signature is good has its row. |
| AuthSafety.RowIsThere | apps/api/src/modules/auth/auth.service.ts:546-554 | So the missing-row branch of rotation is never needed for a good signature. |
| AuthSafety.RotatesAtMostOnce | apps/api/src/modules/auth/auth.service.ts:509-577 | Each refresh token rotates successfully at most once over any run. |
| AuthSafety.SecondUseIsReuse | apps/api/src/modules/auth/auth.service.ts:556-559 | While its signature is good, every further use of a rotated token is detected as reuse. |
| AuthSafety.ReuseIsFinal | apps/api/src/modules/auth/auth.service.ts:546-599 | A detected reuse leaves the user no unrevoked token, and no access token issued before is ever accepted again. |
| AuthSafety.FamilyIsOneUser | apps/api/src/modules/auth/auth.service.ts:586-599 | It leaves the rows and versions of every other user alone. |
| AuthSafety.LogoutEndsAccess | apps/api/src/modules/auth/auth.service.ts:187-213 | A logout ends every access token of the user for good, and the presented refresh token never rotates. |
| AuthSafety.ForcedLogoutEndsAll | apps/api/src/modules/cash-register/cash-register.service.ts:703-753 | A forced logout ends all access and refresh tokens of its users for good. |
| AuthSafety.IssuedTokensWork | apps/api/src/modules/auth/auth.service.ts:248-293 | What a login hands out is accepted, and an unpruned refresh token rotates. |
| AuthSafety.DeactivatedIsLockedOut | apps/api/src/modules/auth/jwt.strategy.ts:61-63 | A deactivated user cannot log in, rotate or use an access token over any run that does not reactivate them. |
| AuthAnswers.RotationMeans | apps/api/src/modules/auth/auth.service.ts:509-577 | When a presented token rotates, is reuse or is invalid, both ways, and what a rotation hands out and revokes. |
| AuthAnswers.LoginMeans | apps/api/src/modules/auth/auth.service.ts:248-293 | A login succeeds exactly for an active user, and what it hands out and revokes. |
| AuthAnswers.NextRevokes | apps/api/src/modules/auth/auth.service.ts:187-343 | A step revokes a token if and only if it rotates it, crowds it out, logs it out, or ends its family. |
| AuthAnswers.NextEnds | apps/api/src/modules/auth/auth.service.ts:187-213 | A step moves a session version on, by one, if and only if it detects reuse, logs the user out or forces them out. |
| AuthAnswers.TokenRotatesExactly | apps/api/src/modules/auth/auth.service.ts:546-576 | After any run, at every later instant before its signature expires, an unrevoked token rotates if and only if no step revoked it and its owner was last set active, and is reuse if and only if some step revoked it. |
| AuthAnswers.LoginTokenRotates | apps/api/src/modules/auth/auth.service.ts:248-293 | So does the token a login hands out. |
| AuthAnswers.RotatedTokenRotates | apps/api/src/modules/auth/auth.service.ts:573-576 | And the token a rotation hands out. |
| AuthAnswers.AccessLastsExactly | apps/api/src/modules/auth/jwt.strategy.ts:61-63 | After any run an access token is still accepted if and only if nothing ended its user's tokens and they were last set active. |
| AuthPruning.PruneKeepsNewest | apps/api/src/modules/auth/auth.service.ts:307-343 | Pruning keeps the newest tokens up to the limit and touches no other user's. |
| AuthPruning.RunBounded | apps/api/src/modules/auth/auth.service.ts:307-343 | In every reachable state no user has more than the maximum of active tokens. |
| AuthPruning.JustIssuedSurvives | apps/api/src/modules/auth/auth.service.ts:307-343 | However the database breaks ties, the token just issued survives exactly when fewer than the maximum of other active tokens are at least as new. |
| AuthPruning.TieMayRevokeJustIssued | apps/api/src/modules/auth/auth.service.ts:318-327 | Two logins in one instant can revoke the token just issued. |
| AuthCleanup.RunAlike | apps/api/src/modules/auth/auth.service.ts:295-305 | A run and the same run without its cleanups stay alike on unexpired rows. |
| AuthCleanup.CleanupIsInvisible | apps/api/src/modules/auth/auth.service.ts:295-305 | Two runs that differ only in their cleanups answer every refresh and every access token alike. |
| AuthService.Sessions.CompleteLogin | apps/api/src/modules/auth/auth.service.ts:375-431 | A login succeeds if and only if the user exists and is active; the tokens it hands out, its row and what pruning revokes are stated in full, and the invariant is kept. |
| AuthService.Sessions.IssueTokens | apps/api/src/modules/auth/auth.service.ts:248-293 | Both tokens are issued for the version of the user, and afterwards nobody has more than the maximum of active tokens. |
| AuthService.Sessions.PruneActiveRefreshTokens | apps/api/src/modules/auth/auth.service.ts:307-343 | Survivors are no older than the revoked, their number is the limit or all there were, and other users keep theirs. |
| AuthService.Sessions.RotateRefreshToken | apps/api/src/modules/auth/auth.service.ts:509-577 | In terms of the rows: a token rotates if and only if its signature is good, its row unrevoked and its owner active; it is reuse if and only if its signature is good and its row revoked; anything else is invalid and changes nothing. What each of them leaves is stated in full. |
| AuthService.Sessions.RevokeTokenFamily | apps/api/src/modules/auth/auth.service.ts:586-599 | No unrevoked token of the user is left, none of their access tokens is accepted, and other users keep rows and versions. |
| AuthService.Sessions.LogOut | apps/api/src/modules/auth/auth.service.ts:187-213 | Both branches of a logout: the presented token is revoked, and no access token of the caller is accepted. |
| AuthService.Sessions.CleanupRefreshTokens | apps/api/src/modules/auth/auth.service.ts:295-305 | Exactly the unexpired rows stay, as they were, and every token presented next gets the answer it would have got. |
| AuthService.Sessions.InvalidateAllWaiterSessions | apps/api/src/modules/cash-register/cash-register.service.ts:703-753 | The loop over the listed users ends all of their families and nobody else's. |
| Bits.AndShifted | apps/api/src/common/security/safe-remote-asset-fetcher.ts:394-399 | A mask with zero low bits clears exactly the low bits. |
| Bits.MaskIs | apps/api/src/common/security/safe-remote-asset-fetcher.ts:397 | The 32-bit shift computes the prefix mask for every prefix from 1 to 32. |
| IpText.SplitJoin | apps/api/src/common/security/safe-remote-asset-fetcher.ts:439-445 | Splitting inverts joining for separator-free parts. |
| IpText.SplitPairsOnce | apps/api/src/common/security/safe-remote-asset-fetcher.ts:439 | Two halves without a double colon are recovered. |
| IpAddress.Ipv4RoundTrip | apps/api/src/common/security/safe-remote-asset-fetcher.ts:401-403 | A printed dotted quad is read as its positional value, in spite of the shifts and 32-bit masks. |
| IpAddress.TailRewrittenIs | apps/api/src/common/security/safe-remote-asset-fetcher.ts:432-437 | Rewriting a dotted tail gives the same address in eight hexadecimal groups. |
| IpAddress.Ipv6RoundTrip | apps/api/src/common/security/safe-remote-asset-fetcher.ts:426-456 | The parser inverts every text form of section 2.2 of RFC 4291: any groups in any letter case and with leading zeros, any elided run, an optional dotted tail. |
| IpAccepted.Ipv6AcceptsExactly | apps/api/src/common/security/safe-remote-asset-fetcher.ts:426-456 | The parser accepts a text with a value if and only if, without brackets and in lower case, it has no zone and is a form of that value, where any text with a dot and no colon may stand for the quad it is read as. |
| IpAddress.HostForms | apps/api/src/common/security/safe-remote-asset-fetcher.ts:296-301 | Brackets and one final dot make no difference. |
| IpRouting.MaskedIsInterval | apps/api/src/common/security/safe-remote-asset-fetcher.ts:394-399 | The masked comparison is membership in the aligned block of 2^(32 - prefix) addresses, for every prefix from 0 to 32. |
| IpRouting.ShiftedIsInterval | apps/api/src/common/security/safe-remote-asset-fetcher.ts:419-424 | The shifted comparison is membership in the aligned block of 2^(128 - prefix) addresses. |
| IpRouting.ExtractedIs | apps/api/src/common/security/safe-remote-asset-fetcher.ts:405-417 | Both ways of finding a mapped address agree: the quad of the low 32 bits, for mapped values only. |
| IpRouting.VerdictIsNumeric | apps/api/src/common/security/safe-remote-asset-fetcher.ts:341-354 | The verdict depends only on the 128-bit value, so all text forms of one value agree. |
| IpRouting.QuadVerdictIsNumeric | apps/api/src/common/security/safe-remote-asset-fetcher.ts:341-345 | For a dotted quad it depends only on the 32-bit value. |
| IpRouting.MappedLikePlain | apps/api/src/common/security/safe-remote-asset-fetcher.ts:346-354 | Every form of a mapped address gets the verdict of its plain IPv4 address. |
| IpForbidden.BlockByGroups | apps/api/src/common/security/safe-remote-asset-fetcher.ts:419-424 | A block of a prefix is its whole groups and the leading bits of the next one, for every prefix from 1 to 128. |
| IpForbidden.QuadVerdict | apps/api/src/common/security/safe-remote-asset-fetcher.ts:341-375 | A dotted quad is routable if and only if its octets lie in none of the private, shared, loopback, link-local, documentation, benchmark, protocol, multicast or reserved blocks, each written out. |
| IpForbidden.AddressVerdict | apps/api/src/common/security/safe-remote-asset-fetcher.ts:346-392 | However it is written, an IPv6 address is routable if and only if its eight groups lie in none of the listed blocks, each written out; a mapped one has the verdict of its quad. |
| IpRouting.SomeRuntimeFits | apps/api/src/common/security/safe-remote-asset-fetcher.ts:341-354 | The hypotheses about the runtime's address families and numerals can be met. |
| CashRecords.RoundError | apps/api/src/modules/cash-register/cash-reconciliation.service.ts:29-31 | Rounding gives whole cents within half a cent and leaves whole cents alone. |
| Strings.SpellsMeans | apps/api/src/modules/cash-register/cash-reconciliation.service.ts:34 | Lower-casing and trimming a text gives a word if and only if the text spells it, in any letter case and with blanks around it. |
| CashVocabulary.VocabularyMeans | apps/api/src/modules/cash-register/cash-reconciliation.service.ts:33-57 | The vocabulary, word by word: a code is counted under a method if and only if it names it; no code or a blank one names cash, and any other word names no listed method. |
| CashReconciliation.Totals.AddAmount | apps/api/src/modules/cash-register/cash-reconciliation.service.ts:59-62 | The bucket ends in whole cents within half a cent of the exact sum, and every other bucket is untouched. |
| CashReconciliation.AddPayments | apps/api/src/modules/cash-register/cash-reconciliation.service.ts:252-275 | A table of totals after a list of payments. |
| CashReconciliation.AddSales | apps/api/src/modules/cash-register/cash-reconciliation.service.ts:252-267 | One pass over the sales fills the sales table and the fee table. |
| CashReconciliation.CalculateManualCash | apps/api/src/modules/cash-register/cash-reconciliation.service.ts:348-389 | The accumulator over the movements. |
| CashReconciliation.BuildFromRecords | apps/api/src/modules/cash-register/cash-reconciliation.service.ts:205-344 | The loops compute the whole summary, whose figures the laws below state by the words of the method codes. |
| CashVocabulary.TablesByName | apps/api/src/modules/cash-register/cash-reconciliation.service.ts:247-275 | Every table of the summary and the manual figures, by those words, each amount rounded on its own. |
| CashVocabulary.SalesAddUp | apps/api/src/modules/cash-register/cash-reconciliation.service.ts:252-267 | Which sales bring which payments, shares and fees: fees are shared for deliveries with a positive fee only. |
| CashVocabulary.SharesAreProportional | apps/api/src/modules/cash-register/cash-reconciliation.service.ts:257-266 | A fee is shared in proportion to the payments of its sale, under the method of each. |
| CashVocabulary.ExpectedCashByName | apps/api/src/modules/cash-register/cash-reconciliation.service.ts:288-290 | For all records the expected cash is the opening amount and what was paid and moved in cash by those words, each amount rounded on its own. |
| CashVocabulary.PaymentInDrawer | apps/api/src/modules/cash-register/cash-reconciliation.service.ts:288-290 | One more payment of a sale adds its amount to the expected cash if its code means cash, and nothing otherwise. |
| CashVocabulary.OutlayFromDrawer | apps/api/src/modules/cash-register/cash-reconciliation.service.ts:288-290 | One more expense or purchase takes its amount from it if its code means cash, and nothing otherwise. |
| CashVocabulary.CountsAndDifference | apps/api/src/modules/cash-register/cash-reconciliation.service.ts:291-297 | The difference is against the counted cash and given exactly when cash was counted; deliveries are counted; the total fee is the sum of all fees. |
| CashLaws.BucketsAreRounded | apps/api/src/modules/cash-register/cash-reconciliation.service.ts:59-62 | For any payments each bucket is the sum of what was paid into it, each amount rounded on its own. |
| CashLaws.BucketsAreExact | apps/api/src/modules/cash-register/cash-reconciliation.service.ts:59-62 | For whole-cent payments each bucket is exactly the sum of what was paid into it. |
| CashLaws.TableDrift | apps/api/src/modules/cash-register/cash-reconciliation.service.ts:59-66 | For any payments the table drifts from the exact sum by at most half a cent per payment. |
| CashLaws.RevenueIsSales | apps/api/src/modules/cash-register/cash-reconciliation.service.ts:279-282 | Cash and digital revenue add up to total sales, for every input. |
| CashLaws.SalesAreConserved | apps/api/src/modules/cash-register/cash-reconciliation.service.ts:252-255 | Whole-cent sales are reported exactly as paid. |
| CashLaws.ExpensesAreConserved | apps/api/src/modules/cash-register/cash-reconciliation.service.ts:283-294 | The outlay and the operational result of whole-cent records are exact. |
| CashLaws.OrderDoesNotMatter | apps/api/src/modules/cash-register/cash-reconciliation.service.ts:252-275 | The order of payments changes no bucket, whatever their amounts. |
| CashOrder.ManualIsUnordered | apps/api/src/modules/cash-register/cash-reconciliation.service.ts:348-389 | The order of movements changes no figure of the manual cash, whatever their amounts. |
| CashOrder.SummaryIsUnordered | apps/api/src/modules/cash-register/cash-reconciliation.service.ts:205-344 | Reordering movements, whole sales, expenses and purchases of any amounts changes no figure of the summary, fees by method included. |
| CashLaws.FeesAreAllocated | apps/api/src/modules/cash-register/cash-reconciliation.service.ts:257-297 | The allocated fees differ from the total fee by at most half a cent per payment, when each delivery is paid in full and nobody else carries a fee. |
| CashLaws.FeeMayVanish | apps/api/src/modules/cash-register/cash-reconciliation.service.ts:257-266 | A one-cent fee over three equal payments is allocated to no bucket. |
| CashLaws.FeesVanishExactly | apps/api/src/modules/cash-register/cash-reconciliation.service.ts:257-266 | No bucket gets anything of any fee if and only if every payment's share of its fee is under half a cent. |
| CashLaws.ExpectedCash | apps/api/src/modules/cash-register/cash-reconciliation.service.ts:277-290 | For all whole-cent records the expected cash is the opening amount, the drawer's signed movements and the gap between records and linked movements. |
| CashLaws.DrawerAgreesExactly | apps/api/src/modules/cash-register/cash-reconciliation.service.ts:277-290 | The two views of the drawer agree if and only if the gap between records and linked movements is zero. |
| CashLaws.DrawerAgrees | apps/api/src/modules/cash-register/cash-reconciliation.service.ts:277-290 | With one linked movement per cash record the two views of the drawer agree to the cent. |
| CashCancellation.CancellationCountsTwice | apps/api/src/modules/sales/sales.service.ts:220-243 | Cancelling a paid sale takes its cash out of the drawer once and out of the expected cash twice. |
| CashCancellation.CancellationKeepsAgreement | apps/api/src/modules/sales/sales.service.ts:220-243 | Two views that agreed before a cancellation agree after it if and only if none of the sale was paid in cash. |
| CashCancellation.CancelledSaleLeavesAGap | apps/api/src/modules/sales/sales.service.ts:220-243 | One cancelled cash sale of 100 leaves the drawer at zero and the expected cash at minus 100. |
| DestinationText.SplitReference | apps/api/src/delivery/destination-state/spatial-change-classifier.ts:97-108 | One pass collects the spatial and the unrecognised segments. |
| DestinationText.NonSpatialMeans | apps/api/src/delivery/destination-state/spatial-change-classifier.ts:131-161 | NON_SPATIAL exactly for equal texts, or equal spatial parts and unrecognised sets with a spatial baseline on both sides. |
| DestinationText.ChangeMeans | apps/api/src/delivery/destination-state/spatial-change-classifier.ts:131-161 | When the other two classes are given: AMBIGUOUS for a missing spatial part or a changed unrecognised one, SPATIAL for changed spatial parts alone. |
| DestinationText.CutAtHyphen | apps/api/src/delivery/destination-state/spatial-change-classifier.ts:85-90 | A hyphen between two blanks separates. |
| DestinationText.CutAtLineBreak | apps/api/src/delivery/destination-state/spatial-change-classifier.ts:85-90 | So does a line break, unless it closes such a hyphen. |
| DestinationText.NothingToCut | apps/api/src/delivery/destination-state/spatial-change-classifier.ts:85-90 | Nothing else does. |
| DestinationText.NonSpatialIsEquivalence | apps/api/src/delivery/destination-state/spatial-change-classifier.ts:131-161 | NON_SPATIAL is reflexive, symmetric and transitive. |
| DestinationText.SegmentsConcat | apps/api/src/delivery/destination-state/spatial-change-classifier.ts:85-90 | Cutting at a comma or semicolon is independent of both sides, hyphen separators included. |
| DestinationText.InsertionIsNonSpatial | apps/api/src/delivery/destination-state/spatial-change-classifier.ts:85-108 | Inserting or dropping instruction text between two parts is NON_SPATIAL exactly when the text has a spatial segment. |
| DestinationText.EndInsertionIsNonSpatial | apps/api/src/delivery/destination-state/spatial-change-classifier.ts:85-108 | So is putting it before the first part or after the last, or dropping it there. |
| DestinationEdits.ResolveAtomicCoordinatePair | apps/api/src/delivery/destination-state/destination-coordinate-pair.ts:104-150 | Both axes or none, from one source, and which lone submitted axis is reported as discarded. |
| DestinationEdits.EditKeepsExactly | apps/api/src/modules/orders/orders.service.ts:4956-4987 | An edit without a new pair keeps the coordinates and their time if the compared text is NON_SPATIAL or nothing is compared, and drops both axes if it is SPATIAL or AMBIGUOUS. |
| DestinationEdits.CaptureReplaces | apps/api/src/modules/orders/orders.service.ts:4978-5003 | A submitted pair replaces both axes and the time, whatever the text says. |
| DestinationEdits.SurvivesExactly | apps/api/src/modules/orders/orders.service.ts:4956-5003 | After any chain of edits there are coordinates if and only if some capture was left in its place by every later edit. |
| DestinationEdits.OneCapture | apps/api/src/modules/orders/orders.service.ts:4978-5003 | Over any chain of edits the coordinates are absent, or both axes and the time come from the one latest capture event. |
| DestinationEdits.TextAtCaptureStillHolds | apps/api/src/modules/orders/orders.service.ts:4956-4987 | While every edit since the capture says in words where the destination is, the text at capture is NON_SPATIAL to the current text. |
| DestinationEdits.PlaceIsKeptExactlyWhenWritten | apps/api/src/modules/orders/orders.service.ts:4956-4987 | Every written edit that carries the coordinates on keeps the place they were captured at if and only if the stored text is not blank. |
| DestinationEdits.BlankForgetsTheText | apps/api/src/modules/orders/orders.service.ts:4956-4976 | A blank reference in between breaks that: coordinates survive a SPATIAL change. |
| StockLedger.ChainSums | apps/api/src/modules/inventory/inventory.service.ts:195-213 | Chained balances sum to the net change. |
| StockLedger.PostKeeps | apps/api/src/modules/inventory/inventory.service.ts:195-213 | Posting a movement with the balance that follows keeps the ledger explained. |
| StockLedger.AdjustKeeps | apps/api/src/modules/inventory/inventory.service.ts:181-265 | A successful adjustment keeps the ledger consistent, nonnegative included. |
| StockLedger.CountKeeps | apps/api/src/modules/inventory/inventory.service.ts:302-386 | A physical count with nonnegative figures keeps the ledger consistent. |
| StockLedger.CountSets | apps/api/src/modules/inventory/inventory.service.ts:302-386 | A count leaves each item at the last figure counted for it and every other item alone. |
| StockLedger.LastFigure | apps/api/src/modules/inventory/inventory.service.ts:302-386 | Which figure that is, item by item. |
| StockLedger.CountMeans | apps/api/src/modules/inventory/inventory.service.ts:285-386 | A count fails exactly for no lines or an unknown item; a figure that confirms the stock leaves no movement. |
| StockLedger.Inventory.CreateAdjustment | apps/api/src/modules/inventory/inventory.service.ts:181-265 | It succeeds exactly for one known target whose stock stays nonnegative, then posts that one movement; the ledger stays consistent in place. |
| StockLedger.Inventory.CreateStockCount | apps/api/src/modules/inventory/inventory.service.ts:285-386 | It succeeds exactly for at least one line of known items only, all lines in order, or changes nothing; each counted item ends at its last figure, and nonnegative figures keep the ledger consistent. |
| PurchaseLines.MoveStaysSeparate | apps/api/src/modules/purchases/purchases.service.ts:109-206 | A move of one line disturbs no other line of another item. |
| PurchaseLines.DistinctPurchaseKeeps | apps/api/src/modules/purchases/purchases.service.ts:109-206 | With distinct items every interleaving of the lines keeps the ledger consistent and adds every quantity. |
| PurchaseLines.RepeatedItemLosesUpdate | apps/api/src/modules/purchases/purchases.service.ts:109-206 | An item on two lines has an interleaving that loses a quantity. |
| PurchaseLines.SafeExactlyWhenDistinct | apps/api/src/modules/purchases/purchases.service.ts:109-206 | A purchase is safe under every interleaving if and only if its items are distinct. |
| PurchaseLines.ReceiveMeans | apps/api/src/modules/purchases/purchases.service.ts:109-215 | A purchase fails exactly for an unknown item; a committed one with distinct items adds every quantity and is paid with its subtotal. |
| PurchaseLines.PerformChanges | apps/api/src/modules/inventory/inventory.service.ts:181-386 | What each operation makes of each item's stock, and when it makes nothing of it. |
| PurchaseLines.SubtotalAddsUp | apps/api/src/modules/purchases/purchases.service.ts:212-215 | One line costs its quantity at its unit cost, and costs add up. |
| PurchaseLines.ComputeSubtotal | apps/api/src/modules/purchases/purchases.service.ts:212-215 | The reduction computes the subtotal. |
| PurchaseLines.SubtotalIsUnordered | apps/api/src/modules/purchases/purchases.service.ts:212-215 | The subtotal does not depend on the order of the lines. |
| PurchaseLines.RunIsConsistent | apps/api/src/modules/inventory/inventory.service.ts:181-386 | Over any run of adjustments, counts and purchases stocks stay nonnegative, balances chain, and quantities sum to the net change. |
| MigrationIdentity.NameIsPosition | apps/api/src/modules/health/migration-identity.ts:98-102 | With unique names looking a checksum up by name is looking at its position. |
| MigrationIdentity.CompatibleMeans | apps/api/src/modules/health/migration-identity.ts:71-160 | Compatible exactly when the history is the expected one by position plus at most one authorized bridge, and every checksum is equal or the accepted drift. |
| MigrationIdentity.OneDriftAtMost | apps/api/src/modules/health/migration-identity.ts:183-187 | At most one checksum differs, that of 0001_initial. |
| MigrationIdentity.VerdictMeans | apps/api/src/modules/health/migration-identity.ts:106-160 | Which compatible verdict is given, with its counts and evidence. |
| MigrationIdentity.IncompatibleMeans | apps/api/src/modules/health/migration-identity.ts:71-160 | An incompatible state is blamed on its content if and only if its history is the expected one, and the verdict carries nothing else but the number of applied rows. |
| MigrationIdentity.EvidenceMeans | apps/api/src/modules/health/migration-identity.ts:106-160 | How many checksums a compatible verdict reports as attested, the commit it names, and the authorization of a step beyond. |
| MigrationIdentity.AcceptedByName | apps/api/src/modules/health/migration-identity.ts:29-69 | The one accepted drift and the two accepted steps beyond the expected history, by name and checksum. |
| MigrationIdentity.BridgeFound | apps/api/src/modules/health/migration-identity.ts:162-177 | A bridge is found exactly when an authorized one starts at this inventory and leads to the single additional row. |
| AuditSanitizer.BuildNode | apps/api/src/modules/audit/audit.service.ts:154-174 | The recursive method that fills its output computes the sanitized value. |
| AuditSanitizer.SanitizedIsClean | apps/api/src/modules/audit/audit.service.ts:154-174 | Every output is clean: bounded depth, breadth and text, blocked keys redacted, phone keys masked. |
| AuditSanitizer.CleanIsFixpoint | apps/api/src/modules/audit/audit.service.ts:154-174 | Sanitizing leaves a value alone exactly when it is clean. |
| AuditSanitizer.MaskFixpoint | apps/api/src/modules/audit/audit.service.ts:176-179 | Masking leaves a text alone exactly when it is a mask already. |
| AuditSanitizer.SanitizeTwice | apps/api/src/modules/audit/audit.service.ts:154-174 | Sanitizing twice is sanitizing once, for every JSON tree, depth and key. |
| AuditSanitizer.ReadingChangesNothing | apps/api/src/modules/audit/audit.service.ts:132-152 | What was stored is read back unchanged and never refused for its size. |
| AuditSanitizer.SamePlace | apps/api/src/modules/audit/audit.service.ts:154-174 | Whatever stands at a place of the output is the sanitized value at the same place of the input. |
| AuditSanitizer.BlockedIsRedacted | apps/api/src/modules/audit/audit.service.ts:154-158 | Under a blocked key the output is null for null and the redaction marker otherwise, up to five steps deep; beyond, it is the truncation marker. |
| AuditSanitizer.DeepBlockedIsTruncated | apps/api/src/modules/audit/audit.service.ts:154-158 | Six objects deep, any value under a blocked key, null included, becomes the truncation marker. |
| AuditSanitizer.DepthIsBounded | apps/api/src/modules/audit/audit.service.ts:155 | No path of the output is longer than six steps. |
| AuditSanitizer.PlainKeeps | apps/api/src/modules/audit/audit.service.ts:160-173 | Under a plain key a text keeps its first 512 characters, lists and objects their first 50 members, in place. |
| AuditSanitizer.MaskShows | apps/api/src/modules/audit/audit.service.ts:176-179 | A mask shows the last four digits, or all there are, and nothing when there are none. |
| AuditSanitizer.StoredExactly | apps/api/src/modules/audit/audit.service.ts:143-152 | Nothing is stored for null; anything else is refused if and only if its sanitized form exceeds 16384 bytes. |
| AuditSanitizer.BlockedKeysStayBlocked | apps/api/src/modules/audit/audit.service.ts:19 | A key that mentions a blocked word stays blocked whatever is added around it. |
| AuditSanitizer.WordsAreListed | apps/api/src/modules/audit/audit.service.ts:19-20 | Each word of the two vocabularies is blocked or masked, in any letter case. |
| ProviderQuota.UsageTable.Upsert | apps/api/src/delivery/providers/delivery-provider-usage.service.ts:89-113 | Creating and updating a row are the same increment, and requests stay successes plus errors. |
| ProviderQuota.UsageTable.Success | apps/api/src/delivery/providers/delivery-provider-usage.service.ts:53-61 | A success counts one request. |
| ProviderQuota.UsageTable.Error | apps/api/src/delivery/providers/delivery-provider-usage.service.ts:63-87 | An error counts one request and opens the circuit at the threshold. |
| ProviderQuota.UsageTable.Before | apps/api/src/delivery/providers/delivery-provider-usage.service.ts:14-51 | A call is allowed if and only if the day's circuit is not open and, under a limit, one request more stays within the hard percentage of it. |
| ProviderQuota.BeforeCallMeans | apps/api/src/delivery/providers/delivery-provider-usage.service.ts:26-50 | The same of the decision, with the exact condition of every warning. |
| ProviderQuota.RecordsCount | apps/api/src/delivery/providers/delivery-provider-usage.service.ts:53-87 | A recorded call counts on its own day only; an error opens the circuit exactly from the threshold on, for the cooldown. |
| QuotaSafety.RequestsAreOutcomes | apps/api/src/delivery/providers/delivery-provider-usage.service.ts:53-113 | Every day's requests are its successes and errors, over any run. |
| QuotaSafety.CountIsBounded | apps/api/src/delivery/providers/delivery-provider-usage.service.ts:42-50 | With at most k calls in flight no day's count exceeds the hard limit by k or more, over any run and across midnight, but for calls admitted because their own check failed. |
| QuotaSafety.FailedCheckBreaksTheLimit | apps/api/src/delivery/providers/delivery-external-data.service.ts:494-505 | With room for one call and one call at a time, a failed check lets a second one be counted. |
| QuotaSafety.PlainBoundExactly | apps/api/src/delivery/providers/delivery-external-data.service.ts:494-505 | The plain bound holds for every run and day with a given number of calls admitted by failed checks if and only if that number is zero; for a limit below one, if and only if it stays within the bound. |
| QuotaSafety.BoundIsReached | apps/api/src/delivery/providers/delivery-external-data.service.ts:424-449 | The bound is tight for every limit, every k and every number of failed checks: a run reaches it. |
| QuotaSafety.CircuitHolds | apps/api/src/delivery/providers/delivery-provider-usage.service.ts:26-28 | Once an error reaches the threshold no check of that day admits a call until the cooldown is over, whatever runs in between. |
| DeliveryFee.FeeIsClampedSum | apps/api/src/delivery/delivery-pricing/delivery-pricing.engine.ts:230-261 | A covered fee is a multiple of 500 between 5000 and 15000 and equals the clamped sum of its breakdown: the final rounding changes nothing. |
| DeliveryFee.FeeByTariff | apps/api/src/delivery/delivery-pricing/delivery-pricing.engine.ts:219-261 | The tariff in plain figures: 5000, 500 for each half kilometre begun beyond 1.5 km and each five minutes begun beyond 15, the surcharges and the benefit, between 5000 and 15000, up to 8 km and 45 minutes. |
| DeliveryFee.BlocksExist | apps/api/src/delivery/delivery-pricing/delivery-pricing.engine.ts:230-234 | Every distance and duration has such numbers of blocks. |
| DeliveryFee.RoundsUp | apps/api/src/delivery/delivery-pricing/delivery-pricing.engine.ts:460-462 | Rounding takes the least multiple of 500 that is not below the value. |
| DeliveryFee.SurchargesMonotone | apps/api/src/delivery/delivery-pricing/delivery-pricing.config.ts:15-27 | The surcharges rise exactly with the intensity of the rain and the burden of the hour; unknown rain counts as none. |
| DeliveryFee.ZonesMonotone | apps/api/src/delivery/delivery-pricing/delivery-pricing.engine.ts:436-443 | Zones never get cheaper with distance or duration. |
| DeliveryFee.FeeIsMonotone | apps/api/src/delivery/delivery-pricing/delivery-pricing.engine.ts:230-261 | The fee is monotone in distance, duration, rain and schedule and antitone in the subtotal, across zone boundaries. |

## Left out

- Cryptography: signatures, hashes and token strings are abstract and collision-free; a refresh token's signature expires no later than its row.
- Transactions are atomic and serial, as their row locks intend; the anomalies of weaker isolation between statements are not modelled.
- Provider calls, queries, logging, audit rows, gates other than the kitchen gate, and HTTP errors' texts appear only as outcomes or parameters.
- WebhookResume.InterruptionIsInvisible: the kitchen gate is the same in every attempt, and no earlier worker is still running when an event is claimed again; a gate that changes in between, and two overlapping workers of one event, are covered only by the interleavings of `CheckoutProtocol`.
- Heartbeats and worker scheduling: a lease renewal is a step any owner may take; within one attempt the clock stands still.
- Events whose signature is invalid are stored by the source and never claimed; the model does not store them.
- Money of intents is whole cents and currencies are strings, compared for equality as the source compares numbers.
- Transition keys are a datatype, so two different textual keys of the source that happen to be equal are not modelled.
- PurchaseLines.Receive: models each line as scheduled reads and writes on values instead of an object, because the lines of one purchase run concurrently; the cost price and the cash movement of a purchase are left out.
- CheckoutRepository.FindIntentByProvider: takes the first row with a payment id, which the source's unique column makes the only one.
- AuthTables.Refresh: omits the branch for a conditional update that hits no row, which the row lock rules out; revocation times are reduced to a flag.
- IpAddress.Ipv6ToBigInt: numerals of a dotted tail are read by a runtime function that is constrained only for decimal octets; other numerals never reach it because the address family is checked first.
- IpRouting.IsGloballyRoutable: the address family is a runtime function; the extracted quad is looked up directly as IPv4 instead of by a recursive call. The forbidden networks are given in parsed form.
- Fetching with its redirect loop, DNS and content checks of the same file would add only easy members.
- CashRecords.RoundMoney: works on exact reals and drops the floating-point epsilon.
- CashRecords.NormalizeMethodBucket: trims every white space of the runtime, but lower-cases ASCII letters only.
- Digital buckets of expenses and purchases, labels and formulas of the summary are reported by the source and not repeated here.
- DestinationText.Cut: the vocabularies that recognise a segment are an abstract function, and reasons given with a verdict are left out.
- DestinationEdits.Apply: normalization is an abstract function that is stable when applied to its own result; pricing and the zone guard that follow are left out.
- AuditSanitizer.SanitizeNode: inputs are JSON trees; values JSON cannot hold (undefined, functions, dates, big integers), integer-like key order and special object keys are left out, keys are lower-cased as ASCII, and text rendering and the encoded size are abstract.
- MigrationIdentity.EvaluateMigrationIdentity: the inventory fingerprint is an abstract function; attestations hold the eight compared fields.
- ProviderQuota.BeforeCall: limits and thresholds are constant during a run; warnings collected from several providers are left out.
- CashCancellation.CancellationCountsTwice: covers the cash side of converting a sale; the order ticket and the stock that it gives back are left out.
- DeliveryFee.SuggestedFee: covers the tariff arithmetic; the branches of a quote before it, its warnings and the local free zone are left out, and distances and durations are exact reals.
- Direct stock corrections in product and ingredient updates bypass the ledger on purpose and are outside its runs.
- The notification outbox, complaints, reports, user interfaces and documents.
