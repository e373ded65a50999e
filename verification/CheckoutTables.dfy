/**
 * The rows behind one deployment's checkouts. A table is a sequence, a row id is its index, and
 * rows are never deleted; money is an integer number of cents and time an integer instant.
 */
module CheckoutTables {
  import opened Wrappers
  import opened PaymentLifecycle

  datatype CheckoutStatus =
    | Confirmed
    | PaymentSelectionRequired
    | PaymentPending
    | PaymentVerified
    | KitchenEligible
    | OrderCreated
    | CheckoutCancelled
    | CheckoutExpired
    | CheckoutUnderReview

  datatype Fulfillment = DineIn | Takeaway | Delivery | Counter

  datatype Preference = UnknownPreference | Online | CashOnDelivery | PayAtPickup

  datatype CheckoutError =
    | CheckoutNotFound
    | CombinationInvalid
    | CheckoutNotPayable
    | CheckoutHasExpired
    | PaymentAttemptActive
    | PaymentRelinkBlocked
    | PaymentIntentConflict
    | PaymentResultUnknown
    | FinancialReviewPending
    | PaymentLinkNotFound
    | WebhookClaimLost
    | WebhookEvidenceInvalid
    | AttemptsExhausted
    | KitchenNotEligible

  datatype Checkout = Checkout(
    status: CheckoutStatus,
    version: nat,
    expiresAt: Option<int>,
    total: int,
    currency: string,
    fulfillment: Fulfillment,
    preference: Preference)

  /** The idempotency keys of transition rows, unique within one intent. */
  datatype TransitionKey =
    | CreationKey(command: string)
    | LinkReadyKey
    | ProviderRequestedKey
    | UnknownResultKey
    | WebhookEventKey(eventId: string)
    | WebhookHashKey(payloadHash: string)

  datatype PaymentTransition = PaymentTransition(
    from: Option<PaymentIntentStatus>,
    to: PaymentIntentStatus,
    key: TransitionKey,
    event: Option<nat>)

  /** The reference sent to the provider: the one made from an intent's own id, or anything else. */
  datatype ProviderReference = CheckoutReference(intentId: nat) | ForeignReference(text: string)

  datatype PaymentIntent = PaymentIntent(
    checkoutId: nat,
    attemptNumber: nat,
    idempotencyKey: string,
    amount: int,
    currency: string,
    status: PaymentIntentStatus,
    providerReference: Option<ProviderReference>,
    providerPaymentId: Option<string>,
    accountHash: Option<string>,
    expiresAt: Option<int>,
    version: nat,
    transitions: seq<PaymentTransition>)

  datatype LinkStatus = Active | Opened | Revoked | LinkExpired

  datatype PaymentLink = PaymentLink(intentId: nat, expiresAt: int, revoked: bool, status: LinkStatus)

  datatype ProviderVerdict = Approved | Declined | Review | InProgress

  /** What a signed provider event says; fixed when the event row is created. */
  datatype Evidence = Evidence(
    eventId: Option<string>,
    payloadHash: string,
    verdict: ProviderVerdict,
    amount: Option<int>,
    currency: Option<string>,
    accountHash: Option<string>,
    providerPaymentId: Option<string>,
    providerReference: Option<ProviderReference>)

  /** The last is a status only rows of an earlier version of the service carry. */
  datatype Checkpoint =
    | Processing
    | Validated
    | TransitionApplied
    | DownstreamApplied
    | ProcessingFailed
    | Processed
    | LegacyUnknown

  datatype WebhookOutcome =
    | Accepted
    | DuplicateReplay
    | ReferenceUnknown
    | AmountMismatch
    | CurrencyMismatch
    | AccountMismatch
    | ReviewRequired

  datatype WebhookResult = WebhookResult(
    outcome: WebhookOutcome,
    intentId: Option<nat>,
    paymentStatus: Option<PaymentIntentStatus>)

  datatype WebhookEvent = WebhookEvent(
    evidence: Evidence,
    intentId: Option<nat>,
    checkpoint: Checkpoint,
    attempts: nat,
    leaseOwner: Option<string>,
    leaseUntil: Option<int>,
    retryAt: Option<int>,
    retryable: bool,
    closed: bool,
    result: Option<WebhookResult>,
    lastError: Option<CheckoutError>)

  datatype Tables = Tables(
    checkouts: seq<Checkout>,
    intents: seq<PaymentIntent>,
    links: seq<PaymentLink>,
    events: seq<WebhookEvent>)

  /** A transaction either commits new tables with a value, or leaves the tables alone. */
  datatype Outcome<+T> = Commit(tables: Tables, value: T) | Abort(error: CheckoutError)

  /** The intents of one checkout, latest attempt first. */
  function AttemptsNewestFirst(intents: seq<PaymentIntent>, checkoutId: nat): seq<PaymentIntent> {
    if |intents| == 0 then []
    else
      var last := intents[|intents| - 1];
      var earlier := AttemptsNewestFirst(intents[..|intents| - 1], checkoutId);
      if last.checkoutId == checkoutId then [last] + earlier else earlier
  }

  lemma {:induction false} AttemptsAreTheIntents(intents: seq<PaymentIntent>, checkoutId: nat)
    ensures forall x :: x in AttemptsNewestFirst(intents, checkoutId) <==> x in intents && x.checkoutId == checkoutId
  {
    if |intents| > 0 {
      var n := |intents| - 1;
      AttemptsAreTheIntents(intents[..n], checkoutId);
      assert intents == intents[..n] + [intents[n]];
    }
  }

  function FindByKey(intents: seq<PaymentIntent>, key: string): (r: Option<nat>)
    ensures r.Some? ==> r.value < |intents| && intents[r.value].idempotencyKey == key
    ensures r.None? ==> forall i :: 0 <= i < |intents| ==> intents[i].idempotencyKey != key
  {
    if |intents| == 0 then None
    else if intents[|intents| - 1].idempotencyKey == key then Some(|intents| - 1)
    else FindByKey(intents[..|intents| - 1], key)
  }

  predicate LinkUsable(link: PaymentLink, now: int) {
    link.status in {Active, Opened} && link.expiresAt > now
  }

  /** The newest active, unexpired link of an intent. */
  function FindActiveLink(links: seq<PaymentLink>, intentId: nat, now: int): (r: Option<nat>)
    ensures r.Some? ==> r.value < |links| && links[r.value].intentId == intentId && LinkUsable(links[r.value], now)
    ensures r.Some? ==> forall k :: r.value < k < |links| && links[k].intentId == intentId ==> !LinkUsable(links[k], now)
    ensures r.None? ==> forall k :: 0 <= k < |links| && links[k].intentId == intentId ==> !LinkUsable(links[k], now)
  {
    if |links| == 0 then None
    else
      var last := links[|links| - 1];
      if last.intentId == intentId && LinkUsable(last, now) then Some(|links| - 1)
      else FindActiveLink(links[..|links| - 1], intentId, now)
  }

  predicate SameEventIdentity(a: Evidence, b: Evidence) {
    if b.eventId.Some? then a.eventId == b.eventId
    else a.eventId.None? && a.payloadHash == b.payloadHash
  }

  /** The earliest event row with the identity of the given evidence. */
  function FindEvent(events: seq<WebhookEvent>, evidence: Evidence): (r: Option<nat>)
    ensures r.Some? ==> r.value < |events| && SameEventIdentity(events[r.value].evidence, evidence)
    ensures r.None? ==> forall w :: 0 <= w < |events| ==> !SameEventIdentity(events[w].evidence, evidence)
  {
    if |events| == 0 then None
    else
      var earlier := FindEvent(events[..|events| - 1], evidence);
      if earlier.Some? then earlier
      else if SameEventIdentity(events[|events| - 1].evidence, evidence) then Some(|events| - 1)
      else None
  }

  function EventKey(evidence: Evidence): TransitionKey {
    if evidence.eventId.Some? then WebhookEventKey(evidence.eventId.value)
    else WebhookHashKey(evidence.payloadHash)
  }

  function CountSucceeded(attempts: seq<PaymentIntent>): nat {
    if |attempts| == 0 then 0
    else (if attempts[0].status == Succeeded then 1 else 0) + CountSucceeded(attempts[1..])
  }

  function SuccessfulPaymentCount(db: Tables, checkoutId: nat): nat {
    CountSucceeded(AttemptsNewestFirst(db.intents, checkoutId))
  }

  predicate HasKey(intent: PaymentIntent, key: TransitionKey) {
    exists k | 0 <= k < |intent.transitions| :: intent.transitions[k].key == key
  }

  /** Whether some transition row points at the event. */
  predicate EventApplied(db: Tables, eventRow: nat) {
    exists i | 0 <= i < |db.intents| ::
      exists k | 0 <= k < |db.intents[i].transitions| ::
        db.intents[i].transitions[k].event == Some(eventRow)
  }
}
