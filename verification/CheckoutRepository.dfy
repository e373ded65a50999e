/** The transactions of the checkout repository, each one atomic on the tables. */
module CheckoutRepository {
  import opened Wrappers
  import opened PaymentLifecycle
  import opened CheckoutTables
  import opened CheckoutPolicy

  const MAX_PROCESSING_ATTEMPTS: nat := 5

  function PutIntent(db: Tables, i: nat, intent: PaymentIntent): Tables
    requires i < |db.intents|
  {
    db.(intents := db.intents[i := intent])
  }

  function PutCheckout(db: Tables, c: nat, checkout: Checkout): Tables
    requires c < |db.checkouts|
  {
    db.(checkouts := db.checkouts[c := checkout])
  }

  function PutEvent(db: Tables, w: nat, event: WebhookEvent): Tables
    requires w < |db.events|
  {
    db.(events := db.events[w := event])
  }

  function CreatePaymentIntent(db: Tables, now: int, checkoutId: nat, key: string, expiresAt: int): Outcome<nat> {
    if checkoutId >= |db.checkouts| then Abort(CheckoutNotFound)
    else
      var checkout := db.checkouts[checkoutId];
      var attempts := AttemptsNewestFirst(db.intents, checkoutId);
      var verdict := RelinkVerdict(checkout, attempts, key, now);
      if verdict.Some? then Abort(verdict.value)
      else
        match FindByKey(db.intents, key)
        case Some(i) =>
          var existing := db.intents[i];
          if existing.checkoutId != checkoutId || existing.amount != checkout.total || existing.currency != checkout.currency
          then Abort(PaymentIntentConflict)
          else Commit(db, i)
        case None =>
          var intent := PaymentIntent(
            checkoutId, |attempts| + 1, key, checkout.total, checkout.currency, Created, None, None, None,
            Some(expiresAt), 1, [PaymentTransition(None, Created, CreationKey(key), None)]);
          var charged := checkout.(status := PaymentPending, version := checkout.version + 1);
          Commit(PutCheckout(db.(intents := db.intents + [intent]), checkoutId, charged), |db.intents|)
  }

  /** An intent after one more recorded status change. */
  function Advance(intent: PaymentIntent, to: PaymentIntentStatus, key: TransitionKey, event: Option<nat>): PaymentIntent {
    intent.(status := to, version := intent.version + 1,
            transitions := intent.transitions + [PaymentTransition(Some(intent.status), to, key, event)])
  }

  /** The link and whether this call created it. */
  function CreatePaymentLink(db: Tables, now: int, intentId: nat, expiresAt: int): Outcome<(nat, bool)> {
    if intentId >= |db.intents| then Abort(CheckoutNotFound)
    else
      var intent := db.intents[intentId];
      match FindActiveLink(db.links, intentId, now)
      case Some(k) => Commit(db, (k, false))
      case None =>
        if !CanTransition(intent.status, LinkReady) then Abort(PaymentIntentConflict)
        else
          var ready := Advance(intent, LinkReady, LinkReadyKey, None);
          Commit(PutIntent(db, intentId, ready).(links := db.links + [PaymentLink(intentId, expiresAt, false, Active)]),
                 (|db.links|, true))
  }

  function MarkPaymentLinkOpened(db: Tables, linkId: nat): Outcome<()> {
    if linkId >= |db.links| then Abort(PaymentLinkNotFound)
    else Commit(db.(links := db.links[linkId := db.links[linkId].(status := Opened)]), ())
  }

  predicate ReferenceTaken(db: Tables, intentId: nat, reference: ProviderReference) {
    exists j | 0 <= j < |db.intents| :: j != intentId && db.intents[j].providerReference == Some(reference)
  }

  predicate PaymentIdTaken(db: Tables, intentId: nat, paymentId: string) {
    exists j | 0 <= j < |db.intents| :: j != intentId && db.intents[j].providerPaymentId == Some(paymentId)
  }

  /** Binds the provider reference and account before the provider is called; true when this call did it. */
  function BeginProviderPayment(db: Tables, intentId: nat, expectedVersion: nat, accountHash: Option<string>): Outcome<bool> {
    if intentId >= |db.intents| then Abort(CheckoutNotFound)
    else
      var intent := db.intents[intentId];
      var reference := CheckoutReference(intentId);
      if HasKey(intent, ProviderRequestedKey) then
        if intent.providerReference != Some(reference) || intent.accountHash != accountHash then Abort(PaymentIntentConflict)
        else Commit(db, false)
      else if intent.version != expectedVersion then Abort(PaymentIntentConflict)
      else if intent.providerReference.Some? && intent.providerReference != Some(reference) then Abort(PaymentIntentConflict)
      else if intent.accountHash.Some? && intent.accountHash != accountHash then Abort(PaymentIntentConflict)
      else if ReferenceTaken(db, intentId, reference) then Abort(PaymentIntentConflict)
      else if !CanTransition(intent.status, Pending) then Abort(PaymentIntentConflict)
      else
        var begun := Advance(intent, Pending, ProviderRequestedKey, None)
                     .(providerReference := Some(reference), accountHash := accountHash);
        Commit(PutIntent(db, intentId, begun), true)
  }

  function BindProviderPaymentResult(db: Tables, intentId: nat, paymentId: string): Outcome<()> {
    if intentId >= |db.intents| then Abort(CheckoutNotFound)
    else
      var intent := db.intents[intentId];
      if intent.providerReference != Some(CheckoutReference(intentId)) then Abort(PaymentIntentConflict)
      else if intent.providerPaymentId.Some? && intent.providerPaymentId != Some(paymentId) then Abort(PaymentIntentConflict)
      else if intent.providerPaymentId == Some(paymentId) then Commit(db, ())
      else if PaymentIdTaken(db, intentId, paymentId) then Abort(PaymentIntentConflict)
      else Commit(PutIntent(db, intentId, intent.(providerPaymentId := Some(paymentId), version := intent.version + 1)), ())
  }

  /** True when this call moved the intent to UNKNOWN_RESULT. */
  function MarkProviderPaymentUnknown(db: Tables, intentId: nat): Outcome<bool> {
    if intentId >= |db.intents| then Abort(CheckoutNotFound)
    else
      var intent := db.intents[intentId];
      if intent.providerReference != Some(CheckoutReference(intentId)) then Abort(PaymentIntentConflict)
      else if HasKey(intent, UnknownResultKey) || intent.status != Pending then Commit(db, false)
      else Commit(PutIntent(db, intentId, Advance(intent, UnknownResult, UnknownResultKey, None)), true)
  }

  predicate LeaseHeld(event: WebhookEvent, owner: string, now: int) {
    event.leaseOwner == Some(owner) && event.leaseUntil.Some? && event.leaseUntil.value > now
  }

  predicate Open(checkpoint: Checkpoint) {
    checkpoint in {Processing, Validated, TransitionApplied, DownstreamApplied}
  }

  predicate ClaimOwned(db: Tables, w: nat, owner: string, now: int) {
    w < |db.events| && Open(db.events[w].checkpoint) && LeaseHeld(db.events[w], owner, now)
  }

  /** The intent after the event's status change: ids the event carries fill in or replace its own. */
  function ApplyEvent(intent: PaymentIntent, evidence: Evidence, w: nat, to: PaymentIntentStatus): PaymentIntent {
    Advance(intent, to, EventKey(evidence), Some(w)).(
      providerPaymentId := if evidence.providerPaymentId.Some? then evidence.providerPaymentId else intent.providerPaymentId,
      providerReference := if evidence.providerReference.Some? then evidence.providerReference else intent.providerReference)
  }

  /** Applies the event's status change to its intent once, under the event's own lease. */
  function TransitionPayment(db: Tables, now: int, w: nat, owner: string, intentId: nat,
                             expectedVersion: nat, to: PaymentIntentStatus): Outcome<PaymentIntentStatus>
  {
    if !ClaimOwned(db, w, owner, now) then Abort(WebhookClaimLost)
    else if intentId >= |db.intents| then Abort(CheckoutNotFound)
    else
      var intent := db.intents[intentId];
      var evidence := db.events[w].evidence;
      if HasKey(intent, EventKey(evidence)) then Commit(db, intent.status)
      else if intent.version != expectedVersion then Abort(PaymentIntentConflict)
      else if !CanTransition(intent.status, to) then Abort(PaymentIntentConflict)
      else if evidence.providerPaymentId.Some? && PaymentIdTaken(db, intentId, evidence.providerPaymentId.value) then
        Abort(PaymentIntentConflict)
      else Commit(PutIntent(db, intentId, ApplyEvent(intent, evidence, w, to)), to)
  }

  /** A checkout after a successful payment; it never moves backwards. */
  function VerifiedCheckout(checkout: Checkout): Result<Checkout, CheckoutError> {
    if checkout.status in {PaymentVerified, KitchenEligible, OrderCreated} then Success(checkout)
    else if checkout.status == PaymentPending then
      Success(checkout.(status := PaymentVerified, version := checkout.version + 1))
    else Failure(PaymentIntentConflict)
  }

  function EligibleCheckout(checkout: Checkout): Result<Checkout, CheckoutError> {
    if checkout.status in {KitchenEligible, OrderCreated} then Success(checkout)
    else if checkout.status in {Confirmed, PaymentPending, PaymentVerified} then
      Success(checkout.(status := KitchenEligible, version := checkout.version + 1))
    else Failure(KitchenNotEligible)
  }

  function MarkCheckoutPaymentVerified(db: Tables, c: nat): Outcome<()> {
    if c >= |db.checkouts| then Abort(CheckoutNotFound)
    else
      match VerifiedCheckout(db.checkouts[c])
      case Success(checkout) => Commit(PutCheckout(db, c, checkout), ())
      case Failure(error) => Abort(error)
  }

  function MarkKitchenEligible(db: Tables, c: nat): Outcome<()> {
    if c >= |db.checkouts| then Abort(CheckoutNotFound)
    else
      match EligibleCheckout(db.checkouts[c])
      case Success(checkout) => Commit(PutCheckout(db, c, checkout), ())
      case Failure(error) => Abort(error)
  }

  function MarkFinancialReview(db: Tables, c: nat): Outcome<()> {
    if c >= |db.checkouts| then Abort(CheckoutNotFound)
    else if db.checkouts[c].status == CheckoutUnderReview then Commit(db, ())
    else
      var checkout := db.checkouts[c];
      Commit(PutCheckout(db, c, checkout.(status := CheckoutUnderReview, version := checkout.version + 1)), ())
  }

  /** The reads behind the kitchen decision: the latest attempt and the number of successes. */
  function EvaluateKitchen(db: Tables, c: nat): Result<bool, CheckoutError> {
    if c >= |db.checkouts| then Failure(CheckoutNotFound)
    else
      var attempts := AttemptsNewestFirst(db.intents, c);
      var latest := if |attempts| > 0 then Some(attempts[0].status) else None;
      match KitchenDecision(db.checkouts[c].fulfillment, db.checkouts[c].preference, CountSucceeded(attempts), latest)
      case Failure(error) => Failure(error)
      case Success(eligible) => Success(eligible && latest != Some(UnknownResult))
  }

  /** A kitchen-eligible checkout becomes an order. */
  function AttachOrder(db: Tables, c: nat): Outcome<()> {
    if c >= |db.checkouts| then Abort(CheckoutNotFound)
    else if db.checkouts[c].status != KitchenEligible then Abort(KitchenNotEligible)
    else Commit(PutCheckout(db, c, db.checkouts[c].(status := OrderCreated, version := db.checkouts[c].version + 1)), ())
  }

  /** The intent a provider event speaks about, looked up by payment id and then by reference. */
  function FindIntentByProvider(db: Tables, paymentId: Option<string>, reference: Option<ProviderReference>): (r: Option<nat>)
    ensures r.Some? ==> r.value < |db.intents| && Located(db.intents[r.value])
  {
    if paymentId.Some? && (exists i | 0 <= i < |db.intents| :: db.intents[i].providerPaymentId == paymentId) then
      var i := FirstIndex(db.intents, (x: PaymentIntent) => x.providerPaymentId == paymentId);
      if reference.Some? && db.intents[i].providerReference.Some? && db.intents[i].providerReference != reference
      then None else Some(i)
    else if reference.None? then None
    else if exists i | 0 <= i < |db.intents| :: db.intents[i].providerReference == reference then
      var i := FirstWithReference(db, reference);
      if ReferenceTaken(db, i, reference.value) then None else Some(i)
    else None
  }

  function FirstWithReference(db: Tables, reference: Option<ProviderReference>): (i: nat)
    requires exists k | 0 <= k < |db.intents| :: db.intents[k].providerReference == reference
    ensures i < |db.intents| && db.intents[i].providerReference == reference
  {
    FirstIndex(db.intents, (x: PaymentIntent) => x.providerReference == reference)
  }

  function FirstIndex(intents: seq<PaymentIntent>, p: PaymentIntent -> bool): (i: nat)
    requires exists k :: 0 <= k < |intents| && p(intents[k])
    ensures i < |intents| && p(intents[i])
  {
    if p(intents[0]) then 0 else 1 + FirstIndex(intents[1..], p)
  }

  /** The provider's reference or payment id is on the row. */
  predicate Located(intent: PaymentIntent) {
    intent.providerReference.Some? || intent.providerPaymentId.Some?
  }

  datatype Claim =
    | Claimed
    | Replay(result: WebhookResult)
    | ActiveElsewhere
    | Blocked
    | IdentityConflict

  function Granted(event: WebhookEvent, owner: string, until: int): WebhookEvent {
    event.(checkpoint := if event.checkpoint == ProcessingFailed then Processing else event.checkpoint,
           attempts := event.attempts + 1, leaseOwner := Some(owner), leaseUntil := Some(until),
           retryable := false, retryAt := None, lastError := None)
  }

  function Exhausted(event: WebhookEvent): WebhookEvent {
    event.(checkpoint := ProcessingFailed, closed := true, leaseOwner := None, leaseUntil := None,
           retryable := false, retryAt := None,
           lastError := if event.lastError.Some? then event.lastError else Some(AttemptsExhausted))
  }

  /** The part of claiming an unfinished event that both claim paths share. */
  function ClaimUnfinished(event: WebhookEvent, now: int, owner: string, until: int): (r: (WebhookEvent, Claim))
    ensures r.0.evidence == event.evidence && r.0.intentId == event.intentId
  {
    if event.leaseUntil.Some? && event.leaseUntil.value > now then (event, ActiveElsewhere)
    else if event.retryAt.Some? && event.retryAt.value > now then (event, ActiveElsewhere)
    else if event.checkpoint == ProcessingFailed && !event.retryable then (event, Blocked)
    else if event.attempts >= MAX_PROCESSING_ATTEMPTS then (Exhausted(event), Blocked)
    else (Granted(event, owner, until), Claimed)
  }

  /** The recovery worker's claim. */
  function ClaimRecoverable(event: WebhookEvent, now: int, owner: string, until: int): (r: (WebhookEvent, Claim))
    ensures r.0.evidence == event.evidence && r.0.intentId == event.intentId
  {
    if event.result.Some? then (event, Replay(event.result.value))
    else if event.closed || event.attempts == 0 || event.intentId.None? then (event, Blocked)
    else ClaimUnfinished(event, now, owner, until)
  }

  /** A redelivery's claim of an existing row. */
  function ClaimRedelivered(event: WebhookEvent, applied: bool, evidence: Evidence, intentId: Option<nat>,
                            now: int, owner: string, until: int): (r: (WebhookEvent, Claim))
    ensures r.0.evidence == event.evidence
    ensures r.0.intentId == event.intentId || (event.intentId.None? && r.0.intentId == intentId)
  {
    if event.evidence.payloadHash != evidence.payloadHash then (event, IdentityConflict)
    else if event.evidence.accountHash != evidence.accountHash ||
            (event.intentId.Some? && intentId.Some? && event.intentId != intentId) then (event, IdentityConflict)
    else if event.result.Some? then (event, Replay(event.result.value))
    else if event.closed then
      (event,
       if event.checkpoint == LegacyUnknown then Replay(WebhookResult(ReferenceUnknown, event.intentId, None))
       else if applied then Replay(WebhookResult(DuplicateReplay, event.intentId, None)) else Blocked)
    else if event.attempts == 0 then (event, Blocked)
    else
      var (claimed, claim) := ClaimUnfinished(event, now, owner, until);
      if claim == Claimed && event.intentId.None? then (claimed.(intentId := intentId), Claimed) else (claimed, claim)
  }

  /** First delivery of an event: the row is created already claimed. */
  function NewEvent(evidence: Evidence, intentId: Option<nat>, owner: string, until: int): WebhookEvent {
    WebhookEvent(evidence, intentId, Processing, 1, Some(owner), Some(until), None, false, false, None, None)
  }

  function ClaimWebhookEvidence(db: Tables, now: int, evidence: Evidence, intentId: Option<nat>,
                                owner: string, until: int): (Tables, Claim)
  {
    match FindEvent(db.events, evidence)
    case None => (db.(events := db.events + [NewEvent(evidence, intentId, owner, until)]), Claimed)
    case Some(w) =>
      var (event, claim) := ClaimRedelivered(db.events[w], EventApplied(db, w), evidence, intentId, now, owner, until);
      (PutEvent(db, w, event), claim)
  }

  function ClaimRecoverableWebhook(db: Tables, now: int, w: nat, owner: string, until: int): (Tables, Claim) {
    if w >= |db.events| then (db, Blocked)
    else
      var (event, claim) := ClaimRecoverable(db.events[w], now, owner, until);
      (PutEvent(db, w, event), claim)
  }

  /** Moves the recorded checkpoint; the owner must still hold the lease. */
  function AdvanceWebhookCheckpoint(db: Tables, now: int, w: nat, owner: string, checkpoint: Checkpoint): Outcome<()> {
    if w >= |db.events| || db.events[w].closed || !LeaseHeld(db.events[w], owner, now) then Abort(WebhookClaimLost)
    else Commit(PutEvent(db, w, db.events[w].(checkpoint := checkpoint)), ())
  }

  function CompletedEvent(event: WebhookEvent, result: WebhookResult): WebhookEvent {
    event.(checkpoint := Processed, closed := true, result := Some(result), leaseOwner := None,
           leaseUntil := None, retryable := false, retryAt := None, lastError := None)
  }

  function CompleteWebhookClaim(db: Tables, now: int, w: nat, owner: string, result: WebhookResult): Outcome<()> {
    if !ClaimOwned(db, w, owner, now) then Abort(WebhookClaimLost)
    else Commit(PutEvent(db, w, CompletedEvent(db.events[w], result)), ())
  }

  function FailedEvent(event: WebhookEvent, now: int, error: CheckoutError, retryable: bool): WebhookEvent {
    var exhausted := event.attempts >= MAX_PROCESSING_ATTEMPTS;
    var again := retryable && !exhausted;
    event.(checkpoint := ProcessingFailed, closed := !again, leaseOwner := None, leaseUntil := None,
           retryable := again, retryAt := if again then Some(now) else None, lastError := Some(error))
  }

  function FailWebhookClaim(db: Tables, now: int, w: nat, owner: string, error: CheckoutError, retryable: bool): Outcome<()> {
    if !ClaimOwned(db, w, owner, now) then Abort(WebhookClaimLost)
    else Commit(PutEvent(db, w, FailedEvent(db.events[w], now, error, retryable)), ())
  }

  function RenewWebhookClaim(db: Tables, now: int, w: nat, owner: string, until: int): Outcome<()> {
    if !ClaimOwned(db, w, owner, now) || db.events[w].closed then Abort(WebhookClaimLost)
    else Commit(PutEvent(db, w, db.events[w].(leaseUntil := Some(until))), ())
  }
}
