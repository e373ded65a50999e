/** The pure decisions about a checkout: payment combination, relinking, kitchen and webhook verdicts. */
module CheckoutPolicy {
  import opened Wrappers
  import opened PaymentLifecycle
  import opened CheckoutTables

  predicate ValidCombination(fulfillment: Fulfillment, preference: Preference) {
    (fulfillment == Delivery && (preference == Online || preference == CashOnDelivery)) ||
    (fulfillment == Takeaway && (preference == Online || preference == PayAtPickup))
  }

  function KitchenDecision(fulfillment: Fulfillment, preference: Preference, successes: nat,
                           latest: Option<PaymentIntentStatus>): Result<bool, CheckoutError>
  {
    if !ValidCombination(fulfillment, preference) then Failure(CombinationInvalid)
    else if preference == Online then Success(successes == 1 && latest == Some(Succeeded))
    else Success(preference == CashOnDelivery || preference == PayAtPickup)
  }

  predicate WithinOwnTtl(intent: PaymentIntent, now: int) {
    intent.expiresAt.None? || intent.expiresAt.value > now
  }

  /** The first reason one existing intent gives against opening another, if any. */
  function Blocker(intent: PaymentIntent, now: int): Option<CheckoutError> {
    if intent.status in {Created, LinkReady} then
      if WithinOwnTtl(intent, now) then Some(PaymentAttemptActive) else None
    else if intent.status == Pending then
      if WithinOwnTtl(intent, now) then Some(PaymentAttemptActive) else Some(PaymentRelinkBlocked)
    else if intent.status in {UnknownResult, FinancialReviewRequired, Succeeded} then Some(PaymentRelinkBlocked)
    else None
  }

  function FirstBlocker(attempts: seq<PaymentIntent>, now: int): (r: Option<CheckoutError>)
    ensures r.None? <==> forall x :: x in attempts ==> Blocker(x, now).None?
  {
    if |attempts| == 0 then None
    else if Blocker(attempts[0], now).Some? then Blocker(attempts[0], now)
    else
      assert attempts == [attempts[0]] + attempts[1..];
      FirstBlocker(attempts[1..], now)
  }

  /** The relink policy, evaluated on freshly locked rows; None lets the command through. */
  function RelinkVerdict(checkout: Checkout, attempts: seq<PaymentIntent>, key: string, now: int): Option<CheckoutError> {
    if exists x | x in attempts :: x.idempotencyKey == key then None
    else if checkout.status !in {Confirmed, PaymentPending} then Some(CheckoutNotPayable)
    else if checkout.expiresAt.Some? && checkout.expiresAt.value <= now then Some(CheckoutHasExpired)
    else FirstBlocker(attempts, now)
  }

  /** The policy as the service runs it: early exits and one pass over every attempt. */
  method AssertRelinkAllowed(checkout: Checkout, attempts: seq<PaymentIntent>, key: string, now: int)
    returns (verdict: Option<CheckoutError>)
    ensures verdict == RelinkVerdict(checkout, attempts, key, now)
    ensures verdict.None? <==>
      (exists x :: x in attempts && x.idempotencyKey == key) ||
      (checkout.status in {Confirmed, PaymentPending} &&
       (checkout.expiresAt.None? || checkout.expiresAt.value > now) &&
       forall x :: x in attempts ==>
         x.status in {Failed, Expired, Cancelled} || (x.status in {Created, LinkReady} && !WithinOwnTtl(x, now)))
  {
    if exists x | x in attempts :: x.idempotencyKey == key {
      return None;
    }
    if checkout.status !in {Confirmed, PaymentPending} {
      return Some(CheckoutNotPayable);
    }
    if checkout.expiresAt.Some? && checkout.expiresAt.value <= now {
      return Some(CheckoutHasExpired);
    }
    for n := 0 to |attempts|
      invariant FirstBlocker(attempts, now) == FirstBlocker(attempts[n..], now)
    {
      var intent := attempts[n];
      assert attempts[n..][1..] == attempts[n + 1..];
      if intent.status in {Created, LinkReady} {
        if WithinOwnTtl(intent, now) {
          return Some(PaymentAttemptActive);
        }
        continue;
      }
      if intent.status == Pending {
        return Some(if WithinOwnTtl(intent, now) then PaymentAttemptActive else PaymentRelinkBlocked);
      }
      if intent.status in {UnknownResult, FinancialReviewRequired, Succeeded} {
        return Some(PaymentRelinkBlocked);
      }
    }
    return None;
  }

  datatype Decision = Decision(outcome: WebhookOutcome, next: PaymentIntentStatus)

  /** What a verified event asks of its intent. */
  function Decide(evidence: Evidence, intent: PaymentIntent, checkoutStatus: CheckoutStatus): Decision {
    if evidence.amount != Some(intent.amount) then Decision(AmountMismatch, FinancialReviewRequired)
    else if evidence.currency != Some(intent.currency) then Decision(CurrencyMismatch, FinancialReviewRequired)
    else if intent.accountHash.None? || evidence.accountHash.None? || evidence.accountHash != intent.accountHash then
      Decision(AccountMismatch, FinancialReviewRequired)
    else
      match evidence.verdict
      case Approved =>
        if checkoutStatus in {CheckoutCancelled, CheckoutExpired} then Decision(ReviewRequired, FinancialReviewRequired)
        else Decision(Accepted, Succeeded)
      case Declined => Decision(Accepted, Failed)
      case Review => Decision(ReviewRequired, FinancialReviewRequired)
      case InProgress =>
        if intent.status == UnknownResult then Decision(Accepted, UnknownResult) else Decision(Accepted, Pending)
  }

  /** The event approves this intent's own amount, currency and merchant account. */
  predicate Verifies(evidence: Evidence, intent: PaymentIntent) {
    && evidence.verdict == Approved
    && evidence.amount == Some(intent.amount)
    && evidence.currency == Some(intent.currency)
    && evidence.accountHash.Some?
    && evidence.accountHash == intent.accountHash
  }

  /** The event names this intent's amount, currency and merchant account, whatever it says about them. */
  predicate Matches(evidence: Evidence, intent: PaymentIntent) {
    evidence.amount == Some(intent.amount) && evidence.currency == Some(intent.currency) &&
    evidence.accountHash.Some? && evidence.accountHash == intent.accountHash
  }

  /** When each status is asked for; anything else is a financial review, and only a review is not accepted. */
  lemma DecisionMeans(evidence: Evidence, intent: PaymentIntent, checkout: CheckoutStatus)
    ensures var d := Decide(evidence, intent, checkout);
      && (d.next == Succeeded <==> Verifies(evidence, intent) && checkout !in {CheckoutCancelled, CheckoutExpired})
      && (d.next == Failed <==> Matches(evidence, intent) && evidence.verdict == Declined)
      && (d.next == UnknownResult <==> Matches(evidence, intent) && evidence.verdict == InProgress && intent.status == UnknownResult)
      && (d.next == Pending <==> Matches(evidence, intent) && evidence.verdict == InProgress && intent.status != UnknownResult)
      && d.next in {Succeeded, Failed, UnknownResult, Pending, FinancialReviewRequired}
      && (d.outcome == Accepted <==> d.next != FinancialReviewRequired)
      && (d.outcome == AmountMismatch <==> evidence.amount != Some(intent.amount))
      && (d.outcome == CurrencyMismatch <==> evidence.amount == Some(intent.amount) && evidence.currency != Some(intent.currency))
      && (d.outcome == AccountMismatch <==>
            evidence.amount == Some(intent.amount) && evidence.currency == Some(intent.currency) && !Matches(evidence, intent))
      && (d.outcome == ReviewRequired <==>
            Matches(evidence, intent) &&
            (evidence.verdict == Review || (evidence.verdict == Approved && checkout in {CheckoutCancelled, CheckoutExpired})))
  {
  }
}
