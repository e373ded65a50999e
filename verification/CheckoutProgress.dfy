/** How checkouts and webhook leases move: forward only, closed for good, and one worker at a time. */
module CheckoutProgress {
  import opened Wrappers
  import opened PaymentLifecycle
  import opened CheckoutTables
  import opened CheckoutPolicy
  import opened CheckoutRepository
  import opened CheckoutProtocol
  import opened CheckoutSafety

  /** How far a checkout has come; the last rank is out of the ordinary course. */
  function Progress(status: CheckoutStatus): nat {
    match status
    case Confirmed | PaymentSelectionRequired => 0
    case PaymentPending => 1
    case PaymentVerified => 2
    case KitchenEligible => 3
    case OrderCreated => 4
    case CheckoutCancelled | CheckoutExpired | CheckoutUnderReview => 5
  }

  predicate OutOfCourse(status: CheckoutStatus) {
    status in {CheckoutCancelled, CheckoutExpired, CheckoutUnderReview}
  }

  /** No step moves a checkout backwards, and each of its statuses is entered only by the step meant for it. */
  lemma NextMovesForward(world: World, now: int, step: Step, c: nat)
    requires c < |world.db.checkouts|
    ensures c < |Next(world, now, step).db.checkouts|
    ensures var s, t := world.db.checkouts[c].status, Next(world, now, step).db.checkouts[c].status;
      && Progress(s) <= Progress(t)
      && (OutOfCourse(t) && s != t ==> (step.Close? || step.RequireReview?) && step.checkoutId == c)
      && (t == PaymentVerified && s != t ==> s == PaymentPending && step == Verify(c))
      && (t == KitchenEligible && s != t ==> step == Kitchen(c) && c in world.approved)
      && (t == OrderCreated && s != t ==> s == KitchenEligible && step == Order(c))
  {
    if step.CreateIntent? {
      AttemptsAreTheIntents(world.db.intents, step.checkoutId);
    }
  }

  /** Once cancelled, expired or under review, a checkout is never verified, released or ordered again. */
  lemma {:induction false} ClosedForGood(world: World, run: seq<Timed>, c: nat)
    requires c < |world.db.checkouts| && OutOfCourse(world.db.checkouts[c].status)
    ensures c < |Run(world, run).db.checkouts| && OutOfCourse(Run(world, run).db.checkouts[c].status)
    decreases |run|
  {
    hide Next;
    if |run| > 0 {
      NextMovesForward(world, run[0].now, run[0].step, c);
      ClosedForGood(Next(world, run[0].now, run[0].step), run[1..], c);
    }
  }

  /** Repeating a downstream mark changes nothing. */
  lemma MarksAreIdempotent(db: Tables, c: nat)
    ensures var once := TablesAfter(db, MarkCheckoutPaymentVerified(db, c)); TablesAfter(once, MarkCheckoutPaymentVerified(once, c)) == once
    ensures var once := TablesAfter(db, MarkKitchenEligible(db, c)); TablesAfter(once, MarkKitchenEligible(once, c)) == once
    ensures var once := TablesAfter(db, MarkFinancialReview(db, c)); TablesAfter(once, MarkFinancialReview(once, c)) == once
  {
  }

  // Leases

  /** The step acts for the given lease owner. */
  predicate ActsAs(step: Step, owner: string) {
    match step
    case Receive(_, _, o, _) => o == owner
    case Recover(_, o, _) => o == owner
    case Checkpoint(_, o, _) => o == owner
    case Renew(_, o, _) => o == owner
    case Apply(_, o, _, _) => o == owner
    case Complete(_, o, _) => o == owner
    case Fail(_, o, _, _) => o == owner
    case _ => false
  }

  lemma OthersCannotTouch(world: World, now: int, step: Step, w: nat, owner: string)
    requires w < |world.db.events| && LeaseHeld(world.db.events[w], owner, now) && !ActsAs(step, owner)
    ensures w < |Next(world, now, step).db.events| && Next(world, now, step).db.events[w] == world.db.events[w]
  {
  }

  /** The worker transaction of an event belongs to the holder of its lease. */
  lemma OthersCannotApply(db: Tables, now: int, w: nat, owner: string, other: string, seen: PaymentIntent, checkout: CheckoutStatus)
    requires w < |db.events| && LeaseHeld(db.events[w], owner, now) && other != owner
    ensures ApplyDecision(db, now, w, other, seen, checkout) == db
  {
  }

  /** The owner holds the lease of event `w` at least until `end`. */
  predicate HeldTo(db: Tables, w: nat, owner: string, end: int) {
    w < |db.events| && db.events[w].leaseOwner == Some(owner) && db.events[w].leaseUntil.Some? && db.events[w].leaseUntil.value >= end
  }

  /** The owner does not give the lease away: it neither completes nor fails the event, nor renews to an earlier end. */
  predicate HoldsOn(step: Step, w: nat, owner: string, end: int) {
    match step
    case Complete(v, o, _) => v != w || o != owner
    case Fail(v, o, _, _) => v != w || o != owner
    case Renew(v, o, until) => v == w && o == owner ==> until >= end
    case _ => true
  }

  lemma NextHolds(world: World, now: int, step: Step, w: nat, owner: string, end: int)
    requires HeldTo(world.db, w, owner, end) && now < end && HoldsOn(step, w, owner, end)
    ensures HeldTo(Next(world, now, step).db, w, owner, end)
  {
    if !ActsAs(step, owner) {
      OthersCannotTouch(world, now, step, w, owner);
    }
  }

  /** Through the whole run, each step that is not the owner's leaves the row of the event as it finds it. */
  ghost predicate UntouchedByOthers(world: World, run: seq<Timed>, w: nat, owner: string)
    decreases |run|
  {
    |run| > 0 ==>
      var next := Next(world, run[0].now, run[0].step);
      && (!ActsAs(run[0].step, owner) ==> w < |world.db.events| && w < |next.db.events| && next.db.events[w] == world.db.events[w])
      && UntouchedByOthers(next, run[1..], w, owner)
  }

  /**
   * Until a lease runs out, over any run in which its holder works on and everybody else interleaves,
   * the holder keeps it and nobody else can claim, advance, complete or fail the event; a holder that
   * does nothing at all finds its row as it left it.
   */
  lemma {:induction false} LeaseIsExclusive(world: World, run: seq<Timed>, w: nat, owner: string, end: int)
    requires HeldTo(world.db, w, owner, end)
    requires forall k :: 0 <= k < |run| ==> run[k].now < end && HoldsOn(run[k].step, w, owner, end)
    ensures HeldTo(Run(world, run).db, w, owner, end)
    ensures UntouchedByOthers(world, run, w, owner)
    ensures (forall k :: 0 <= k < |run| ==> !ActsAs(run[k].step, owner)) ==> Run(world, run).db.events[w] == world.db.events[w]
    decreases |run|
  {
    hide Next, HoldsOn, ActsAs;
    if |run| > 0 {
      NextHolds(world, run[0].now, run[0].step, w, owner, end);
      if !ActsAs(run[0].step, owner) {
        OthersCannotTouch(world, run[0].now, run[0].step, w, owner);
      }
      LeaseIsExclusive(Next(world, run[0].now, run[0].step), run[1..], w, owner, end);
    }
  }

  /** When the recovery worker is granted an event, and what the grant or refusal leaves of the row. */
  lemma ClaimMeans(event: WebhookEvent, now: int, owner: string, until: int)
    ensures var (after, claim) := ClaimRecoverable(event, now, owner, until);
      && (claim == Claimed <==>
            event.result.None? && !event.closed && event.intentId.Some? && 0 < event.attempts < 5 &&
            (event.leaseUntil.Some? ==> event.leaseUntil.value <= now) && (event.retryAt.Some? ==> event.retryAt.value <= now) &&
            (event.checkpoint == ProcessingFailed ==> event.retryable))
      && (claim == Claimed ==> after.leaseOwner == Some(owner) && after.leaseUntil == Some(until) && !after.closed &&
                               after.attempts == event.attempts + 1 && after.checkpoint != ProcessingFailed)
      && (claim.Replay? <==> event.result.Some?)
      && (claim.Replay? ==> claim.result == event.result.value)
      && (claim == ActiveElsewhere <==>
            event.result.None? && !event.closed && event.attempts > 0 && event.intentId.Some? && !Free(event, now))
      && claim != IdentityConflict
      && (claim != Claimed ==> after == event || (after.closed && after.attempts >= 5))
  {
  }

  /** No lease is running and no retry is due later. */
  predicate Free(event: WebhookEvent, now: int) {
    (event.leaseUntil.Some? ==> event.leaseUntil.value <= now) && (event.retryAt.Some? ==> event.retryAt.value <= now)
  }

  /** The delivery speaks of the same payload, account and intent as the row. */
  predicate SameDelivery(event: WebhookEvent, evidence: Evidence, intentId: Option<nat>) {
    event.evidence.payloadHash == evidence.payloadHash && event.evidence.accountHash == evidence.accountHash &&
    (event.intentId.Some? && intentId.Some? ==> event.intentId == intentId)
  }

  /** What a redelivery of an event is answered, in every case. */
  lemma RedeliveryMeans(event: WebhookEvent, applied: bool, evidence: Evidence, intentId: Option<nat>, now: int, owner: string, until: int)
    ensures var (after, claim) := ClaimRedelivered(event, applied, evidence, intentId, now, owner, until);
      && (claim == IdentityConflict <==> !SameDelivery(event, evidence, intentId))
      && (SameDelivery(event, evidence, intentId) && event.result.Some? ==> claim == Replay(event.result.value))
      && (SameDelivery(event, evidence, intentId) && event.result.None? && event.closed ==>
            claim == if event.checkpoint == LegacyUnknown then Replay(WebhookResult(ReferenceUnknown, event.intentId, None))
                     else if applied then Replay(WebhookResult(DuplicateReplay, event.intentId, None)) else Blocked)
      && (claim == Claimed <==>
            SameDelivery(event, evidence, intentId) && event.result.None? && !event.closed && 0 < event.attempts < 5 &&
            Free(event, now) && (event.checkpoint == ProcessingFailed ==> event.retryable))
      && (claim == Claimed ==> after.intentId == if event.intentId.Some? then event.intentId else intentId)
      && (claim == ActiveElsewhere <==>
            SameDelivery(event, evidence, intentId) && event.result.None? && !event.closed && event.attempts > 0 && !Free(event, now))
  {
  }

  /** A retryable failure before the last attempt can be claimed again at once; any other failure closes the event. */
  lemma FailureIsRetried(event: WebhookEvent, now: int, error: CheckoutError, retryable: bool, later: int, owner: string, until: int)
    requires event.intentId.Some? && event.result.None? && event.attempts > 0 && now <= later
    ensures var failed := FailedEvent(event, now, error, retryable);
      && (ClaimRecoverable(failed, later, owner, until).1 == Claimed <==> retryable && event.attempts < 5)
      && (failed.closed <==> !(retryable && event.attempts < 5))
      && failed == event.(checkpoint := ProcessingFailed, closed := failed.closed, retryable := !failed.closed,
                          retryAt := if failed.closed then None else Some(now), lastError := Some(error),
                          leaseOwner := None, leaseUntil := None)
  {
  }

  /** An owner that renews in time goes on holding the lease until the new end. */
  lemma RenewalHolds(db: Tables, now: int, w: nat, owner: string, until: int, later: int)
    requires ClaimOwned(db, w, owner, now) && !db.events[w].closed && now <= later < until
    ensures var renewed := RenewWebhookClaim(db, now, w, owner, until);
      renewed.Commit? && ClaimOwned(renewed.tables, w, owner, later)
  {
  }

  /** A second delivery under the same identity but with another payload or account changes nothing. */
  lemma ForgedRedeliveryIsRefused(db: Tables, now: int, evidence: Evidence, intentId: Option<nat>, owner: string, until: int)
    requires FindEvent(db.events, evidence).Some?
    requires var known := db.events[FindEvent(db.events, evidence).value].evidence;
      known.payloadHash != evidence.payloadHash || known.accountHash != evidence.accountHash
    ensures ClaimWebhookEvidence(db, now, evidence, intentId, owner, until) == (db, IdentityConflict)
  {
    var w := FindEvent(db.events, evidence).value;
    assert db.events[w := db.events[w]] == db.events;
  }

  /** The located intent carries the payment id asked for, or alone carries the reference; a contradicting reference locates nothing. */
  lemma LocatedMeans(db: Tables, paymentId: Option<string>, reference: Option<ProviderReference>)
    requires FindIntentByProvider(db, paymentId, reference).Some?
    ensures var intent := db.intents[FindIntentByProvider(db, paymentId, reference).value];
      && ((paymentId.Some? && intent.providerPaymentId == paymentId) ||
          (reference.Some? && intent.providerReference == reference &&
           !ReferenceTaken(db, FindIntentByProvider(db, paymentId, reference).value, reference.value)))
      && (reference.Some? && intent.providerReference.Some? ==> intent.providerReference == reference)
  {
  }

  /** Payment ids are unique, as the column that holds them. */
  ghost predicate PaymentIdsUnique(db: Tables) {
    forall i, j :: 0 <= i < j < |db.intents| && db.intents[i].providerPaymentId.Some? ==>
      db.intents[i].providerPaymentId != db.intents[j].providerPaymentId
  }

  ghost predicate CarriesPaymentId(db: Tables, i: nat, paymentId: Option<string>) {
    i < |db.intents| && paymentId.Some? && db.intents[i].providerPaymentId == paymentId
  }

  /**
   * An event's intent is the one with its payment id, unless that one carries another reference; if no
   * intent has the id, it is the only one that carries the reference; otherwise there is none.
   */
  lemma FoundExactly(db: Tables, paymentId: Option<string>, reference: Option<ProviderReference>, i: nat)
    requires PaymentIdsUnique(db) && i < |db.intents|
    ensures FindIntentByProvider(db, paymentId, reference) == Some(i) <==>
      if exists j: nat :: CarriesPaymentId(db, j, paymentId) then
        CarriesPaymentId(db, i, paymentId) &&
        (reference.Some? && db.intents[i].providerReference.Some? ==> db.intents[i].providerReference == reference)
      else
        reference.Some? && db.intents[i].providerReference == reference && !ReferenceTaken(db, i, reference.value)
  {
    var found := FindIntentByProvider(db, paymentId, reference);
    if j: nat :| CarriesPaymentId(db, j, paymentId) {
      assert exists k | 0 <= k < |db.intents| :: db.intents[k].providerPaymentId == paymentId by {
        assert db.intents[j].providerPaymentId == paymentId;
      }
      var first := FirstIndex(db.intents, (x: PaymentIntent) => x.providerPaymentId == paymentId);
      assert CarriesPaymentId(db, i, paymentId) ==> first == i;
    } else {
      forall k | 0 <= k < |db.intents|
        ensures paymentId.Some? ==> db.intents[k].providerPaymentId != paymentId
      {
        assert !CarriesPaymentId(db, k, paymentId);
      }
      if reference.Some? && db.intents[i].providerReference == reference {
        var first := FirstWithReference(db, reference);
        assert ReferenceTaken(db, i, reference.value) <==> ReferenceTaken(db, first, reference.value) by {
          if first != i {
            assert ReferenceTaken(db, i, reference.value) && ReferenceTaken(db, first, reference.value);
          }
        }
      }
    }
  }
}
