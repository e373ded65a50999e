/** What a whole, uninterrupted processing of one fresh event achieves. */
module WebhookOutcomes {
  import opened Wrappers
  import opened PaymentLifecycle
  import opened CheckoutTables
  import opened CheckoutPolicy
  import opened CheckoutRepository
  import opened WebhookPipeline
  import opened WebhookResume
  import opened KitchenSafety

  /** The event approves a pending payment of an online checkout that awaits it, on its newest attempt and for the first time. */
  ghost predicate Payable(a: Tables, x: Worker)
    requires Bound(a, x.w)
  {
    var i := IntentId(a, x.w);
    var intent := a.intents[i];
    var checkout := a.checkouts[intent.checkoutId];
    var evidence := a.events[x.w].evidence;
    && Verifies(evidence, intent)
    && intent.status in {Pending, UnknownResult}
    && checkout.status == PaymentPending && checkout.preference == Online && ValidCombination(checkout.fulfillment, Online)
    && (evidence.providerPaymentId.Some? ==> !PaymentIdTaken(a, i, evidence.providerPaymentId.value))
    && (forall j :: 0 <= j < |a.intents| && j != i && a.intents[j].checkoutId == intent.checkoutId ==>
          j < i && a.intents[j].status != Succeeded)
  }

  lemma PaymentIsApplied(a: Tables, x: Worker)
    requires Fresh(a, x.w) && Payable(a, x)
    ensures var i := IntentId(a, x.w);
      var paid := ApplyEvent(a.intents[i], a.events[x.w].evidence, x.w, Succeeded);
      Transited(a, x.w) == Commit(PutIntent(a, i, paid), (Accepted, Succeeded))
  {
  }

  lemma PaidAttemptIsTheOne(a: Tables, x: Worker)
    requires Fresh(a, x.w) && Payable(a, x) && Transited(a, x.w).Commit?
    ensures var c := a.intents[IntentId(a, x.w)].checkoutId;
      var attempts := AttemptsNewestFirst(Transited(a, x.w).tables.intents, c);
      |attempts| > 0 && attempts[0].status == Succeeded && CountSucceeded(attempts) == 1
  {
    PaymentIsApplied(a, x);
    var i := IntentId(a, x.w);
    var c := a.intents[i].checkoutId;
    var b := Transited(a, x.w).tables.intents;
    assert b[i].checkoutId == c && b[i].status == Succeeded;
    assert OnlyNewestSucceeded(b, c);
    CountAgainstRows(b, c);
  }

  /** The three effects, in order: the intent is paid, the checkout verified, the kitchen released. */
  lemma PaymentIsReleased(a: Tables, x: Worker)
    requires Fresh(a, x.w) && Owned(a, x) && Payable(a, x) && x.gateOpen
    ensures Settled(a, x).Commit? && Settled(a, x).value == false && Released(a, x).Commit?
    ensures var c := a.intents[IntentId(a, x.w)].checkoutId;
      && Released(a, x).tables.intents == Transited(a, x.w).tables.intents
      && c < |Released(a, x).tables.checkouts|
      && Released(a, x).tables.checkouts[c].status == KitchenEligible
  {
    PaymentIsApplied(a, x);
    PaidAttemptIsTheOne(a, x);
    hide ApplyEvent, AttemptsNewestFirst, CountSucceeded, HasKey, EventApplied;
  }

  /**
   * A fresh approved event is processed to the end: it is reported as accepted, its intent is
   * SUCCEEDED by it, its checkout is released to the kitchen, and the event is closed.
   */
  lemma ApprovedPaymentGoesThrough(a: Tables, x: Worker)
    requires Fresh(a, x.w) && Owned(a, x) && Payable(a, x) && x.gateOpen
    ensures var i := IntentId(a, x.w);
      var end := Attempt(Load(a, x.w), x, EFFECTS);
      && end.Finished? && end.result == WebhookResult(Accepted, Some(i), Some(Succeeded))
      && i < |end.db.intents| && end.db.intents[i].status == Succeeded && EventApplied(end.db, x.w)
      && a.intents[i].checkoutId < |end.db.checkouts|
      && end.db.checkouts[a.intents[i].checkoutId].status == KitchenEligible
  {
    var i := IntentId(a, x.w);
    assert Tracks(a, x, 0, Load(a, x.w), x);
    WholeAttempt(a, x, 0, a, x);
    PaymentIsApplied(a, x);
    PaymentIsReleased(a, x);
    var paid := Transited(a, x.w).tables.intents[i];
    assert paid.transitions[|paid.transitions| - 1].event == Some(x.w);
    hide Attempt, Transited, Settled, Released, Payable, Fresh, Owned, Tracks, ApplyEvent;
  }

  /** While the gate is closed the last of the three effects waits: the checkout stays verified. */
  lemma PaymentIsDeferred(a: Tables, x: Worker)
    requires Fresh(a, x.w) && Owned(a, x) && Payable(a, x) && !x.gateOpen
    ensures Settled(a, x).Commit? && Settled(a, x).value == false && Released(a, x).Commit?
    ensures var c := a.intents[IntentId(a, x.w)].checkoutId;
      && Released(a, x).tables.intents == Transited(a, x.w).tables.intents
      && c < |Released(a, x).tables.checkouts|
      && Released(a, x).tables.checkouts[c].status == PaymentVerified
  {
    PaymentIsApplied(a, x);
    PaidAttemptIsTheOne(a, x);
    hide ApplyEvent, AttemptsNewestFirst, CountSucceeded, HasKey, EventApplied, EvaluateKitchen;
  }

  /** With the gate closed the same event ends accepted and paid as well, and its checkout is verified but not released. */
  lemma ApprovedPaymentIsDeferred(a: Tables, x: Worker)
    requires Fresh(a, x.w) && Owned(a, x) && Payable(a, x) && !x.gateOpen
    ensures var i := IntentId(a, x.w);
      var end := Attempt(Load(a, x.w), x, EFFECTS);
      && end.Finished? && end.result == WebhookResult(Accepted, Some(i), Some(Succeeded))
      && i < |end.db.intents| && end.db.intents[i].status == Succeeded && EventApplied(end.db, x.w)
      && a.intents[i].checkoutId < |end.db.checkouts|
      && end.db.checkouts[a.intents[i].checkoutId].status == PaymentVerified
  {
    var i := IntentId(a, x.w);
    assert Tracks(a, x, 0, Load(a, x.w), x);
    WholeAttempt(a, x, 0, a, x);
    PaymentIsApplied(a, x);
    PaymentIsDeferred(a, x);
    var paid := Transited(a, x.w).tables.intents[i];
    assert paid.transitions[|paid.transitions| - 1].event == Some(x.w);
    hide Attempt, Transited, Settled, Released, Payable, Fresh, Owned, Tracks, ApplyEvent;
  }

  /** An event that does not leave its intent SUCCEEDED changes no checkout. */
  lemma OnlySuccessMovesCheckouts(a: Tables, x: Worker)
    requires Fresh(a, x.w) && Owned(a, x)
    requires Transited(a, x.w).Commit? ==> Transited(a, x.w).value.1 != Succeeded
    ensures Attempt(Load(a, x.w), x, EFFECTS).db.checkouts == a.checkouts
  {
    assert Tracks(a, x, 0, Load(a, x.w), x);
    WholeAttempt(a, x, 0, a, x);
    hide Attempt, Fresh, Owned, Tracks, Decide, HasKey, EventApplied;
  }

  /** An event whose amount, currency or account differs sends its intent to financial review, when that is still allowed. */
  lemma MismatchIsReviewed(a: Tables, x: Worker)
    requires Fresh(a, x.w) && Owned(a, x)
    requires var intent := a.intents[IntentId(a, x.w)];
      !Matches(a.events[x.w].evidence, intent) && intent.status != FinancialReviewRequired
    ensures Transited(a, x.w).Commit? ==>
      Transited(a, x.w).value.0 in {AmountMismatch, CurrencyMismatch, AccountMismatch} &&
      Transited(a, x.w).value.1 == FinancialReviewRequired
    ensures Transited(a, x.w).Abort? <==>
      a.events[x.w].evidence.providerPaymentId.Some? &&
      PaymentIdTaken(a, IntentId(a, x.w), a.events[x.w].evidence.providerPaymentId.value)
    ensures Attempt(Load(a, x.w), x, EFFECTS).db.checkouts == a.checkouts
  {
    AlwaysReviewable(a.intents[IntentId(a, x.w)].status);
    OnlySuccessMovesCheckouts(a, x);
  }

  lemma AlwaysReviewable(s: PaymentIntentStatus)
    ensures s != FinancialReviewRequired ==> CanTransition(s, FinancialReviewRequired)
  {
  }

  // Every case of the three effects, in the rows

  /** The status change of a fresh event: when it is made, what it leaves of the intents, and what is reported. */
  lemma FreshChange(a: Tables, w: nat)
    requires Fresh(a, w)
    ensures var i := IntentId(a, w);
      var (intent, evidence) := (a.intents[i], a.events[w].evidence);
      var decision := Decide(evidence, intent, a.checkouts[intent.checkoutId].status);
      match Transited(a, w)
      case Abort(error) =>
        && error == PaymentIntentConflict && intent.status != decision.next
        && (!CanTransition(intent.status, decision.next) ||
            (evidence.providerPaymentId.Some? && PaymentIdTaken(a, i, evidence.providerPaymentId.value)))
      case Commit(after, (outcome, status)) =>
        && status == decision.next
        && outcome == (if intent.status == decision.next then DuplicateReplay else decision.outcome)
        && after == a.(intents := after.intents) && |after.intents| == |a.intents|
        && (forall j :: 0 <= j < |a.intents| && j != i ==> after.intents[j] == a.intents[j])
        && after.intents[i].status == decision.next
        && (intent.status == decision.next ==> after == a)
        && (intent.status != decision.next ==>
              && after.intents[i].transitions ==
                 intent.transitions + [PaymentTransition(Some(intent.status), decision.next, EventKey(evidence), Some(w))]
              && after.intents[i].version == intent.version + 1
              && after.intents[i].amount == intent.amount && after.intents[i].accountHash == intent.accountHash
              && after.intents[i].providerPaymentId ==
                 (if evidence.providerPaymentId.Some? then evidence.providerPaymentId else intent.providerPaymentId)
              && after.intents[i].providerReference ==
                 (if evidence.providerReference.Some? then evidence.providerReference else intent.providerReference))
  {
  }

  lemma {:induction false} SeveralSucceeded(intents: seq<PaymentIntent>, c: nat)
    ensures CountSucceeded(AttemptsNewestFirst(intents, c)) > 1 <==>
            exists i, j :: 0 <= i < j < |intents| && intents[i].checkoutId == intents[j].checkoutId == c &&
                           intents[i].status == intents[j].status == Succeeded
  {
    if |intents| > 0 {
      var n := |intents| - 1;
      var earlier := intents[..n];
      SeveralSucceeded(earlier, c);
      NoneSucceeded(earlier, c);
      assert forall j :: 0 <= j < n ==> earlier[j] == intents[j];
      if intents[n].checkoutId == c {
        assert AttemptsNewestFirst(intents, c)[1..] == AttemptsNewestFirst(earlier, c);
      }
    }
  }

  /** After a success: two succeeded attempts send the checkout to review; otherwise it is verified, once, unless it is closed. */
  lemma SettleMeans(db: Tables, y: Worker)
    requires Bound(db, y.w) && Owned(db, y)
    ensures var c := db.intents[IntentId(db, y.w)].checkoutId;
      var checkout := db.checkouts[c];
      var several := exists i, j :: 0 <= i < j < |db.intents| && db.intents[i].checkoutId == db.intents[j].checkoutId == c &&
                                    db.intents[i].status == db.intents[j].status == Succeeded;
      match Settle(db, y, Succeeded)
      case Commit(after, review) =>
        && review == several && after == db.(checkouts := db.checkouts[c := after.checkouts[c]])
        && after.checkouts[c].status ==
           (if several then CheckoutUnderReview else if checkout.status == PaymentPending then PaymentVerified else checkout.status)
        && (!several ==> checkout.status in {PaymentPending, PaymentVerified, KitchenEligible, OrderCreated})
      case Abort(_) => !several && checkout.status !in {PaymentPending, PaymentVerified, KitchenEligible, OrderCreated}
  {
    SeveralSucceeded(db.intents, db.intents[IntentId(db, y.w)].checkoutId);
    hide AttemptsNewestFirst, CountSucceeded;
    var c := db.intents[IntentId(db, y.w)].checkoutId;
    assert db.checkouts[c := db.checkouts[c]] == db.checkouts;
  }

  /** A finished attempt has closed its event under the result it reports. */
  lemma {:induction false} FinishedIsClosed(work: Work, y: Worker, effects: nat)
    requires Bound(work.db, y.w) && work.Running? && Attempt(work, y, effects).Finished?
    ensures var end := Attempt(work, y, effects);
      && end.db.events[y.w].closed && end.db.events[y.w].checkpoint == Processed
      && end.db.events[y.w].result == Some(end.result) && end.db.events[y.w].leaseOwner.None?
      && end.db.events[y.w].lastError.None? && end.db.events[y.w].retryAt.None? && !end.db.events[y.w].retryable
    decreases effects
  {
    var next := Effect(work, y);
    EffectKeepsBound(work, y);
    EffectFinishes(work, y);
    hide Effect;
    if next.Finished? {
      FinishedStays(next, y, effects - 1);
    } else if next.Running? {
      FinishedIsClosed(next, y, effects - 1);
    } else {
      ThrewStays(next, y, effects - 1);
    }
  }

  lemma EffectFinishes(work: Work, y: Worker)
    requires Bound(work.db, y.w) && work.Running?
    ensures Effect(work, y).Finished? ==>
      var end := Effect(work, y);
      && Bound(end.db, y.w)
      && end.db.events[y.w].closed && end.db.events[y.w].checkpoint == Processed
      && end.db.events[y.w].result == Some(end.result) && end.db.events[y.w].leaseOwner.None?
      && end.db.events[y.w].lastError.None? && end.db.events[y.w].retryAt.None? && !end.db.events[y.w].retryable
  {
    hide EvaluateKitchen, Decide, HasKey, PaymentIdTaken, SuccessfulPaymentCount;
  }

  lemma {:induction false} FinishedStays(work: Work, y: Worker, effects: nat)
    requires Bound(work.db, y.w) && work.Finished?
    ensures Attempt(work, y, effects) == work
    decreases effects
  {
    if effects > 0 {
      FinishedStays(Effect(work, y), y, effects - 1);
    }
  }

  lemma {:induction false} ThrewStays(work: Work, y: Worker, effects: nat)
    requires Bound(work.db, y.w) && work.Threw?
    ensures Attempt(work, y, effects) == work
    decreases effects
  {
    if effects > 0 {
      ThrewStays(Effect(work, y), y, effects - 1);
    }
  }
}
