/** When processing an event releases its checkout to the kitchen: behind an open gate, on an evaluation that said yes. */
module WebhookRelease {
  import opened Wrappers
  import opened PaymentLifecycle
  import opened CheckoutTables
  import opened CheckoutPolicy
  import opened CheckoutRepository
  import opened WebhookPipeline
  import opened WebhookResume
  import opened KitchenSafety

  predicate InKitchen(checkout: Checkout) {
    checkout.status in {KitchenEligible, OrderCreated}
  }

  /** The attempt is about to release checkout `c`: the gate is open and the kitchen evaluation of these tables says yes. */
  ghost predicate ReleasesRightly(work: Work, y: Worker, c: nat) {
    && work.Running? && work.pc == 4 && y.gateOpen
    && Bound(work.db, y.w) && c == work.db.intents[IntentId(work.db, y.w)].checkoutId
    && work.status == Succeeded && !work.review
    && EvaluateKitchen(work.db, c) == Success(true)
    && (work.db.checkouts[c].preference == Online ==> OnlyNewestSucceeded(work.db.intents, c))
  }

  lemma EffectReleases(work: Work, y: Worker, c: nat)
    requires Bound(work.db, y.w) && c < |work.db.checkouts| && !InKitchen(work.db.checkouts[c])
    ensures c < |Effect(work, y).db.checkouts|
    ensures InKitchen(Effect(work, y).db.checkouts[c]) ==> ReleasesRightly(work, y, c)
  {
    if c == work.db.intents[IntentId(work.db, y.w)].checkoutId && work.db.checkouts[c].preference == Online {
      EvaluationMeans(work.db, c);
    }
    hide EvaluateKitchen, Decide, HasKey, PaymentIdTaken, SuccessfulPaymentCount, OnlyNewestSucceeded;
  }

  /** Over a whole attempt, cut anywhere: a checkout that entered the kitchen was released rightly by one of its effects. */
  lemma {:induction false} AttemptReleases(work: Work, y: Worker, effects: nat, c: nat)
    requires Bound(work.db, y.w) && c < |work.db.checkouts| && !InKitchen(work.db.checkouts[c])
    ensures c < |Attempt(work, y, effects).db.checkouts|
    ensures InKitchen(Attempt(work, y, effects).db.checkouts[c]) ==>
      exists n :: 0 <= n < effects && ReleasesRightly(Attempt(work, y, n), y, c)
    decreases effects
  {
    if effects > 0 {
      hide Effect, ReleasesRightly;
      EffectReleases(work, y, c);
      EffectKeepsBound(work, y);
      if InKitchen(Effect(work, y).db.checkouts[c]) {
        assert Attempt(work, y, 0) == work;
        StaysThere(Effect(work, y), y, effects - 1, c);
      } else {
        AttemptReleases(Effect(work, y), y, effects - 1, c);
        if n :| 0 <= n < effects - 1 && ReleasesRightly(Attempt(Effect(work, y), y, n), y, c) {
          assert Attempt(work, y, n + 1) == Attempt(Effect(work, y), y, n);
        }
      }
    }
  }

  lemma EffectKeepsRows(work: Work, y: Worker)
    requires Bound(work.db, y.w)
    ensures |Effect(work, y).db.checkouts| == |work.db.checkouts|
  {
    hide EvaluateKitchen, Decide, HasKey, PaymentIdTaken, SuccessfulPaymentCount;
  }

  lemma {:induction false} StaysThere(work: Work, y: Worker, effects: nat, c: nat)
    requires Bound(work.db, y.w) && c < |work.db.checkouts|
    ensures c < |Attempt(work, y, effects).db.checkouts|
    decreases effects
  {
    if effects > 0 {
      hide Effect;
      EffectKeepsRows(work, y);
      EffectKeepsBound(work, y);
      StaysThere(Effect(work, y), y, effects - 1, c);
    }
  }

  /** With the gate closed no attempt ever releases anything. */
  lemma ClosedGateReleasesNothing(work: Work, y: Worker, effects: nat, c: nat)
    requires Bound(work.db, y.w) && c < |work.db.checkouts| && !InKitchen(work.db.checkouts[c]) && !y.gateOpen
    ensures c < |Attempt(work, y, effects).db.checkouts| && !InKitchen(Attempt(work, y, effects).db.checkouts[c])
  {
    AttemptReleases(work, y, effects, c);
    hide Attempt;
  }

  /** Neither closed nor waiting for a choice of payment. */
  predicate Releasable(checkout: Checkout) {
    checkout.status in {Confirmed, PaymentPending, PaymentVerified, KitchenEligible, OrderCreated}
  }

  /** What the release effect does for a paid event under its lease, in every case. */
  lemma ReleaseMeans(db: Tables, y: Worker)
    requires Bound(db, y.w) && Owned(db, y)
    ensures var c := db.intents[IntentId(db, y.w)].checkoutId;
      var checkout := db.checkouts[c];
      match Release(db, y, Succeeded, false)
      case Commit(after, _) =>
        if !y.gateOpen then after == db
        else
          && EvaluateKitchen(db, c) == Success(true)
          && Releasable(checkout)
          && after == db.(checkouts := db.checkouts[c := if InKitchen(checkout) then checkout
                                                         else checkout.(status := KitchenEligible, version := checkout.version + 1)])
      case Abort(_) =>
        y.gateOpen &&
        (EvaluateKitchen(db, c) != Success(true) || !Releasable(checkout))
  {
    hide EvaluateKitchen;
    var c := db.intents[IntentId(db, y.w)].checkoutId;
    match EvaluateKitchen(db, c)
    case Failure(_) =>
    case Success(eligible) =>
      if eligible {
        assert EvaluateKitchen(db, c) == Success(true);
      }
  }
}
