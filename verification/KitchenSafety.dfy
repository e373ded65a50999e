/** Why a paid checkout may reach the kitchen: one verified payment, on the newest attempt. */
module KitchenSafety {
  import opened Wrappers
  import opened PaymentLifecycle
  import opened CheckoutTables
  import opened CheckoutPolicy
  import opened CheckoutRepository
  import opened CheckoutProtocol
  import opened CheckoutSafety

  /** Exactly one attempt of the checkout is SUCCEEDED, and it is the newest one. */
  ghost predicate OnlyNewestSucceeded(intents: seq<PaymentIntent>, c: nat) {
    exists i :: 0 <= i < |intents| && intents[i].checkoutId == c && intents[i].status == Succeeded &&
      forall j :: 0 <= j < |intents| && j != i && intents[j].checkoutId == c ==> j < i && intents[j].status != Succeeded
  }

  lemma {:induction false} NoneSucceeded(intents: seq<PaymentIntent>, c: nat)
    ensures CountSucceeded(AttemptsNewestFirst(intents, c)) == 0 <==>
            forall j :: 0 <= j < |intents| && intents[j].checkoutId == c ==> intents[j].status != Succeeded
  {
    if |intents| > 0 {
      var n := |intents| - 1;
      NoneSucceeded(intents[..n], c);
      assert forall j :: 0 <= j < n ==> intents[..n][j] == intents[j];
      if intents[n].checkoutId == c {
        assert AttemptsNewestFirst(intents, c)[1..] == AttemptsNewestFirst(intents[..n], c);
      }
    }
  }

  lemma {:induction false} CountAgainstRows(intents: seq<PaymentIntent>, c: nat)
    ensures var attempts := AttemptsNewestFirst(intents, c);
      |attempts| > 0 && attempts[0].status == Succeeded && CountSucceeded(attempts) == 1 <==> OnlyNewestSucceeded(intents, c)
  {
    if |intents| > 0 {
      var n := |intents| - 1;
      var earlier := intents[..n];
      assert forall j :: 0 <= j < n ==> earlier[j] == intents[j];
      if intents[n].checkoutId == c {
        assert AttemptsNewestFirst(intents, c)[1..] == AttemptsNewestFirst(earlier, c);
        NoneSucceeded(earlier, c);
      } else {
        CountAgainstRows(earlier, c);
        if OnlyNewestSucceeded(intents, c) {
          var i :| 0 <= i < |intents| && intents[i].checkoutId == c && intents[i].status == Succeeded &&
            forall j :: 0 <= j < |intents| && j != i && intents[j].checkoutId == c ==> j < i && intents[j].status != Succeeded;
          assert earlier[i] == intents[i];
        }
      }
    }
  }

  /** What the kitchen evaluation of an online checkout decides, in terms of the rows. */
  lemma EvaluationMeans(db: Tables, c: nat)
    requires c < |db.checkouts| && db.checkouts[c].preference == Online
    ensures EvaluateKitchen(db, c) == Success(true) <==>
            ValidCombination(db.checkouts[c].fulfillment, Online) && OnlyNewestSucceeded(db.intents, c)
  {
    CountAgainstRows(db.intents, c);
  }

  /** A checkout paid on receipt is released unless its newest attempt has an unknown result. */
  lemma OfflineEvaluation(db: Tables, c: nat)
    requires c < |db.checkouts| && db.checkouts[c].preference != Online
    ensures EvaluateKitchen(db, c) == Success(true) <==>
            ValidCombination(db.checkouts[c].fulfillment, db.checkouts[c].preference) &&
            var attempts := AttemptsNewestFirst(db.intents, c);
            |attempts| > 0 ==> attempts[0].status != UnknownResult
  {
  }

  /** Some transition of the row reached SUCCEEDED. */
  ghost predicate Paid(intent: PaymentIntent) {
    exists k :: 0 <= k < |intent.transitions| && intent.transitions[k].to == Succeeded
  }

  /** The row was paid from PENDING or UNKNOWN_RESULT by its own event with its own amount, currency and account. */
  ghost predicate PaidByVerifiedEvent(db: Tables, i: nat)
    requires i < |db.intents|
  {
    exists t :: t in db.intents[i].transitions && t.to == Succeeded &&
      t.from in {Some(Pending), Some(UnknownResult)} && t.event.Some? && t.event.value < |db.events| &&
      db.events[t.event.value].intentId == Some(i) && Verifies(db.events[t.event.value].evidence, db.intents[i])
  }

  lemma SuccessInHistory(intent: PaymentIntent, k: nat)
    requires HistorySound(intent) && k < |intent.transitions| && intent.transitions[k].to == Succeeded
    ensures intent.transitions[k].from in {Some(Pending), Some(UnknownResult)}
    ensures intent.status in {Succeeded, FinancialReviewRequired}
  {
    AfterSuccess(Statuses(intent.transitions), k);
  }

  lemma PaidIsVerified(db: Tables, i: nat)
    requires Inv(db) && i < |db.intents| && Paid(db.intents[i])
    ensures PaidByVerifiedEvent(db, i)
    ensures db.intents[i].status in {Succeeded, FinancialReviewRequired}
  {
    var intent := db.intents[i];
    assert IntentSound(intent, i, db);
    var k :| 0 <= k < |intent.transitions| && intent.transitions[k].to == Succeeded;
    SuccessInHistory(intent, k);
    var t := intent.transitions[k];
    assert t in intent.transitions && TransitionBacked(t, intent, i, db.events);
  }

  lemma SucceededIsPaid(db: Tables, i: nat)
    requires Inv(db) && i < |db.intents| && db.intents[i].status == Succeeded
    ensures Paid(db.intents[i])
  {
    assert IntentSound(db.intents[i], i, db);
    assert db.intents[i].transitions[|db.intents[i].transitions| - 1].to == Succeeded;
  }

  /** Approvals and releases: both rest on a paid attempt. */
  ghost predicate KitchenSound(world: World) {
    && (forall c :: c in world.approved ==> c < |world.db.checkouts|)
    && (forall c :: c in world.approved && world.db.checkouts[c].preference == Online ==> HasPaidAttempt(world.db, c))
    && (forall c :: 0 <= c < |world.db.checkouts| && world.db.checkouts[c].status in {KitchenEligible, OrderCreated} ==>
          c in world.approved)
  }

  ghost predicate HasPaidAttempt(db: Tables, c: nat) {
    exists i :: 0 <= i < |db.intents| && db.intents[i].checkoutId == c && Paid(db.intents[i])
  }

  lemma PaidAttemptPersists(a: Tables, b: Tables, c: nat)
    requires HasPaidAttempt(a, c) && AllEvolved(a.intents, b.intents)
    ensures HasPaidAttempt(b, c)
  {
    var i :| 0 <= i < |a.intents| && a.intents[i].checkoutId == c && Paid(a.intents[i]);
    assert Evolved(a.intents[i], b.intents[i]);
    var k :| 0 <= k < |a.intents[i].transitions| && a.intents[i].transitions[k].to == Succeeded;
    assert b.intents[i].transitions[k] == a.intents[i].transitions[k];
  }

  lemma ApprovalIsPaid(db: Tables, c: nat)
    requires Inv(db) && EvaluateKitchen(db, c) == Success(true) && db.checkouts[c].preference == Online
    ensures HasPaidAttempt(db, c)
  {
    EvaluationMeans(db, c);
    var i :| 0 <= i < |db.intents| && db.intents[i].checkoutId == c && db.intents[i].status == Succeeded;
    SucceededIsPaid(db, i);
  }

  lemma NextReleasesOnlyApproved(world: World, now: int, step: Step, c: nat)
    requires KitchenSound(world)
    requires c < |Next(world, now, step).db.checkouts|
    requires Next(world, now, step).db.checkouts[c].status in {KitchenEligible, OrderCreated}
    ensures c in Next(world, now, step).approved
  {
  }

  /** A new approval is a kitchen evaluation that answered yes. */
  lemma NextApproves(world: World, now: int, step: Step, c: nat)
    requires c in Next(world, now, step).approved && c !in world.approved
    ensures step == Evaluate(c) && c < |world.db.checkouts| && EvaluateKitchen(world.db, c) == Success(true)
  {
  }

  lemma NextKeepsKitchen(world: World, now: int, step: Step)
    requires Inv(world.db) && KitchenSound(world)
    ensures KitchenSound(Next(world, now, step))
  {
    hide Next, EvaluateKitchen, HasPaidAttempt, IntentsSound, KeysUnique, AttemptsNumbered, EventsLocated;
    var next := Next(world, now, step);
    NextEvolves(world, now, step);
    NextKeepsCheckouts(world, now, step);
    forall c | c in next.approved
      ensures c < |next.db.checkouts| && (next.db.checkouts[c].preference == Online ==> HasPaidAttempt(next.db, c))
    {
      if c in world.approved {
        if world.db.checkouts[c].preference == Online {
          PaidAttemptPersists(world.db, next.db, c);
        }
      } else {
        NextApproves(world, now, step, c);
        if world.db.checkouts[c].preference == Online {
          ApprovalIsPaid(world.db, c);
          PaidAttemptPersists(world.db, next.db, c);
        }
      }
    }
    forall c | 0 <= c < |next.db.checkouts| && next.db.checkouts[c].status in {KitchenEligible, OrderCreated}
      ensures c in next.approved
    {
      NextReleasesOnlyApproved(world, now, step, c);
    }
  }

  lemma {:induction false} RunKeepsKitchen(world: World, run: seq<Timed>)
    requires Inv(world.db) && KitchenSound(world)
    ensures Inv(Run(world, run).db) && KitchenSound(Run(world, run))
    decreases |run|
  {
    hide Next, Inv, KitchenSound;
    if |run| > 0 {
      NextKeepsInv(world, run[0].now, run[0].step);
      NextKeepsKitchen(world, run[0].now, run[0].step);
      RunKeepsKitchen(Next(world, run[0].now, run[0].step), run[1..]);
    }
  }

  lemma StartIsSound()
    ensures Inv(START.db) && KitchenSound(START)
  {
  }

  /** After every run, whatever its clock and discipline, a released online checkout was paid by a verified event. */
  lemma ReleasedOnlineCheckoutIsPaid(world: World, run: seq<Timed>, c: nat)
    requires Inv(world.db) && KitchenSound(world)
    requires c < |Run(world, run).db.checkouts|
    requires Run(world, run).db.checkouts[c].preference == Online
    requires Run(world, run).db.checkouts[c].status in {KitchenEligible, OrderCreated}
    ensures var db := Run(world, run).db;
      exists i :: 0 <= i < |db.intents| && db.intents[i].checkoutId == c && PaidByVerifiedEvent(db, i)
  {
    hide Run, Inv, Paid, PaidByVerifiedEvent;
    RunKeepsKitchen(world, run);
    var db := Run(world, run).db;
    assert HasPaidAttempt(db, c);
    var i :| 0 <= i < |db.intents| && db.intents[i].checkoutId == c && Paid(db.intents[i]);
    PaidIsVerified(db, i);
  }

  /** Exactly one attempt of the checkout is SUCCEEDED, it is the newest, and its own verified event paid it. */
  ghost predicate Earned(db: Tables, c: nat) {
    exists i :: 0 <= i < |db.intents| && db.intents[i].checkoutId == c && db.intents[i].status == Succeeded &&
      PaidByVerifiedEvent(db, i) &&
      forall j :: 0 <= j < |db.intents| && j != i && db.intents[j].checkoutId == c ==> j < i && db.intents[j].status != Succeeded
  }

  lemma NewestSuccessIsEarned(db: Tables, c: nat)
    requires Inv(db) && OnlyNewestSucceeded(db.intents, c)
    ensures Earned(db, c)
  {
    hide PaidByVerifiedEvent, Inv;
    var i :| 0 <= i < |db.intents| && db.intents[i].checkoutId == c && db.intents[i].status == Succeeded &&
      forall j :: 0 <= j < |db.intents| && j != i && db.intents[j].checkoutId == c ==> j < i && db.intents[j].status != Succeeded;
    SucceededIsPaid(db, i);
    PaidIsVerified(db, i);
  }

  /** A step that newly approves an online checkout finds it earned. */
  lemma NextApprovesEarned(world: World, now: int, step: Step, c: nat)
    requires Inv(world.db) && c in Next(world, now, step).approved && c !in world.approved
    ensures step == Evaluate(c) && c < |world.db.checkouts|
    ensures world.db.checkouts[c].preference == Online ==> Earned(world.db, c)
  {
    hide Inv, Earned, EvaluateKitchen, OnlyNewestSucceeded, Next;
    NextApproves(world, now, step, c);
    if world.db.checkouts[c].preference == Online {
      EvaluationMeans(world.db, c);
      NewestSuccessIsEarned(world.db, c);
    }
  }

  /** The tables when step `n` of a run is about to be taken. */
  function Before(world: World, run: seq<Timed>, n: nat): Tables
    requires n <= |run|
  {
    Run(world, run[..n]).db
  }

  lemma BeforeNext(world: World, run: seq<Timed>, n: nat)
    requires 0 < n <= |run|
    ensures Before(world, run, n) == Before(Next(world, run[0].now, run[0].step), run[1..], n - 1)
  {
    assert run[..n][1..] == run[1..][..n - 1];
  }

  lemma {:induction false} ApprovalWasEarned(world: World, run: seq<Timed>, c: nat) returns (n: nat)
    requires Inv(world.db) && c !in world.approved && c in Run(world, run).approved
    ensures n < |run| && run[n].step == Evaluate(c)
    ensures c < |Before(world, run, n).checkouts| && c < |Run(world, run).db.checkouts|
    ensures Before(world, run, n).checkouts[c].preference == Run(world, run).db.checkouts[c].preference
    ensures Run(world, run).db.checkouts[c].preference == Online ==> Earned(Before(world, run, n), c)
    decreases |run|
  {
    hide Inv, Earned, Next, Before;
    var next := Next(world, run[0].now, run[0].step);
    if c in next.approved {
      n := 0;
      NextApprovesEarned(world, run[0].now, run[0].step, c);
      RunKeepsCheckouts(world, run);
      FirstBefore(world, run);
    } else {
      NextKeepsInv(world, run[0].now, run[0].step);
      n := ApprovalWasEarned(next, run[1..], c);
      n := n + 1;
      BeforeNext(world, run, n);
    }
  }

  lemma FirstBefore(world: World, run: seq<Timed>)
    ensures Before(world, run, 0) == world.db
  {
  }

  /**
   * Over every run: each release of an online checkout rests on an evaluation at which exactly one
   * of its attempts was SUCCEEDED, that attempt was the newest, and it had been paid from PENDING or
   * UNKNOWN_RESULT by an event whose amount, currency and account were its own.
   */
  lemma EveryReleaseWasEarned(world: World, run: seq<Timed>, c: nat)
    requires Inv(world.db) && KitchenSound(world) && c !in world.approved
    requires c < |Run(world, run).db.checkouts|
    requires Run(world, run).db.checkouts[c].preference == Online
    requires Run(world, run).db.checkouts[c].status in {KitchenEligible, OrderCreated}
    ensures exists n :: 0 <= n < |run| && run[n].step == Evaluate(c) && Earned(Before(world, run, n), c)
  {
    RunKeepsKitchen(world, run);
    hide Run, Inv, Before, Earned;
    var n := ApprovalWasEarned(world, run, c);
  }
}
