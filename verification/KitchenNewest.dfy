/** The newest attempt of a checkout: when only it is live, and when only it is ever paid. */
module KitchenNewest {
  import opened Wrappers
  import opened PaymentLifecycle
  import opened CheckoutTables
  import opened CheckoutPolicy
  import opened CheckoutRepository
  import opened CheckoutProtocol
  import opened CheckoutSafety
  import opened KitchenSafety

  // Which steps pay

  /** The step is a worker's transaction that writes a success on attempt `i`. */
  predicate Pays(db: Tables, now: int, step: Step, i: nat) {
    && step.Apply? && step.w < |db.events| && db.events[step.w].intentId == Some(i)
    && i < |db.intents| && step.seen == db.intents[i] && step.seen.status != Succeeded
    && Decide(db.events[step.w].evidence, step.seen, step.seenCheckout).next == Succeeded
    && !HasKey(db.intents[i], EventKey(db.events[step.w].evidence))
    && TransitionPayment(db, now, step.w, step.owner, i, step.seen.version, Succeeded).Commit?
  }

  lemma AdvanceUnpaid(x: PaymentIntent, y: PaymentIntent)
    requires |y.transitions| == |x.transitions| + 1 && x.transitions <= y.transitions
    requires y.transitions[|x.transitions|].to != Succeeded
    ensures Paid(y) ==> Paid(x)
  {
    if Paid(y) {
      var k :| 0 <= k < |y.transitions| && y.transitions[k].to == Succeeded;
      assert x.transitions[k] == y.transitions[k];
    }
  }

  /** A history that a step extends by a success is that of the attempt it pays. */
  lemma PaidByApply(world: World, now: int, step: Step, i: nat)
    requires i < |world.db.intents|
    ensures i < |Next(world, now, step).db.intents|
    ensures var x, y := world.db.intents[i], Next(world, now, step).db.intents[i];
      if Pays(world.db, now, step, i) then
        |y.transitions| == |x.transitions| + 1 && x.transitions <= y.transitions && y.transitions[|x.transitions|].to == Succeeded
      else
        y.transitions == x.transitions ||
        (|y.transitions| == |x.transitions| + 1 && x.transitions <= y.transitions &&
         y.transitions[|x.transitions|].to != Succeeded)
  {
    if !TouchesIntents(step) {
      QuietSteps(world, now, step);
    }
  }

  /** So a step newly pays an attempt exactly when it is such a transaction. */
  lemma NextPays(world: World, now: int, step: Step, i: nat)
    requires i < |world.db.intents|
    ensures i < |Next(world, now, step).db.intents|
    ensures Paid(Next(world, now, step).db.intents[i]) <==> Paid(world.db.intents[i]) || Pays(world.db, now, step, i)
  {
    hide Next, Pays, TransitionPayment;
    PaidByApply(world, now, step, i);
    var x, y := world.db.intents[i], Next(world, now, step).db.intents[i];
    if Pays(world.db, now, step, i) {
      assert y.transitions[|x.transitions|].to == Succeeded;
    } else if y.transitions != x.transitions {
      AdvanceUnpaid(x, y);
    }
    if Paid(x) {
      var k :| 0 <= k < |x.transitions| && x.transitions[k].to == Succeeded;
      assert y.transitions[k] == x.transitions[k];
    }
  }

  // The newest attempt alone is live or paid

  /** Only the newest attempt of a checkout is live or has ever been paid. */
  ghost predicate OnlyNewestCounts(db: Tables, now: int) {
    forall i, j :: 0 <= i < j < |db.intents| && db.intents[i].checkoutId == db.intents[j].checkoutId ==>
      !Live(db.intents[i], now) && !Paid(db.intents[i])
  }

  /** A step adds a success only to a live row. */
  ghost predicate PaidWhileLive(a: seq<PaymentIntent>, b: seq<PaymentIntent>, now: int) {
    |a| <= |b| && forall i :: 0 <= i < |a| && Paid(b[i]) ==> Paid(a[i]) || Live(a[i], now)
  }

  lemma NextPaidWhileLive(world: World, now: int, step: Step)
    ensures PaidWhileLive(world.db.intents, Next(world, now, step).db.intents, now)
  {
    hide Next, Evolved, HasKey, Decide;
    NextEvolves(world, now, step);
    forall i | 0 <= i < |world.db.intents| && Paid(Next(world, now, step).db.intents[i])
      ensures Paid(world.db.intents[i]) || Live(world.db.intents[i], now)
    {
      NextPays(world, now, step, i);
    }
  }

  lemma AppendFindsNoBlocker(db: Tables, now: int, c: nat, key: string, expiresAt: int, i: nat)
    requires i < |db.intents| && db.intents[i].checkoutId == c
    requires |TablesAfter(db, CreatePaymentIntent(db, now, c, key, expiresAt)).intents| > |db.intents|
    ensures Blocker(db.intents[i], now).None?
  {
    AttemptsAreTheIntents(db.intents, c);
    assert db.intents[i] in AttemptsNewestFirst(db.intents, c);
  }

  /** The checkout has a newer attempt. */
  predicate Superseded(intents: seq<PaymentIntent>, i: nat)
    requires i < |intents|
  {
    exists j | i < j < |intents| :: intents[j].checkoutId == intents[i].checkoutId
  }

  /** The step starts a payment on a superseded attempt. */
  predicate StartsSuperseded(db: Tables, step: Step) {
    StartsPayment(db, step) && Superseded(db.intents, step.intentId)
  }

  /** Starting a payment makes one row PENDING. */
  lemma StartChangesOneRow(world: World, now: int, step: Step)
    requires StartsPayment(world.db, step)
    ensures step.Begin?
    ensures var a, b := world.db.intents, Next(world, now, step).db.intents;
      var s := step.intentId;
      && s < |a| == |b| && b == a[s := b[s]] && b[s].checkoutId == a[s].checkoutId && Live(b[s], now)
      && (Paid(b[s]) ==> Paid(a[s]))
      && a[s].status in {Created, LinkReady}
  {
    var a, b := world.db.intents, Next(world, now, step).db.intents;
    AdvanceUnpaid(a[step.intentId], b[step.intentId]);
  }

  lemma StartKeepsNewest(world: World, now: int, step: Step)
    requires OnlyNewestCounts(world.db, now) && StartsPayment(world.db, step)
    ensures OnlyNewestCounts(Next(world, now, step).db, now) <==> !StartsSuperseded(world.db, step)
  {
    hide Next, StartsPayment, Live, Paid;
    StartChangesOneRow(world, now, step);
    var a, b := world.db.intents, Next(world, now, step).db.intents;
    var s := step.intentId;
    if Superseded(a, s) {
      var j :| s < j < |a| && a[j].checkoutId == a[s].checkoutId;
      assert b[j].checkoutId == b[s].checkoutId && Live(b[s], now);
    } else {
      forall i, j | 0 <= i < j < |b| && b[i].checkoutId == b[j].checkoutId
        ensures !Live(b[i], now) && !Paid(b[i])
      {
        assert a[i].checkoutId == a[j].checkoutId;
      }
    }
  }

  lemma AppendedAfterBlockers(world: World, now: int, step: Step, i: nat)
    requires |Next(world, now, step).db.intents| > |world.db.intents| && i < |world.db.intents|
    requires Next(world, now, step).db.intents[|world.db.intents|].checkoutId == world.db.intents[i].checkoutId
    ensures Blocker(world.db.intents[i], now).None?
  {
    if !step.CreateIntent? {
      AppendsOnlyIntents(world, now, step);
    }
    AppendFindsNoBlocker(world.db, now, step.checkoutId, step.key, step.expiresAt, i);
  }

  lemma AppendsOnlyIntents(world: World, now: int, step: Step)
    requires !step.CreateIntent?
    ensures |Next(world, now, step).db.intents| == |world.db.intents|
  {
  }

  lemma OtherStepKeepsNewest(world: World, now: int, step: Step)
    requires Inv(world.db) && OnlyNewestCounts(world.db, now) && !StartsPayment(world.db, step)
    ensures OnlyNewestCounts(Next(world, now, step).db, now)
  {
    hide Next, StartsPayment, Paid, IntentsSound, KeysUnique, AttemptsNumbered, EventsLocated, PaidByVerifiedEvent;
    OthersReviveNothing(world, now, step);
    NextPaidWhileLive(world, now, step);
    var a, b := world.db.intents, Next(world, now, step).db.intents;
    forall i, j | 0 <= i < j < |b| && b[i].checkoutId == b[j].checkoutId
      ensures !Live(b[i], now) && !Paid(b[i])
    {
      if j < |a| {
        assert !Live(a[i], now) && !Paid(a[i]);
      } else {
        AppendedAfterBlockers(world, now, step, i);
        if Paid(a[i]) {
          PaidIsVerified(world.db, i);
        }
      }
    }
  }

  lemma NewestInTime(db: Tables, before: int, now: int)
    requires OnlyNewestCounts(db, before) && before <= now
    ensures OnlyNewestCounts(db, now)
  {
    forall i, j | 0 <= i < j < |db.intents| && db.intents[i].checkoutId == db.intents[j].checkoutId
      ensures !Live(db.intents[i], now) && !Paid(db.intents[i])
    {
      assert !Live(db.intents[i], before);
    }
  }

  /** One step keeps "only the newest attempt counts" exactly when it does not start a superseded attempt. */
  lemma NextKeepsNewest(world: World, before: int, now: int, step: Step)
    requires Inv(world.db) && OnlyNewestCounts(world.db, before) && before <= now
    ensures OnlyNewestCounts(Next(world, now, step).db, now) <==> !StartsSuperseded(world.db, step)
  {
    hide Next, Inv, OnlyNewestCounts, StartsPayment;
    NewestInTime(world.db, before, now);
    if StartsPayment(world.db, step) {
      StartKeepsNewest(world, now, step);
    } else {
      OtherStepKeepsNewest(world, now, step);
    }
  }

  ghost predicate NewestThroughout(world: World, now: int, run: seq<Timed>)
    decreases |run|
  {
    OnlyNewestCounts(world.db, now) &&
    (|run| > 0 ==> NewestThroughout(Next(world, run[0].now, run[0].step), run[0].now, run[1..]))
  }

  predicate NeverStartsSuperseded(world: World, run: seq<Timed>)
    decreases |run|
  {
    |run| > 0 ==>
      !StartsSuperseded(world.db, run[0].step) && NeverStartsSuperseded(Next(world, run[0].now, run[0].step), run[1..])
  }

  /** Over every run only the newest attempt is live or paid, exactly when no payment is started on a superseded one. */
  lemma {:induction false} RunKeepsNewest(world: World, now: int, run: seq<Timed>)
    requires Inv(world.db) && OnlyNewestCounts(world.db, now) && Clocked(now, run)
    ensures NewestThroughout(world, now, run) <==> NeverStartsSuperseded(world, run)
    decreases |run|
  {
    hide Next, Inv, OnlyNewestCounts, StartsSuperseded;
    if |run| > 0 {
      var next := Next(world, run[0].now, run[0].step);
      NextKeepsNewest(world, now, run[0].now, run[0].step);
      NextKeepsInv(world, run[0].now, run[0].step);
      if OnlyNewestCounts(next.db, run[0].now) {
        RunKeepsNewest(next, run[0].now, run[1..]);
      }
    }
  }

  lemma SupersededHasLapsed(world: World, now: int, step: Step)
    requires OnlyNewestCounts(world.db, now) && StartsSuperseded(world.db, step)
    ensures StartsLapsed(world.db, now, step)
  {
    StartChangesOneRow(world, now, step);
    assert !Live(world.db.intents[step.intentId], now);
    hide StartsPayment;
  }

  /** Starting payments within their attempts' TTL is enough. */
  lemma {:induction false} TimelyStartsSuffice(world: World, now: int, run: seq<Timed>)
    requires Inv(world.db) && OnlyNewestCounts(world.db, now) && Clocked(now, run) && NeverLapsed(world, run)
    ensures NeverStartsSuperseded(world, run)
    decreases |run|
  {
    if |run| > 0 {
      var at, step := run[0].now, run[0].step;
      NewestInTime(world.db, now, at);
      if StartsSuperseded(world.db, step) {
        SupersededHasLapsed(world, at, step);
        assert false;
      }
      hide Next, Inv, OnlyNewestCounts, StartsSuperseded, StartsLapsed;
      NextKeepsNewest(world, now, at, step);
      NextKeepsInv(world, at, step);
      TimelyStartsSuffice(Next(world, at, step), at, run[1..]);
    }
  }

  // Paid attempts

  /** No superseded attempt has ever been paid. */
  ghost predicate OnlyNewestPaid(intents: seq<PaymentIntent>) {
    forall i, j :: 0 <= i < j < |intents| && intents[i].checkoutId == intents[j].checkoutId ==> !Paid(intents[i])
  }

  predicate PaysSuperseded(db: Tables, now: int, step: Step) {
    exists i | 0 <= i < |db.intents| :: Superseded(db.intents, i) && Pays(db, now, step, i)
  }

  lemma NextPaysOnlyNewest(world: World, now: int, step: Step)
    requires Inv(world.db) && OnlyNewestPaid(world.db.intents)
    ensures OnlyNewestPaid(Next(world, now, step).db.intents) <==> !PaysSuperseded(world.db, now, step)
  {
    hide Next, Pays, Paid, Inv, Evolved, Blocker;
    NextEvolves(world, now, step);
    var a, b := world.db.intents, Next(world, now, step).db.intents;
    assert forall i :: 0 <= i < |a| ==> Evolved(a[i], b[i]);
    if PaysSuperseded(world.db, now, step) {
      var i :| 0 <= i < |a| && Superseded(a, i) && Pays(world.db, now, step, i);
      var j :| i < j < |a| && a[j].checkoutId == a[i].checkoutId;
      NextPays(world, now, step, i);
      SameCheckout(a[i], b[i]);
      SameCheckout(a[j], b[j]);
      assert Paid(b[i]) && b[i].checkoutId == b[j].checkoutId;
    } else {
      forall i, j | 0 <= i < j < |b| && b[i].checkoutId == b[j].checkoutId
        ensures !Paid(b[i])
      {
        StaysUnpaid(world, now, step, i, j);
      }
    }
  }

  lemma SameCheckout(x: PaymentIntent, y: PaymentIntent)
    requires Evolved(x, y)
    ensures y.checkoutId == x.checkoutId
  {
  }

  lemma OneAppended(world: World, now: int, step: Step)
    ensures |Next(world, now, step).db.intents| <= |world.db.intents| + 1
    ensures |Next(world, now, step).db.intents| > |world.db.intents| ==> step.CreateIntent?
  {
  }

  lemma StaysUnpaid(world: World, now: int, step: Step, i: nat, j: nat)
    requires Inv(world.db) && OnlyNewestPaid(world.db.intents) && !PaysSuperseded(world.db, now, step)
    requires i < j < |Next(world, now, step).db.intents|
    requires Next(world, now, step).db.intents[i].checkoutId == Next(world, now, step).db.intents[j].checkoutId
    ensures !Paid(Next(world, now, step).db.intents[i])
  {
    hide Next, Paid, Inv, Evolved, HasKey, Decide, TransitionPayment;
    NextEvolves(world, now, step);
    OneAppended(world, now, step);
    var a, b := world.db.intents, Next(world, now, step).db.intents;
    NextPays(world, now, step, i);
    assert Evolved(a[i], b[i]);
    SameCheckout(a[i], b[i]);
    if j < |a| {
      assert Evolved(a[j], b[j]);
      SameCheckout(a[j], b[j]);
      assert Superseded(a, i);
    } else {
      AppendedAfterBlockers(world, now, step, i);
      if Paid(a[i]) {
        PaidIsVerified(world.db, i);
      }
    }
  }

  predicate NeverPaysSuperseded(world: World, run: seq<Timed>)
    decreases |run|
  {
    |run| > 0 ==>
      !PaysSuperseded(world.db, run[0].now, run[0].step) &&
      NeverPaysSuperseded(Next(world, run[0].now, run[0].step), run[1..])
  }

  lemma PaidSupersededPersists(world: World, run: seq<Timed>)
    requires !OnlyNewestPaid(world.db.intents)
    ensures !OnlyNewestPaid(Run(world, run).db.intents)
  {
    RunEvolves(world, run);
    var a, b := world.db.intents, Run(world, run).db.intents;
    var i, j :| 0 <= i < j < |a| && a[i].checkoutId == a[j].checkoutId && Paid(a[i]);
    assert Evolved(a[i], b[i]) && Evolved(a[j], b[j]);
    var k :| 0 <= k < |a[i].transitions| && a[i].transitions[k].to == Succeeded;
    assert b[i].transitions[k] == a[i].transitions[k];
    hide Run;
    assert Paid(b[i]) && b[i].checkoutId == b[j].checkoutId;
  }

  /**
   * At the end of a run, with any clock and any discipline, no superseded attempt has been paid,
   * exactly when no worker wrote a success on an attempt that already had a newer one.
   */
  lemma {:induction false} RunPaysOnlyNewest(world: World, run: seq<Timed>)
    requires Inv(world.db) && OnlyNewestPaid(world.db.intents)
    ensures OnlyNewestPaid(Run(world, run).db.intents) <==> NeverPaysSuperseded(world, run)
    decreases |run|
  {
    hide Next, Inv, OnlyNewestPaid, PaysSuperseded;
    if |run| > 0 {
      var next := Next(world, run[0].now, run[0].step);
      NextPaysOnlyNewest(world, run[0].now, run[0].step);
      NextKeepsInv(world, run[0].now, run[0].step);
      if OnlyNewestPaid(next.db.intents) {
        RunPaysOnlyNewest(next, run[1..]);
      } else {
        PaidSupersededPersists(next, run[1..]);
      }
    }
  }

  /** Then a released online checkout has, at the end, exactly one attempt ever paid: the newest, by its verified event. */
  lemma ReleasedPaidOnce(world: World, run: seq<Timed>, c: nat)
    requires Inv(world.db) && KitchenSound(world) && OnlyNewestPaid(world.db.intents) && NeverPaysSuperseded(world, run)
    requires c < |Run(world, run).db.checkouts|
    requires Run(world, run).db.checkouts[c].preference == Online
    requires Run(world, run).db.checkouts[c].status in {KitchenEligible, OrderCreated}
    ensures var db := Run(world, run).db;
      exists i :: 0 <= i < |db.intents| && db.intents[i].checkoutId == c && PaidByVerifiedEvent(db, i) &&
        forall j :: 0 <= j < |db.intents| && j != i && db.intents[j].checkoutId == c ==> j < i && !Paid(db.intents[j])
  {
    hide Run, Inv, Paid, PaidByVerifiedEvent, NeverPaysSuperseded;
    RunPaysOnlyNewest(world, run);
    RunKeepsKitchen(world, run);
    var db := Run(world, run).db;
    assert HasPaidAttempt(db, c);
    var i :| 0 <= i < |db.intents| && db.intents[i].checkoutId == c && Paid(db.intents[i]);
    PaidIsVerified(db, i);
  }

  /** When only newest attempts count throughout, no superseded one is ever paid. */
  lemma {:induction false} NewestThroughoutPaysNewest(world: World, now: int, run: seq<Timed>)
    requires Inv(world.db) && NewestThroughout(world, now, run)
    ensures NeverPaysSuperseded(world, run)
    decreases |run|
  {
    hide Next, Inv, PaysSuperseded, Live, Paid;
    if |run| > 0 {
      var next := Next(world, run[0].now, run[0].step);
      NextKeepsInv(world, run[0].now, run[0].step);
      assert OnlyNewestPaid(world.db.intents);
      assert NewestThroughout(next, run[0].now, run[1..]) && OnlyNewestPaid(next.db.intents);
      NextPaysOnlyNewest(world, run[0].now, run[0].step);
      NewestThroughoutPaysNewest(next, run[0].now, run[1..]);
    }
  }
}
