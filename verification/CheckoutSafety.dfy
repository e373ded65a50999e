/** What holds of every run of the checkout protocol: one live attempt, one success, one kitchen release. */
module CheckoutSafety {
  import opened Wrappers
  import opened PaymentLifecycle
  import opened CheckoutTables
  import opened CheckoutPolicy
  import opened CheckoutRepository
  import opened CheckoutProtocol

  /** The attempt could still charge the customer, or has. */
  predicate Live(intent: PaymentIntent, now: int) {
    intent.status in {Pending, UnknownResult, Succeeded} ||
    (intent.status in {Created, LinkReady} && WithinOwnTtl(intent, now))
  }

  ghost predicate AtMostOneLive(db: Tables, now: int) {
    forall i, j :: 0 <= i < j < |db.intents| && db.intents[i].checkoutId == db.intents[j].checkoutId ==>
      !Live(db.intents[i], now) || !Live(db.intents[j], now)
  }

  /** The step starts a payment at the provider. */
  predicate StartsPayment(db: Tables, step: Step) {
    step.Begin? &&
    match BeginProviderPayment(db, step.intentId, step.expectedVersion, step.accountHash)
    case Commit(_, started) => started
    case Abort(_) => false
  }

  /** The attempt being started has outlived its own TTL. */
  predicate StartsLapsed(db: Tables, now: int, step: Step) {
    StartsPayment(db, step) && !WithinOwnTtl(db.intents[step.intentId], now)
  }

  /** ... and another attempt of the checkout is live. */
  predicate StartsLapsedBesideRival(db: Tables, now: int, step: Step) {
    StartsLapsed(db, now, step) &&
    exists j | 0 <= j < |db.intents| ::
      j != step.intentId && db.intents[j].checkoutId == db.intents[step.intentId].checkoutId && Live(db.intents[j], now)
  }

  /** Nothing came alive, and an appended attempt found the checkout's other attempts dead. */
  ghost predicate NothingRevived(a: seq<PaymentIntent>, b: seq<PaymentIntent>, now: int) {
    && |a| <= |b| <= |a| + 1
    && (forall i :: 0 <= i < |a| ==> b[i].checkoutId == a[i].checkoutId && (Live(b[i], now) ==> Live(a[i], now)))
    && (|a| < |b| ==> forall i :: 0 <= i < |a| && a[i].checkoutId == b[|a|].checkoutId ==> !Live(a[i], now))
  }

  lemma CreateIntentRevivesNothing(db: Tables, now: int, c: nat, key: string, expiresAt: int)
    requires KeysUnique(db)
    ensures NothingRevived(db.intents, TablesAfter(db, CreatePaymentIntent(db, now, c, key, expiresAt)).intents, now)
  {
    AttemptsAreTheIntents(db.intents, c);
    var attempts := AttemptsNewestFirst(db.intents, c);
    var outcome := CreatePaymentIntent(db, now, c, key, expiresAt);
    if outcome.Commit? && FindByKey(db.intents, key).None? {
      forall i | 0 <= i < |db.intents| && db.intents[i].checkoutId == c
        ensures !Live(db.intents[i], now)
      {
        assert db.intents[i] in attempts;
        assert Blocker(db.intents[i], now).None?;
      }
    }
  }

  lemma ApplyRevivesNothing(db: Tables, now: int, w: nat, owner: string, seen: PaymentIntent, seenCheckout: CheckoutStatus)
    requires EventsLocated(db)
    ensures NothingRevived(db.intents, ApplyDecision(db, now, w, owner, seen, seenCheckout).intents, now)
  {
  }

  lemma RowStepsReviveNothing(db: Tables, now: int, step: Step)
    requires step.CreateLink? || step.Bind? || step.MarkUnknown?
    ensures NothingRevived(db.intents, Next(World(db, {}), now, step).db.intents, now)
  {
  }

  predicate TouchesIntents(step: Step) {
    step.CreateIntent? || step.CreateLink? || step.Begin? || step.Bind? || step.MarkUnknown? || step.Apply?
  }

  lemma QuietSteps(world: World, now: int, step: Step)
    requires !TouchesIntents(step) || (step.Begin? && !StartsPayment(world.db, step))
    ensures Next(world, now, step).db.intents == world.db.intents
  {
  }

  /** Only starting a payment can make an attempt live again. */
  lemma OthersReviveNothing(world: World, now: int, step: Step)
    requires KeysUnique(world.db) && EventsLocated(world.db) && !StartsPayment(world.db, step)
    ensures NothingRevived(world.db.intents, Next(world, now, step).db.intents, now)
  {
    var db := world.db;
    match step
    case CreateIntent(c, key, expiresAt) => CreateIntentRevivesNothing(db, now, c, key, expiresAt);
    case Apply(w, owner, seen, seenCheckout) => ApplyRevivesNothing(db, now, w, owner, seen, seenCheckout);
    case CreateLink(_, _) => RowStepsReviveNothing(db, now, step);
    case Bind(_, _) => RowStepsReviveNothing(db, now, step);
    case MarkUnknown(_) => RowStepsReviveNothing(db, now, step);
    case _ => QuietSteps(world, now, step);
  }

  lemma StartUnique(world: World, now: int, step: Step)
    requires StartsPayment(world.db, step) && AtMostOneLive(world.db, now)
    ensures AtMostOneLive(Next(world, now, step).db, now) <==> !StartsLapsedBesideRival(world.db, now, step)
  {
    var i := step.intentId;
    var a, b := world.db.intents, Next(world, now, step).db.intents;
    assert b == a[i := b[i]] && b[i].status == Pending && b[i].checkoutId == a[i].checkoutId;
    if StartsLapsedBesideRival(world.db, now, step) {
      var j :| 0 <= j < |a| && j != i && a[j].checkoutId == a[i].checkoutId && Live(a[j], now);
      var low, high := if i < j then i else j, if i < j then j else i;
      assert Live(b[low], now) && Live(b[high], now) && b[low].checkoutId == b[high].checkoutId;
    } else {
      forall k, l | 0 <= k < l < |b| && b[k].checkoutId == b[l].checkoutId
        ensures !Live(b[k], now) || !Live(b[l], now)
      {
        assert !Live(a[k], now) || !Live(a[l], now);
        assert k != i && l != i ==> b[k] == a[k] && b[l] == a[l];
      }
    }
  }

  /** One step keeps "at most one live attempt" exactly when it does not start a lapsed attempt beside a live one. */
  lemma NextUnique(world: World, before: int, now: int, step: Step)
    requires Inv(world.db) && AtMostOneLive(world.db, before) && before <= now
    ensures AtMostOneLive(Next(world, now, step).db, now) <==> !StartsLapsedBesideRival(world.db, now, step)
  {
    TimeKillsOnly(world.db, before, now);
    if StartsPayment(world.db, step) {
      StartUnique(world, now, step);
    } else {
      OthersReviveNothing(world, now, step);
      AppendedStaysUnique(world.db, Next(world, now, step).db, now);
    }
  }

  lemma TimeKillsOnly(db: Tables, before: int, now: int)
    requires AtMostOneLive(db, before) && before <= now
    ensures AtMostOneLive(db, now)
  {
    forall i, j | 0 <= i < j < |db.intents| && db.intents[i].checkoutId == db.intents[j].checkoutId
      ensures !Live(db.intents[i], now) || !Live(db.intents[j], now)
    {
      assert !Live(db.intents[i], before) || !Live(db.intents[j], before);
    }
  }

  lemma AppendedStaysUnique(a: Tables, b: Tables, now: int)
    requires AtMostOneLive(a, now) && NothingRevived(a.intents, b.intents, now)
    ensures AtMostOneLive(b, now)
  {
    forall i, j | 0 <= i < j < |b.intents| && b.intents[i].checkoutId == b.intents[j].checkoutId
      ensures !Live(b.intents[i], now) || !Live(b.intents[j], now)
    {
      if j < |a.intents| {
        assert !Live(a.intents[i], now) || !Live(a.intents[j], now);
      }
    }
  }

  ghost predicate UniqueThroughout(world: World, now: int, run: seq<Timed>)
    decreases |run|
  {
    AtMostOneLive(world.db, now) &&
    (|run| > 0 ==> UniqueThroughout(Next(world, run[0].now, run[0].step), run[0].now, run[1..]))
  }

  predicate NeverBesideRival(world: World, run: seq<Timed>)
    decreases |run|
  {
    |run| > 0 ==>
      !StartsLapsedBesideRival(world.db, run[0].now, run[0].step) &&
      NeverBesideRival(Next(world, run[0].now, run[0].step), run[1..])
  }

  /**
   * Over any interleaving, a checkout never has two live attempts exactly when no payment is
   * started on an attempt past its own TTL while another attempt of the checkout is live.
   */
  lemma {:induction false} RunUnique(world: World, now: int, run: seq<Timed>)
    requires Inv(world.db) && AtMostOneLive(world.db, now) && Clocked(now, run)
    ensures UniqueThroughout(world, now, run) <==> NeverBesideRival(world, run)
    decreases |run|
  {
    if |run| > 0 {
      var next := Next(world, run[0].now, run[0].step);
      NextUnique(world, now, run[0].now, run[0].step);
      NextKeepsInv(world, run[0].now, run[0].step);
      if AtMostOneLive(next.db, run[0].now) {
        RunUnique(next, run[0].now, run[1..]);
      }
    }
  }

  // Consequences of having at most one live attempt

  /** How many of the given attempts succeeded, against the rows themselves. */
  lemma {:induction false} SuccessesAreLive(intents: seq<PaymentIntent>, c: nat, now: int)
    requires forall i, j :: 0 <= i < j < |intents| && intents[i].checkoutId == intents[j].checkoutId ==>
               !Live(intents[i], now) || !Live(intents[j], now)
    ensures CountSucceeded(AttemptsNewestFirst(intents, c)) <= 1
    ensures CountSucceeded(AttemptsNewestFirst(intents, c)) == 0 <==>
            forall x :: x in intents && x.checkoutId == c ==> x.status != Succeeded
  {
    if |intents| > 0 {
      var n := |intents| - 1;
      var earlier := AttemptsNewestFirst(intents[..n], c);
      SuccessesAreLive(intents[..n], c, now);
      assert intents == intents[..n] + [intents[n]];
      if intents[n].checkoutId == c {
        assert AttemptsNewestFirst(intents, c)[1..] == earlier;
        if intents[n].status == Succeeded {
          assert Live(intents[n], now);
          forall x | x in intents[..n] && x.checkoutId == c
            ensures x.status != Succeeded
          {
            var k :| 0 <= k < n && intents[k] == x;
            assert !Live(intents[k], now);
          }
        }
      }
    }
  }

  /** The branch for more than one successful payment is never taken. */
  lemma AtMostOneSuccess(db: Tables, c: nat, now: int)
    requires AtMostOneLive(db, now)
    ensures SuccessfulPaymentCount(db, c) <= 1
  {
    SuccessesAreLive(db.intents, c, now);
  }

  // Rows only move forward

  /** `later` is what became of the row `earlier`: identity and price fixed, history extended, version raised. */
  ghost predicate Evolved(earlier: PaymentIntent, later: PaymentIntent) {
    && later.checkoutId == earlier.checkoutId
    && later.idempotencyKey == earlier.idempotencyKey
    && later.attemptNumber == earlier.attemptNumber
    && later.amount == earlier.amount
    && later.currency == earlier.currency
    && later.expiresAt == earlier.expiresAt
    && earlier.transitions <= later.transitions
    && PossibleRead(earlier, later)
  }

  ghost predicate AllEvolved(a: seq<PaymentIntent>, b: seq<PaymentIntent>) {
    |a| <= |b| && forall i :: 0 <= i < |a| ==> Evolved(a[i], b[i])
  }

  lemma AppliedEvolves(db: Tables, now: int, w: nat, owner: string, seen: PaymentIntent, seenCheckout: CheckoutStatus, i: nat)
    requires i < |db.intents|
    ensures var b := ApplyDecision(db, now, w, owner, seen, seenCheckout);
      |b.intents| == |db.intents| && Evolved(db.intents[i], b.intents[i])
  {
    if ApplyDecision(db, now, w, owner, seen, seenCheckout) != db {
      hide ApplyDecision, Decide, HasKey, CanTransition;
      AppliedIs(db, now, w, owner, seen, seenCheckout);
    }
  }

  lemma CreatedEvolves(db: Tables, now: int, c: nat, key: string, expiresAt: int, i: nat)
    requires i < |db.intents|
    ensures var b := TablesAfter(db, CreatePaymentIntent(db, now, c, key, expiresAt));
      i < |b.intents| && Evolved(db.intents[i], b.intents[i])
  {
    hide RelinkVerdict, FindByKey, AttemptsNewestFirst;
  }

  lemma RowStepEvolves(world: World, now: int, step: Step, i: nat)
    requires i < |world.db.intents| && (step.CreateLink? || step.Begin? || step.Bind? || step.MarkUnknown?)
    ensures i < |Next(world, now, step).db.intents|
    ensures Evolved(world.db.intents[i], Next(world, now, step).db.intents[i])
  {
    hide HasKey, CanTransition, FindActiveLink;
  }

  lemma NextEvolvesRow(world: World, now: int, step: Step, i: nat)
    requires i < |world.db.intents|
    ensures i < |Next(world, now, step).db.intents|
    ensures Evolved(world.db.intents[i], Next(world, now, step).db.intents[i])
  {
    match step
    case CreateIntent(c, key, expiresAt) => CreatedEvolves(world.db, now, c, key, expiresAt, i);
    case Apply(w, owner, seen, seenCheckout) => AppliedEvolves(world.db, now, w, owner, seen, seenCheckout, i);
    case CreateLink(_, _) => RowStepEvolves(world, now, step, i);
    case Begin(_, _, _) => RowStepEvolves(world, now, step, i);
    case Bind(_, _) => RowStepEvolves(world, now, step, i);
    case MarkUnknown(_) => RowStepEvolves(world, now, step, i);
    case _ => QuietSteps(world, now, step);
  }

  lemma NextKeepsRows(world: World, now: int, step: Step)
    ensures |world.db.intents| <= |Next(world, now, step).db.intents|
  {
  }

  lemma NextEvolves(world: World, now: int, step: Step)
    ensures AllEvolved(world.db.intents, Next(world, now, step).db.intents)
  {
    hide Next, Evolved;
    NextKeepsRows(world, now, step);
    forall i | 0 <= i < |world.db.intents|
      ensures Evolved(world.db.intents[i], Next(world, now, step).db.intents[i])
    {
      NextEvolvesRow(world, now, step, i);
    }
  }

  /** So whatever a client read earlier in a run is a possible read later in it. */
  lemma {:induction false} RunEvolves(world: World, run: seq<Timed>)
    ensures AllEvolved(world.db.intents, Run(world, run).db.intents)
    decreases |run|
  {
    if |run| > 0 {
      NextEvolves(world, run[0].now, run[0].step);
      RunEvolves(Next(world, run[0].now, run[0].step), run[1..]);
    }
  }

  ghost predicate CheckoutsKept(a: seq<Checkout>, b: seq<Checkout>) {
    |a| <= |b| && forall c :: 0 <= c < |a| ==>
      b[c].total == a[c].total && b[c].currency == a[c].currency &&
      b[c].fulfillment == a[c].fulfillment && b[c].preference == a[c].preference
  }

  lemma NextKeepsCheckouts(world: World, now: int, step: Step)
    ensures CheckoutsKept(world.db.checkouts, Next(world, now, step).db.checkouts)
  {
    if TouchesIntents(step) && !step.CreateIntent? {
      assert Next(world, now, step).db.checkouts == world.db.checkouts;
    }
  }

  lemma {:induction false} RunKeepsCheckouts(world: World, run: seq<Timed>)
    ensures CheckoutsKept(world.db.checkouts, Run(world, run).db.checkouts)
    decreases |run|
  {
    if |run| > 0 {
      NextKeepsCheckouts(world, run[0].now, run[0].step);
      RunKeepsCheckouts(Next(world, run[0].now, run[0].step), run[1..]);
    }
  }

  /** Row `i` answers the command `key` of checkout `c`. */
  ghost predicate Answers(db: Tables, i: nat, c: nat, key: string) {
    && i < |db.intents| && c < |db.checkouts|
    && db.intents[i].checkoutId == c && db.intents[i].idempotencyKey == key
    && db.intents[i].amount == db.checkouts[c].total && db.intents[i].currency == db.checkouts[c].currency
  }

  lemma AcceptedIsAnswered(db: Tables, now: int, c: nat, key: string, expiresAt: int)
    requires CreatePaymentIntent(db, now, c, key, expiresAt).Commit?
    ensures var first := CreatePaymentIntent(db, now, c, key, expiresAt);
      Answers(first.tables, first.value, c, key)
  {
  }

  lemma AnsweredIsReplayed(db: Tables, i: nat, now: int, c: nat, key: string, expiresAt: int)
    requires KeysUnique(db) && Answers(db, i, c, key)
    ensures CreatePaymentIntent(db, now, c, key, expiresAt) == Commit(db, i)
  {
    AttemptsAreTheIntents(db.intents, c);
    assert db.intents[i] in AttemptsNewestFirst(db.intents, c);
    assert FindByKey(db.intents, key) == Some(i);
  }

  lemma AnswersPersist(world: World, run: seq<Timed>, i: nat, c: nat, key: string)
    requires Answers(world.db, i, c, key)
    ensures Answers(Run(world, run).db, i, c, key)
  {
    RunEvolves(world, run);
    RunKeepsCheckouts(world, run);
    assert Evolved(world.db.intents[i], Run(world, run).db.intents[i]);
  }

  /**
   * One idempotency key never yields two intents: once a command has been accepted, repeating it
   * after any run returns the same intent and changes nothing, even if the checkout has expired.
   */
  lemma ReplayReturnsSameIntent(world: World, now: int, c: nat, key: string, expiresAt: int,
                                run: seq<Timed>, later: int, laterExpiresAt: int)
    requires Inv(world.db)
    requires CreatePaymentIntent(world.db, now, c, key, expiresAt).Commit?
    ensures var first := CreatePaymentIntent(world.db, now, c, key, expiresAt);
            var afterwards := Run(World(first.tables, world.approved), run).db;
            CreatePaymentIntent(afterwards, later, c, key, laterExpiresAt) == Commit(afterwards, first.value)
  {
    var first := CreatePaymentIntent(world.db, now, c, key, expiresAt);
    var start := World(first.tables, world.approved);
    AcceptedIsAnswered(world.db, now, c, key, expiresAt);
    CreateIntentKeeps(world.db, now, c, key, expiresAt);
    RunKeepsInv(start, run);
    AnswersPersist(start, run, first.value, c, key);
    AnsweredIsReplayed(Run(start, run).db, first.value, later, c, key, laterExpiresAt);
  }

  /** An event is behind at most one transition of one intent, whatever its workers do and repeat. */
  lemma OneTransitionPerEvent(db: Tables, w: nat, i: nat, k: nat, j: nat, l: nat)
    requires Inv(db)
    requires i < |db.intents| && k < |db.intents[i].transitions| && db.intents[i].transitions[k].event == Some(w)
    requires j < |db.intents| && l < |db.intents[j].transitions| && db.intents[j].transitions[l].event == Some(w)
    ensures i == j && k == l
  {
    assert IntentSound(db.intents[i], i, db) && IntentSound(db.intents[j], j, db);
    assert TransitionBacked(db.intents[i].transitions[k], db.intents[i], i, db.events);
    assert TransitionBacked(db.intents[j].transitions[l], db.intents[j], j, db.events);
  }

  /** Every history is a walk of the lifecycle table: at most six entries, no status twice. */
  lemma HistoriesAreShort(db: Tables, i: nat)
    requires Inv(db) && i < |db.intents|
    ensures var t := db.intents[i].transitions;
      |t| <= 6 && forall k, l :: 0 <= k < l < |t| ==> t[k].to != t[l].to
  {
    assert IntentSound(db.intents[i], i, db);
    WalkIsFinite(Statuses(db.intents[i].transitions));
  }

  ghost function Statuses(t: seq<PaymentTransition>): (path: seq<PaymentIntentStatus>)
    ensures |path| == |t| && forall k :: 0 <= k < |t| ==> path[k] == t[k].to
  {
    seq(|t|, k requires 0 <= k < |t| => t[k].to)
  }

  // When callers keep two rules, the condition of RunUnique always holds

  /** Every link expires no later than its intent. */
  ghost predicate LinksNested(db: Tables) {
    forall k :: 0 <= k < |db.links| ==>
      db.links[k].intentId < |db.intents| && db.intents[db.links[k].intentId].expiresAt.Some? &&
      db.links[k].expiresAt <= db.intents[db.links[k].intentId].expiresAt.value
  }

  /** A link is created within its intent's TTL, and a payment is started while its link is still usable. */
  predicate Disciplined(db: Tables, now: int, step: Step) {
    && (step.CreateLink? && step.intentId < |db.intents| ==>
          db.intents[step.intentId].expiresAt.Some? && step.linkExpiresAt <= db.intents[step.intentId].expiresAt.value)
    && (step.Begin? ==> FindActiveLink(db.links, step.intentId, now).Some?)
  }

  predicate AllDisciplined(world: World, run: seq<Timed>)
    decreases |run|
  {
    |run| > 0 ==>
      Disciplined(world.db, run[0].now, run[0].step) &&
      AllDisciplined(Next(world, run[0].now, run[0].step), run[1..])
  }

  predicate NeverLapsed(world: World, run: seq<Timed>)
    decreases |run|
  {
    |run| > 0 ==>
      !StartsLapsed(world.db, run[0].now, run[0].step) &&
      NeverLapsed(Next(world, run[0].now, run[0].step), run[1..])
  }

  /** Links keep their intent and expiry; a new one is the one asked for. */
  lemma NextLinks(world: World, now: int, step: Step, k: nat)
    requires k < |Next(world, now, step).db.links|
    ensures var link := Next(world, now, step).db.links[k];
      (k < |world.db.links| && link.intentId == world.db.links[k].intentId && link.expiresAt == world.db.links[k].expiresAt) ||
      (step.CreateLink? && step.intentId < |world.db.intents| &&
       link.intentId == step.intentId && link.expiresAt == step.linkExpiresAt)
  {
  }

  lemma NextKeepsNested(world: World, now: int, step: Step)
    requires LinksNested(world.db) && Disciplined(world.db, now, step)
    ensures LinksNested(Next(world, now, step).db)
  {
    hide Next, FindActiveLink;
    NextEvolves(world, now, step);
    var a, b := world.db, Next(world, now, step).db;
    forall k | 0 <= k < |b.links|
      ensures b.links[k].intentId < |b.intents| && b.intents[b.links[k].intentId].expiresAt.Some? &&
              b.links[k].expiresAt <= b.intents[b.links[k].intentId].expiresAt.value
    {
      NextLinks(world, now, step, k);
      assert Evolved(a.intents[b.links[k].intentId], b.intents[b.links[k].intentId]);
    }
  }

  lemma {:induction false} DisciplineSuffices(world: World, run: seq<Timed>)
    requires LinksNested(world.db) && AllDisciplined(world, run)
    ensures NeverLapsed(world, run) && NeverBesideRival(world, run)
    decreases |run|
  {
    if |run| > 0 {
      NextKeepsNested(world, run[0].now, run[0].step);
      DisciplineSuffices(Next(world, run[0].now, run[0].step), run[1..]);
    }
  }

  /** Callers that keep both rules never face two live attempts, whatever the interleaving. */
  lemma DisciplinedRunsAreSafe(world: World, now: int, run: seq<Timed>)
    requires Inv(world.db) && LinksNested(world.db) && AtMostOneLive(world.db, now)
    requires Clocked(now, run) && AllDisciplined(world, run)
    ensures UniqueThroughout(world, now, run)
  {
    DisciplineSuffices(world, run);
    RunUnique(world, now, run);
  }

  lemma StartIsSafe(now: int)
    ensures Inv(START.db) && LinksNested(START.db) && AtMostOneLive(START.db, now)
  {
  }
}
