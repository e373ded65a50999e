/**
 * Every interleaving of the checkout's transactions. A step is one transaction by some client;
 * what a client read earlier and passes on is a parameter, so stale reads are included.
 */
module CheckoutProtocol {
  import opened Wrappers
  import opened PaymentLifecycle
  import opened CheckoutTables
  import opened CheckoutPolicy
  import opened CheckoutRepository

  /** The tables, and the checkouts for which some kitchen evaluation has answered yes. */
  datatype World = World(db: Tables, approved: set<nat>)

  datatype Step =
    | OpenCheckout(checkout: Checkout)
    | CreateIntent(checkoutId: nat, key: string, expiresAt: int)
    | CreateLink(intentId: nat, linkExpiresAt: int)
    | OpenLink(linkId: nat)
    | Begin(intentId: nat, expectedVersion: nat, accountHash: Option<string>)
    | Bind(intentId: nat, paymentId: string)
    | MarkUnknown(intentId: nat)
    | Receive(evidence: Evidence, located: Option<nat>, owner: string, until: int)
    | Recover(w: nat, owner: string, until: int)
    | Checkpoint(w: nat, owner: string, checkpoint: CheckoutTables.Checkpoint)
    | Renew(w: nat, owner: string, until: int)
    | Apply(w: nat, owner: string, seen: PaymentIntent, seenCheckout: CheckoutStatus)
    | Complete(w: nat, owner: string, result: WebhookResult)
    | Fail(w: nat, owner: string, error: CheckoutError, retryable: bool)
    | Verify(checkoutId: nat)
    | RequireReview(checkoutId: nat)
    | Evaluate(checkoutId: nat)
    | Kitchen(checkoutId: nat)
    | Order(checkoutId: nat)
    | Close(checkoutId: nat, closedAs: CheckoutStatus)

  function TablesAfter<T>(db: Tables, outcome: Outcome<T>): Tables {
    match outcome
    case Commit(after, _) => after
    case Abort(_) => db
  }

  /** `seen` could have been read from the row that now holds `current`: every write raises the version. */
  predicate PossibleRead(seen: PaymentIntent, current: PaymentIntent) {
    seen.version <= current.version && (seen.version == current.version ==> seen == current)
  }

  /** The webhook worker's transaction: none when the decision asks for the status it saw. */
  function ApplyDecision(db: Tables, now: int, w: nat, owner: string, seen: PaymentIntent, seenCheckout: CheckoutStatus): Tables {
    if w < |db.events| && db.events[w].intentId.Some? && db.events[w].intentId.value < |db.intents| &&
       PossibleRead(seen, db.intents[db.events[w].intentId.value])
    then
      var next := Decide(db.events[w].evidence, seen, seenCheckout).next;
      if seen.status == next then db
      else TablesAfter(db, TransitionPayment(db, now, w, owner, db.events[w].intentId.value, seen.version, next))
    else db
  }

  function Next(world: World, now: int, step: Step): World {
    var db := world.db;
    match step
    case OpenCheckout(checkout) =>
      if checkout.status == Confirmed && ValidCombination(checkout.fulfillment, checkout.preference)
      then world.(db := db.(checkouts := db.checkouts + [checkout])) else world
    case CreateIntent(c, key, expiresAt) =>
      if c < |db.checkouts| && db.checkouts[c].preference == Online
      then world.(db := TablesAfter(db, CreatePaymentIntent(db, now, c, key, expiresAt))) else world
    case CreateLink(i, expiresAt) => world.(db := TablesAfter(db, CreatePaymentLink(db, now, i, expiresAt)))
    case OpenLink(k) => world.(db := TablesAfter(db, MarkPaymentLinkOpened(db, k)))
    case Begin(i, version, account) => world.(db := TablesAfter(db, BeginProviderPayment(db, i, version, account)))
    case Bind(i, paymentId) => world.(db := TablesAfter(db, BindProviderPaymentResult(db, i, paymentId)))
    case MarkUnknown(i) => world.(db := TablesAfter(db, MarkProviderPaymentUnknown(db, i)))
    case Receive(evidence, located, owner, until) =>
      if located.Some? ==> located.value < |db.intents| && Located(db.intents[located.value])
      then world.(db := ClaimWebhookEvidence(db, now, evidence, located, owner, until).0) else world
    case Recover(w, owner, until) => world.(db := ClaimRecoverableWebhook(db, now, w, owner, until).0)
    case Checkpoint(w, owner, checkpoint) => world.(db := TablesAfter(db, AdvanceWebhookCheckpoint(db, now, w, owner, checkpoint)))
    case Renew(w, owner, until) => world.(db := TablesAfter(db, RenewWebhookClaim(db, now, w, owner, until)))
    case Apply(w, owner, seen, seenCheckout) => world.(db := ApplyDecision(db, now, w, owner, seen, seenCheckout))
    case Complete(w, owner, result) => world.(db := TablesAfter(db, CompleteWebhookClaim(db, now, w, owner, result)))
    case Fail(w, owner, error, retryable) => world.(db := TablesAfter(db, FailWebhookClaim(db, now, w, owner, error, retryable)))
    case Verify(c) => world.(db := TablesAfter(db, MarkCheckoutPaymentVerified(db, c)))
    case RequireReview(c) => world.(db := TablesAfter(db, MarkFinancialReview(db, c)))
    case Evaluate(c) =>
      if EvaluateKitchen(db, c) == Success(true) then world.(approved := world.approved + {c}) else world
    case Kitchen(c) =>
      if c in world.approved then world.(db := TablesAfter(db, MarkKitchenEligible(db, c))) else world
    case Order(c) => world.(db := TablesAfter(db, AttachOrder(db, c)))
    case Close(c, closedAs) =>
      if c < |db.checkouts| && closedAs in {CheckoutCancelled, CheckoutExpired}
      then world.(db := PutCheckout(db, c, db.checkouts[c].(status := closedAs))) else world
  }

  datatype Timed = At(now: int, step: Step)

  const START: World := World(Tables([], [], [], []), {})

  /** The world after a run of steps. */
  function Run(world: World, run: seq<Timed>): World
    decreases |run|
  {
    if |run| == 0 then world
    else Run(Next(world, run[0].now, run[0].step), run[1..])
  }

  /** The clock never goes back. */
  predicate Clocked(from: int, run: seq<Timed>) {
    && (forall k | 0 <= k < |run| :: from <= run[k].now)
    && (forall j, k | 0 <= j < k < |run| :: run[j].now <= run[k].now)
  }

  // What every reachable world satisfies

  predicate Begun(intent: PaymentIntent) {
    intent.status !in {Created, LinkReady}
  }

  /** The history starts at CREATED, follows the table, and ends in the row's status. */
  ghost predicate HistorySound(intent: PaymentIntent) {
    var t := intent.transitions;
    && |t| > 0
    && t[0] == PaymentTransition(None, Created, CreationKey(intent.idempotencyKey), None)
    && (forall k :: 0 < k < |t| ==> t[k].from == Some(t[k - 1].to) && CanTransition(t[k - 1].to, t[k].to))
    && t[|t| - 1].to == intent.status
    && (forall k, l :: 0 <= k < l < |t| ==> t[k].key != t[l].key)
  }

  /** A transition caused by an event belongs to the intent's own event; a success was verified by it. */
  ghost predicate TransitionBacked(t: PaymentTransition, intent: PaymentIntent, i: nat, events: seq<WebhookEvent>) {
    && (t.to == Succeeded || t.key.WebhookEventKey? || t.key.WebhookHashKey? ==> t.event.Some?)
    && (t.key == UnknownResultKey ==> t.to == UnknownResult)
    && (t.key == ProviderRequestedKey ==> t.to == Pending)
    && (t.event.Some? ==>
          && t.event.value < |events|
          && events[t.event.value].intentId == Some(i)
          && t.key == EventKey(events[t.event.value].evidence)
          && (t.to == Succeeded ==> Verifies(events[t.event.value].evidence, intent)))
  }

  ghost predicate IntentSound(intent: PaymentIntent, i: nat, db: Tables) {
    && intent.checkoutId < |db.checkouts|
    && HistorySound(intent)
    && (!Begun(intent) ==> !Located(intent) && intent.accountHash.None?)
    && (forall t :: t in intent.transitions ==> TransitionBacked(t, intent, i, db.events))
  }

  ghost predicate IntentsSound(db: Tables) {
    forall i :: 0 <= i < |db.intents| ==> IntentSound(db.intents[i], i, db)
  }

  ghost predicate KeysUnique(db: Tables) {
    forall i, j :: 0 <= i < j < |db.intents| ==> db.intents[i].idempotencyKey != db.intents[j].idempotencyKey
  }

  /** Attempt numbers count the attempts of a checkout in creation order. */
  ghost predicate AttemptsNumbered(db: Tables) {
    forall i :: 0 <= i < |db.intents| ==>
      db.intents[i].attemptNumber == |AttemptsNewestFirst(db.intents[..i], db.intents[i].checkoutId)| + 1
  }

  /** An event points only at an intent whose payment has begun. */
  ghost predicate EventsLocated(db: Tables) {
    forall w :: 0 <= w < |db.events| && db.events[w].intentId.Some? ==>
      db.events[w].intentId.value < |db.intents| && Begun(db.intents[db.events[w].intentId.value])
  }

  ghost predicate Inv(db: Tables) {
    IntentsSound(db) && KeysUnique(db) && AttemptsNumbered(db) && EventsLocated(db)
  }

  // The shapes of change a step can make

  /** Events keep their evidence and, once set, their intent; rows are only appended. */
  ghost predicate EventsKept(a: seq<WebhookEvent>, b: seq<WebhookEvent>) {
    && |a| <= |b|
    && forall w :: 0 <= w < |a| ==>
         b[w].evidence == a[w].evidence && (a[w].intentId.Some? ==> b[w].intentId == a[w].intentId)
  }

  lemma IntentSoundKept(intent: PaymentIntent, i: nat, a: Tables, b: Tables)
    requires IntentSound(intent, i, a)
    requires EventsKept(a.events, b.events) && |a.checkouts| <= |b.checkouts|
    ensures IntentSound(intent, i, b)
  {
    forall t | t in intent.transitions
      ensures TransitionBacked(t, intent, i, b.events)
    {
      assert TransitionBacked(t, intent, i, a.events);
    }
  }

  lemma {:induction false} SameCheckoutsSameCount(a: seq<PaymentIntent>, b: seq<PaymentIntent>, c: nat)
    requires |a| == |b|
    requires forall k :: 0 <= k < |a| ==> a[k].checkoutId == b[k].checkoutId
    ensures |AttemptsNewestFirst(a, c)| == |AttemptsNewestFirst(b, c)|
  {
    if |a| > 0 {
      SameCheckoutsSameCount(a[..|a| - 1], b[..|b| - 1], c);
    }
  }

  /** Nothing but events, links and checkouts changed. */
  lemma InvFrame(a: Tables, b: Tables)
    requires Inv(a) && b.intents == a.intents
    requires EventsKept(a.events, b.events) && |a.checkouts| <= |b.checkouts|
    requires EventsLocated(b)
    ensures Inv(b)
  {
    forall i | 0 <= i < |b.intents|
      ensures IntentSound(b.intents[i], i, b)
    {
      IntentSoundKept(b.intents[i], i, a, b);
    }
  }

  lemma IntentsSoundPut(a: Tables, i: nat, x: PaymentIntent)
    requires IntentsSound(a) && i < |a.intents| && IntentSound(x, i, a)
    ensures IntentsSound(PutIntent(a, i, x))
  {
    var b := PutIntent(a, i, x);
    forall j | 0 <= j < |b.intents|
      ensures IntentSound(b.intents[j], j, b)
    {
      var y := b.intents[j];
      assert y == if j == i then x else a.intents[j];
      IntentSoundKept(y, j, a, b);
    }
  }

  lemma AttemptsNumberedPut(a: Tables, i: nat, x: PaymentIntent)
    requires AttemptsNumbered(a) && i < |a.intents|
    requires x.checkoutId == a.intents[i].checkoutId && x.attemptNumber == a.intents[i].attemptNumber
    ensures AttemptsNumbered(PutIntent(a, i, x))
  {
    var b := PutIntent(a, i, x);
    forall j | 0 <= j < |b.intents|
      ensures b.intents[j].attemptNumber == |AttemptsNewestFirst(b.intents[..j], b.intents[j].checkoutId)| + 1
    {
      SameCheckoutsSameCount(a.intents[..j], b.intents[..j], b.intents[j].checkoutId);
    }
  }

  /** One intent row was rewritten. */
  lemma InvPut(a: Tables, i: nat, x: PaymentIntent)
    requires Inv(a) && i < |a.intents|
    requires x.checkoutId == a.intents[i].checkoutId && x.idempotencyKey == a.intents[i].idempotencyKey
    requires x.attemptNumber == a.intents[i].attemptNumber
    requires IntentSound(x, i, a)
    requires Begun(a.intents[i]) ==> Begun(x)
    ensures Inv(PutIntent(a, i, x))
  {
    IntentsSoundPut(a, i, x);
    AttemptsNumberedPut(a, i, x);
  }

  lemma AdvanceSound(db: Tables, i: nat, to: PaymentIntentStatus, key: TransitionKey, event: Option<nat>, x: PaymentIntent)
    requires i < |db.intents| && IntentSound(db.intents[i], i, db)
    requires CanTransition(db.intents[i].status, to)
    requires !HasKey(db.intents[i], key)
    requires x == Advance(db.intents[i], to, key, event)
                  .(providerReference := x.providerReference, providerPaymentId := x.providerPaymentId, accountHash := x.accountHash)
    requires x.accountHash == db.intents[i].accountHash || db.intents[i].accountHash.None?
    requires !Begun(x) ==> !Located(x) && x.accountHash.None?
    requires TransitionBacked(PaymentTransition(Some(db.intents[i].status), to, key, event), x, i, db.events)
    ensures IntentSound(x, i, db)
  {
    var before := db.intents[i];
    forall t | t in x.transitions
      ensures TransitionBacked(t, x, i, db.events)
    {
      if t in before.transitions {
        assert TransitionBacked(t, before, i, db.events);
      }
    }
  }

  // Each transaction keeps the invariant

  /** One event row was rewritten, keeping its evidence and any intent it had. */
  lemma InvPutEvent(a: Tables, w: nat, event: WebhookEvent)
    requires Inv(a) && w < |a.events|
    requires event.evidence == a.events[w].evidence
    requires event.intentId == a.events[w].intentId ||
             (a.events[w].intentId.None? && event.intentId.Some? &&
              event.intentId.value < |a.intents| && Begun(a.intents[event.intentId.value]))
    ensures Inv(PutEvent(a, w, event))
  {
    var b := PutEvent(a, w, event);
    forall v | 0 <= v < |b.events| && b.events[v].intentId.Some?
      ensures b.events[v].intentId.value < |b.intents| && Begun(b.intents[b.events[v].intentId.value])
    {
      assert v != w ==> b.events[v] == a.events[v];
    }
    InvFrame(a, b);
  }

  /** One intent row was appended. */
  lemma InvAppendIntent(a: Tables, x: PaymentIntent)
    requires Inv(a)
    requires forall i :: 0 <= i < |a.intents| ==> a.intents[i].idempotencyKey != x.idempotencyKey
    requires x.attemptNumber == |AttemptsNewestFirst(a.intents, x.checkoutId)| + 1
    requires IntentSound(x, |a.intents|, a)
    ensures Inv(a.(intents := a.intents + [x]))
  {
    hide HistorySound, TransitionBacked, AttemptsNewestFirst, AttemptsNumbered;
    var b := a.(intents := a.intents + [x]);
    forall i | 0 <= i < |b.intents|
      ensures IntentSound(b.intents[i], i, b)
    {
      IntentSoundKept(b.intents[i], i, a, b);
    }
    AttemptsNumberedAppend(a, x);
  }

  lemma AttemptsNumberedAppend(a: Tables, x: PaymentIntent)
    requires AttemptsNumbered(a)
    requires x.attemptNumber == |AttemptsNewestFirst(a.intents, x.checkoutId)| + 1
    ensures AttemptsNumbered(a.(intents := a.intents + [x]))
  {
    var b := a.intents + [x];
    forall i | 0 <= i < |b|
      ensures b[i].attemptNumber == |AttemptsNewestFirst(b[..i], b[i].checkoutId)| + 1
    {
      assert b[..i] == a.intents[..i];
      assert a.intents[..|a.intents|] == a.intents;
    }
  }

  /** A new attempt: its row is sound, its key is new, and it is numbered after the checkout's others. */
  lemma CreatedIntentIs(db: Tables, now: int, c: nat, key: string, expiresAt: int) returns (x: PaymentIntent)
    requires CreatePaymentIntent(db, now, c, key, expiresAt).Commit? && FindByKey(db.intents, key).None?
    ensures var after := CreatePaymentIntent(db, now, c, key, expiresAt).tables;
      after.intents == db.intents + [x] && after.events == db.events && |after.checkouts| == |db.checkouts|
    ensures forall i :: 0 <= i < |db.intents| ==> db.intents[i].idempotencyKey != x.idempotencyKey
    ensures x.attemptNumber == |AttemptsNewestFirst(db.intents, x.checkoutId)| + 1
    ensures IntentSound(x, |db.intents|, db)
  {
    x := CreatePaymentIntent(db, now, c, key, expiresAt).tables.intents[|db.intents|];
    assert x.transitions == [PaymentTransition(None, Created, CreationKey(key), None)];
  }

  lemma CreateIntentKeeps(db: Tables, now: int, c: nat, key: string, expiresAt: int)
    requires Inv(db)
    ensures Inv(TablesAfter(db, CreatePaymentIntent(db, now, c, key, expiresAt)))
  {
    var outcome := CreatePaymentIntent(db, now, c, key, expiresAt);
    if outcome.Commit? {
      if FindByKey(db.intents, key).None? {
        hide CreatePaymentIntent, IntentSound, IntentsSound, KeysUnique, AttemptsNumbered;
        var x := CreatedIntentIs(db, now, c, key, expiresAt);
        InvAppendIntent(db, x);
        InvFrame(db.(intents := db.intents + [x]), outcome.tables);
      } else {
        CreateReplays(db, now, c, key, expiresAt);
      }
    }
  }

  lemma CreateReplays(db: Tables, now: int, c: nat, key: string, expiresAt: int)
    requires FindByKey(db.intents, key).Some?
    ensures TablesAfter(db, CreatePaymentIntent(db, now, c, key, expiresAt)) == db
  {
  }

  lemma CreateLinkKeeps(db: Tables, now: int, i: nat, expiresAt: int)
    requires Inv(db)
    ensures Inv(TablesAfter(db, CreatePaymentLink(db, now, i, expiresAt)))
  {
    var outcome := CreatePaymentLink(db, now, i, expiresAt);
    if outcome.Commit? && outcome.value.1 {
      var intent := db.intents[i];
      assert IntentSound(intent, i, db);
      var x := Advance(intent, LinkReady, LinkReadyKey, None);
      CreatedHasOneTransition(intent);
      AdvanceSound(db, i, LinkReady, LinkReadyKey, None, x);
      InvPut(db, i, x);
      InvFrame(PutIntent(db, i, x), outcome.tables);
    }
  }

  /** While the status is still CREATED the history holds nothing but the creation row. */
  lemma CreatedHasOneTransition(intent: PaymentIntent)
    requires HistorySound(intent) && intent.status == Created
    ensures |intent.transitions| == 1
  {
    var t := intent.transitions;
    assert |t| > 1 ==> CanTransition(t[|t| - 2].to, t[|t| - 1].to);
  }

  lemma BeginKeeps(db: Tables, i: nat, version: nat, account: Option<string>)
    requires Inv(db)
    ensures Inv(TablesAfter(db, BeginProviderPayment(db, i, version, account)))
  {
    var outcome := BeginProviderPayment(db, i, version, account);
    if outcome.Commit? && outcome.value {
      var intent := db.intents[i];
      assert IntentSound(intent, i, db);
      var x := outcome.tables.intents[i];
      AdvanceSound(db, i, Pending, ProviderRequestedKey, None, x);
      InvPut(db, i, x);
    }
  }

  lemma BindKeeps(db: Tables, i: nat, paymentId: string)
    requires Inv(db)
    ensures Inv(TablesAfter(db, BindProviderPaymentResult(db, i, paymentId)))
  {
    var outcome := BindProviderPaymentResult(db, i, paymentId);
    if outcome.Commit? {
      var intent := db.intents[i];
      assert IntentSound(intent, i, db);
      if intent.providerPaymentId != Some(paymentId) {
        var x := outcome.tables.intents[i];
        forall t | t in x.transitions
          ensures TransitionBacked(t, x, i, db.events)
        {
          assert TransitionBacked(t, intent, i, db.events);
        }
        InvPut(db, i, x);
      }
    }
  }

  lemma MarkUnknownKeeps(db: Tables, i: nat)
    requires Inv(db)
    ensures Inv(TablesAfter(db, MarkProviderPaymentUnknown(db, i)))
  {
    var outcome := MarkProviderPaymentUnknown(db, i);
    if outcome.Commit? && outcome.value {
      assert IntentSound(db.intents[i], i, db);
      var x := outcome.tables.intents[i];
      AdvanceSound(db, i, UnknownResult, UnknownResultKey, None, x);
      InvPut(db, i, x);
    }
  }

  lemma SuccessIsVerified(evidence: Evidence, intent: PaymentIntent, checkout: CheckoutStatus)
    requires Decide(evidence, intent, checkout).next == Succeeded
    ensures Verifies(evidence, intent)
  {
  }

  /** What the worker's transaction writes, when it writes: the version check makes its read current. */
  lemma AppliedIs(db: Tables, now: int, w: nat, owner: string, seen: PaymentIntent, seenCheckout: CheckoutStatus)
    requires ApplyDecision(db, now, w, owner, seen, seenCheckout) != db
    ensures w < |db.events| && db.events[w].intentId.Some? && db.events[w].intentId.value < |db.intents|
    ensures var i := db.events[w].intentId.value;
      var to := Decide(db.events[w].evidence, seen, seenCheckout).next;
      && seen == db.intents[i] && CanTransition(seen.status, to) && !HasKey(seen, EventKey(db.events[w].evidence))
      && ApplyDecision(db, now, w, owner, seen, seenCheckout) == PutIntent(db, i, ApplyEvent(seen, db.events[w].evidence, w, to))
  {
    hide Decide;
  }

  /** So a success really was verified against the row it changes. */
  lemma ApplyKeeps(db: Tables, now: int, w: nat, owner: string, seen: PaymentIntent, seenCheckout: CheckoutStatus)
    requires Inv(db)
    ensures Inv(ApplyDecision(db, now, w, owner, seen, seenCheckout))
  {
    if ApplyDecision(db, now, w, owner, seen, seenCheckout) != db {
      AppliedIs(db, now, w, owner, seen, seenCheckout);
      var i := db.events[w].intentId.value;
      var evidence := db.events[w].evidence;
      var to := Decide(evidence, seen, seenCheckout).next;
      assert IntentSound(seen, i, db) && Begun(seen);
      hide ApplyDecision, Decide, HistorySound, IntentsSound, KeysUnique, AttemptsNumbered, HasKey, CanTransition;
      var x := ApplyEvent(seen, evidence, w, to);
      if to == Succeeded {
        SuccessIsVerified(evidence, seen, seenCheckout);
      }
      NoReturn(seen.status, to);
      AdvanceSound(db, i, to, EventKey(evidence), Some(w), x);
      InvPut(db, i, x);
    }
  }

  /** A begun payment never goes back to CREATED or LINK_READY. */
  lemma NoReturn(from: PaymentIntentStatus, to: PaymentIntentStatus)
    requires CanTransition(from, to) && from !in {Created, LinkReady}
    ensures to !in {Created, LinkReady}
  {
  }

  lemma ReceiveKeeps(db: Tables, now: int, evidence: Evidence, located: Option<nat>, owner: string, until: int)
    requires Inv(db)
    requires located.Some? ==> located.value < |db.intents| && Located(db.intents[located.value])
    ensures Inv(ClaimWebhookEvidence(db, now, evidence, located, owner, until).0)
  {
    if located.Some? {
      assert IntentSound(db.intents[located.value], located.value, db);
    }
    match FindEvent(db.events, evidence)
    case None =>
      InvFrame(db, ClaimWebhookEvidence(db, now, evidence, located, owner, until).0);
    case Some(w) =>
      InvPutEvent(db, w, ClaimRedelivered(db.events[w], EventApplied(db, w), evidence, located, now, owner, until).0);
  }

  /** The worker's bookkeeping rewrites at most one event row, keeping its evidence and intent. */
  lemma EventStepIs(world: World, now: int, step: Step) returns (event: WebhookEvent)
    requires step.Recover? || step.Checkpoint? || step.Renew? || step.Complete? || step.Fail?
    requires step.w < |world.db.events|
    ensures Next(world, now, step).db == PutEvent(world.db, step.w, event)
    ensures event.evidence == world.db.events[step.w].evidence && event.intentId == world.db.events[step.w].intentId
  {
    var before := world.db.events[step.w];
    var after := Next(world, now, step).db.events;
    event := if step.w < |after| then after[step.w] else before;
  }

  lemma EventStepKeeps(world: World, now: int, step: Step)
    requires Inv(world.db)
    requires step.Recover? || step.Checkpoint? || step.Renew? || step.Complete? || step.Fail?
    ensures Inv(Next(world, now, step).db)
  {
    if step.w < |world.db.events| {
      hide Next, PutEvent, Inv;
      var event := EventStepIs(world, now, step);
      InvPutEvent(world.db, step.w, event);
    }
  }

  predicate AboutCheckout(step: Step) {
    step.OpenCheckout? || step.OpenLink? || step.Verify? || step.RequireReview? || step.Evaluate? || step.Kitchen? ||
    step.Order? || step.Close?
  }

  lemma CheckoutStepIs(world: World, now: int, step: Step)
    requires AboutCheckout(step)
    ensures var b := Next(world, now, step).db;
      b.intents == world.db.intents && b.events == world.db.events && |world.db.checkouts| <= |b.checkouts|
  {
  }

  lemma CheckoutStepKeeps(world: World, now: int, step: Step)
    requires Inv(world.db) && AboutCheckout(step)
    ensures Inv(Next(world, now, step).db)
  {
    hide Next, IntentsSound, KeysUnique, AttemptsNumbered;
    CheckoutStepIs(world, now, step);
    InvFrame(world.db, Next(world, now, step).db);
  }

  lemma NextKeepsInv(world: World, now: int, step: Step)
    requires Inv(world.db)
    ensures Inv(Next(world, now, step).db)
  {
    var db := world.db;
    match step
    case CreateIntent(c, key, expiresAt) => CreateIntentKeeps(db, now, c, key, expiresAt);
    case CreateLink(i, expiresAt) => CreateLinkKeeps(db, now, i, expiresAt);
    case Begin(i, version, account) => BeginKeeps(db, i, version, account);
    case Bind(i, paymentId) => BindKeeps(db, i, paymentId);
    case MarkUnknown(i) => MarkUnknownKeeps(db, i);
    case Receive(evidence, located, owner, until) =>
      if located.Some? ==> located.value < |db.intents| && Located(db.intents[located.value]) {
        ReceiveKeeps(db, now, evidence, located, owner, until);
      }
    case Apply(w, owner, seen, seenCheckout) => ApplyKeeps(db, now, w, owner, seen, seenCheckout);
    case Recover(_, _, _) => EventStepKeeps(world, now, step);
    case Checkpoint(_, _, _) => EventStepKeeps(world, now, step);
    case Renew(_, _, _) => EventStepKeeps(world, now, step);
    case Complete(_, _, _) => EventStepKeeps(world, now, step);
    case Fail(_, _, _, _) => EventStepKeeps(world, now, step);
    case _ => CheckoutStepKeeps(world, now, step);
  }

  lemma {:induction false} RunKeepsInv(world: World, run: seq<Timed>)
    requires Inv(world.db)
    ensures Inv(Run(world, run).db)
    decreases |run|
  {
    if |run| > 0 {
      NextKeepsInv(world, run[0].now, run[0].step);
      RunKeepsInv(Next(world, run[0].now, run[0].step), run[1..]);
    }
  }
}
