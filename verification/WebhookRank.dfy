/** The recorded checkpoint and the count of attempts, over interrupted processing: when they move, and which way. */
module WebhookRank {
  import opened Wrappers
  import opened PaymentLifecycle
  import opened CheckoutTables
  import opened CheckoutPolicy
  import opened CheckoutRepository
  import opened WebhookPipeline
  import opened WebhookResume

  function CheckpointOf(db: Tables, w: nat): Checkpoint
    requires Bound(db, w)
  {
    db.events[w].checkpoint
  }

  function RankOf(db: Tables, w: nat): nat
    requires Bound(db, w)
  {
    Rank(CheckpointOf(db, w))
  }

  // Attempts hold the rank

  /** The highest checkpoint an attempt can have noted before its effect number `pc`. */
  function NotedBy(pc: nat): nat {
    if pc == 0 then 0 else if pc <= 2 then 1 else if pc <= 5 then 2 else 3
  }

  /** The recorded rank is at least `base`, and not ahead of what a running attempt has noted. */
  predicate RankHeld(work: Work, w: nat, base: nat) {
    && Bound(work.db, w)
    && RankOf(work.db, w) >= base
    && (work.Running? ==> work.pc <= 6)
    && (work.Running? ==> RankOf(work.db, w) <= Rank(work.start) || RankOf(work.db, w) <= NotedBy(work.pc))
  }

  lemma NoteHoldsRank(work: Work, y: Worker, base: nat)
    requires RankHeld(work, y.w, base) && work.Running? && work.pc in {0, 2, 5}
    ensures Bound(work.db, y.w) && RankHeld(Effect(work, y), y.w, base)
  {
  }

  lemma EffectHoldsRank(work: Work, y: Worker, base: nat)
    requires Bound(work.db, y.w) && RankHeld(work, y.w, base)
    ensures RankHeld(Effect(work, y), y.w, base)
  {
    EffectKeepsBound(work, y);
    if work.Running? && work.pc in {0, 2, 5} {
      NoteHoldsRank(work, y, base);
    } else if work.Running? && work.pc in {1, 3, 4} {
      WorkingEffect(work, y);
      EffectAdvances(work, y);
    }
  }

  /** A running attempt goes on by one effect at a time. */
  lemma EffectAdvances(work: Work, y: Worker)
    requires Bound(work.db, y.w) && work.Running? && work.pc <= 6
    ensures Effect(work, y).Running? ==> Effect(work, y).pc == work.pc + 1 <= 6 && Effect(work, y).start == work.start
  {
  }

  lemma AttemptHoldsRank(work: Work, y: Worker, effects: nat, base: nat)
    requires Bound(work.db, y.w) && RankHeld(work, y.w, base)
    ensures RankOf(Attempt(work, y, effects).db, y.w) >= base
  {
    hide Effect, Attempt, Rank;
    var inv := (v: Work) => RankHeld(v, y.w, base);
    forall v: Work | Bound(v.db, y.w) && inv(v)
      ensures inv(Effect(v, y))
    {
      EffectHoldsRank(v, y, base);
    }
    AttemptKeeps(work, y, effects, inv);
  }

  // How far an attempt gets

  /** After how many effects the work of a granted claim throws, if it does. */
  ghost function FailsAt(a: Tables, x: Worker): Option<nat>
    requires Bound(a, x.w)
  {
    if Transited(a, x.w).Abort? then Some(2)
    else if Settled(a, x).Abort? then Some(4)
    else if Released(a, x).Abort? then Some(5)
    else None
  }

  predicate Refused(checkout: Checkout) {
    checkout.status !in {PaymentPending, PaymentVerified, KitchenEligible, OrderCreated}
  }

  /**
   * It throws at the status change when that is not allowed or the payment id belongs to another
   * intent, at the verification when the checkout is closed, and at the release when the kitchen
   * evaluation does not say yes.
   */
  lemma FailureMeans(a: Tables, x: Worker)
    requires Bound(a, x.w) && Owned(a, x)
    ensures var i := IntentId(a, x.w);
      var (intent, evidence) := (a.intents[i], a.events[x.w].evidence);
      var c := intent.checkoutId;
      var next := Decide(evidence, intent, a.checkouts[c].status).next;
      && (FailsAt(a, x) == Some(2) <==>
            intent.status != next && !HasKey(intent, EventKey(evidence)) &&
            (!CanTransition(intent.status, next) ||
             (evidence.providerPaymentId.Some? && PaymentIdTaken(a, i, evidence.providerPaymentId.value))))
      && (FailsAt(a, x) == Some(4) <==>
            Transited(a, x.w).Commit? && Transited(a, x.w).value.1 == Succeeded &&
            SuccessfulPaymentCount(Transited(a, x.w).tables, c) <= 1 && Refused(a.checkouts[c]))
      && (FailsAt(a, x) == Some(5) <==>
            Settled(a, x).Commit? && Transited(a, x.w).value.1 == Succeeded && !Settled(a, x).value && x.gateOpen &&
            EvaluateKitchen(Settled(a, x).tables, c) != Success(true))
  {
    if Transited(a, x.w).Commit? {
      TransitedKeepsEvents(a, x.w);
      TransitedKeepsCheckouts(a, x.w);
      hide Transited, HasKey, SuccessfulPaymentCount, EvaluateKitchen, Decide;
    }
  }

  lemma TransitedKeepsCheckouts(a: Tables, w: nat)
    requires Bound(a, w) && Transited(a, w).Commit?
    ensures Transited(a, w).tables.checkouts == a.checkouts
    ensures |Transited(a, w).tables.intents| == |a.intents|
    ensures Transited(a, w).tables.intents[IntentId(a, w)].checkoutId == a.intents[IntentId(a, w)].checkoutId
  {
  }

  function StageAt(effects: nat): nat {
    if effects <= 1 then 0 else if effects <= 3 then 1 else if effects == 4 then 2 else 3
  }

  /** Where an attempt under a held lease stands after `n` effects. */
  ghost predicate Straight(a: Tables, x: Worker, work: Work, n: nat)
    requires Bound(a, x.w)
  {
    && Bound(work.db, x.w)
    && match work
       case Running(db, pc, _, outcome, status, review) =>
         && pc == n <= 6 && (FailsAt(a, x).Some? ==> n < FailsAt(a, x).value)
         && Owned(db, x)
         && Reaches(a, x, StageAt(n)) && SameButProgress(Stage(a, x, StageAt(n)), db, x.w)
         && (n >= 2 ==> Transited(a, x.w).Commit? && (outcome, status) == Transited(a, x.w).value)
         && (n >= 4 ==> Settled(a, x).Commit? && review == Settled(a, x).value)
         && (n < 4 ==> !review)
       case Threw(db, _) => FailsAt(a, x).Some? && FailsAt(a, x).value <= n && ClaimOwned(db, x.w, x.owner, x.now)
       case Finished(_, _) => n >= EFFECTS && FailsAt(a, x).None?
  }

  lemma StraightNote(a: Tables, x: Worker, work: Work, n: nat)
    requires Bound(a, x.w) && Owned(a, x) && Straight(a, x, work, n) && work.Running? && n in {0, 2, 5}
    ensures Straight(a, x, Effect(work, x), n + 1)
  {
    StagesKeepEvents(a, x, StageAt(n));
    NotingKeeps(work, x);
    SameThrough(Stage(a, x, StageAt(n)), work.db, Effect(work, x).db, x.w);
    ReachesNext(a, x, n);
    hide Effect, Owned, SameButProgress, Stage, Reaches;
  }

  /** A note stands between two effects of the same stage, or after the last. */
  lemma ReachesNext(a: Tables, x: Worker, n: nat)
    requires Bound(a, x.w) && Reaches(a, x, StageAt(n)) && n in {0, 2, 5}
    ensures StageAt(n + 1) == StageAt(n)
    ensures FailsAt(a, x).Some? && n < FailsAt(a, x).value ==> n + 1 < FailsAt(a, x).value
  {
  }

  lemma StraightTransit(a: Tables, x: Worker, work: Work)
    requires Bound(a, x.w) && Owned(a, x) && Straight(a, x, work, 1) && work.Running?
    ensures Straight(a, x, Effect(work, x), 2)
  {
    TransitedSame(a, work.db, x.w);
    TransitIsTransited(work.db, x);
    if Transited(a, x.w).Commit? {
      TransitedKeepsEvents(a, x.w);
      TransitedKeepsEvents(work.db, x.w);
    }
    hide Transited, Transit;
  }

  lemma StraightSettle(a: Tables, x: Worker, work: Work)
    requires Bound(a, x.w) && Owned(a, x) && Straight(a, x, work, 3) && work.Running?
    ensures Straight(a, x, Effect(work, x), 4)
  {
    var t := Stage(a, x, 1);
    StagesKeepEvents(a, x, 1);
    SettleSame(t, work.db, x, x, work.status);
    if Settled(a, x).Commit? {
      SettleKeepsRows(t, x, work.status);
      SettleKeepsRows(work.db, x, work.status);
    }
    hide Transited, Settle;
  }

  lemma StraightRelease(a: Tables, x: Worker, work: Work)
    requires Bound(a, x.w) && Owned(a, x) && Straight(a, x, work, 4) && work.Running?
    ensures Straight(a, x, Effect(work, x), 5)
  {
    var t := Stage(a, x, 2);
    StagesKeepEvents(a, x, 2);
    ReleaseSame(t, work.db, x, x, work.status, work.review);
    if Released(a, x).Commit? {
      ReleaseKeepsRows(t, x, work.status, work.review);
      ReleaseKeepsRows(work.db, x, work.status, work.review);
    }
    hide Transited, Settled, Release;
  }

  lemma StraightComplete(a: Tables, x: Worker, work: Work)
    requires Bound(a, x.w) && Owned(a, x) && Straight(a, x, work, 6) && work.Running?
    ensures Straight(a, x, Effect(work, x), 7)
  {
  }

  lemma StraightEffect(a: Tables, x: Worker, work: Work, n: nat)
    requires Bound(a, x.w) && Owned(a, x) && Straight(a, x, work, n)
    ensures Bound(work.db, x.w) && Straight(a, x, Effect(work, x), n + 1)
  {
    if work.Running? {
      hide Effect;
      if n == 1 {
        StraightTransit(a, x, work);
      } else if n == 3 {
        StraightSettle(a, x, work);
      } else if n == 4 {
        StraightRelease(a, x, work);
      } else if n == 6 {
        StraightComplete(a, x, work);
      } else {
        StraightNote(a, x, work, n);
      }
    }
  }

  lemma {:induction false} StraightAttempt(a: Tables, x: Worker, work: Work, m: nat, effects: nat)
    requires Bound(a, x.w) && Owned(a, x) && Straight(a, x, work, m)
    ensures Bound(work.db, x.w) && Straight(a, x, Attempt(work, x, effects), m + effects)
    decreases effects
  {
    if effects > 0 {
      StraightEffect(a, x, work, m);
      hide Straight, Effect;
      StraightAttempt(a, x, Effect(work, x), m + 1, effects - 1);
    }
  }

  /** Under a held lease an attempt is over after seven effects, or as soon as one of them fails. */
  lemma AttemptGoesAsFar(a: Tables, x: Worker, effects: nat)
    requires Bound(a, x.w) && Owned(a, x)
    ensures var end := Attempt(Load(a, x.w), x, effects);
      && (end.Threw? <==> FailsAt(a, x).Some? && FailsAt(a, x).value <= effects)
      && (end.Finished? <==> FailsAt(a, x).None? && effects >= EFFECTS)
      && (!end.Finished? ==> ClaimOwned(end.db, x.w, x.owner, x.now))
  {
    assert Straight(a, x, Load(a, x.w), 0);
    StraightAttempt(a, x, Load(a, x.w), 0, effects);
  }

  // When the rank falls

  /** An attempt stopped after `effects` effects leaves a failure recorded: its own, or the fault that stopped it. */
  ghost predicate RecordsFailure(a: Tables, x: Worker, effects: nat, fault: Option<CheckoutError>)
    requires Bound(a, x.w)
  {
    match FailsAt(a, x)
    case Some(n) => n <= effects || fault.Some?
    case None => effects < EFFECTS && fault.Some?
  }

  /** The tables and the worker of a granted claim. */
  function ClaimedBy(db: Tables, w: nat, t: Try): Tables
    requires Bound(db, w)
  {
    PutEvent(db, w, Granted(db.events[w], t.owner, t.until))
  }

  /**
   * A noted checkpoint is about to be replaced by a failure: the row admits the try, and either its
   * five attempts are used up, or the new attempt will record one under its lease.
   */
  ghost predicate Lowers(db: Tables, w: nat, gateOpen: bool, t: Try)
    requires Bound(db, w)
  {
    RankOf(db, w) > 0 && Admits(db, w, t) &&
    (db.events[w].attempts >= MAX_PROCESSING_ATTEMPTS ||
     (!Terminal(CheckpointOf(db, w)) && t.now < t.until &&
      RecordsFailure(ClaimedBy(db, w, t), Worker(t.now, w, t.owner, gateOpen), t.effects, t.fault)))
  }

  predicate Unleased(work: Work, y: Worker) {
    Bound(work.db, y.w) && !LeaseHeld(work.db.events[y.w], y.owner, y.now)
  }

  lemma EffectStaysUnleased(work: Work, y: Worker)
    requires Bound(work.db, y.w) && Unleased(work, y)
    ensures Unleased(Effect(work, y), y)
  {
    hide Effect;
    EffectOnRow(work, y);
  }

  lemma AttemptStaysUnleased(work: Work, y: Worker, effects: nat)
    requires Bound(work.db, y.w) && Unleased(work, y)
    ensures Unleased(Attempt(work, y, effects), y)
  {
    hide Effect, Attempt, Unleased;
    var inv := (v: Work) => Unleased(v, y);
    forall v: Work | Bound(v.db, y.w) && inv(v)
      ensures inv(Effect(v, y))
    {
      EffectStaysUnleased(v, y);
    }
    AttemptKeeps(work, y, effects, inv);
  }

  lemma GrantedAttemptLowers(db: Tables, w: nat, gateOpen: bool, t: Try)
    requires Bound(db, w) && RankOf(db, w) > 0 && Admits(db, w, t) && db.events[w].attempts < MAX_PROCESSING_ATTEMPTS
    ensures var y := Worker(t.now, w, t.owner, gateOpen);
      var a := ClaimedBy(db, w, t);
      && Bound(a, w)
      && Bound(Stop(Attempt(Load(a, w), y, t.effects), y, t.fault), w)
      && (RankOf(Stop(Attempt(Load(a, w), y, t.effects), y, t.fault), w) < RankOf(db, w) <==> Lowers(db, w, gateOpen, t))
  {
    var y := Worker(t.now, w, t.owner, gateOpen);
    var a := ClaimedBy(db, w, t);
    AttemptHoldsRank(Load(a, w), y, t.effects, RankOf(db, w));
    if t.now >= t.until {
      AttemptStaysUnleased(Load(a, w), y, t.effects);
    } else if !Terminal(CheckpointOf(db, w)) {
      AttemptGoesAsFar(a, y, t.effects);
    }
    hide Attempt, FailsAt, Admits;
  }

  /** A try lowers the recorded checkpoint exactly when the row, as it stands before the try, is about to be failed. */
  lemma RankFallsExactly(db: Tables, w: nat, gateOpen: bool, t: Try)
    requires Bound(db, w)
    ensures RankOf(OneTry(db, w, gateOpen, t), w) < RankOf(db, w) <==> Lowers(db, w, gateOpen, t)
  {
    ReclaimMeans(db, w, t);
    if RankOf(db, w) > 0 && Reclaim(db, w, t).1 == Claimed {
      GrantedAttemptLowers(db, w, gateOpen, t);
    }
    hide Attempt, Admits, RecordsFailure, Reclaim, Stop;
  }

  /** No try of the sequence leaves a lower checkpoint than it found. */
  ghost predicate NeverFalls(db: Tables, w: nat, gateOpen: bool, tries: seq<Try>)
    requires Bound(db, w)
    decreases |tries|
  {
    |tries| > 0 ==>
      RankOf(OneTry(db, w, gateOpen, tries[0]), w) >= RankOf(db, w) &&
      NeverFalls(OneTry(db, w, gateOpen, tries[0]), w, gateOpen, tries[1..])
  }

  ghost predicate NeverLowered(db: Tables, w: nat, gateOpen: bool, tries: seq<Try>)
    requires Bound(db, w)
    decreases |tries|
  {
    |tries| > 0 ==>
      !Lowers(db, w, gateOpen, tries[0]) && NeverLowered(OneTry(db, w, gateOpen, tries[0]), w, gateOpen, tries[1..])
  }

  /** Over any sequence of tries the recorded rank never falls exactly when no try meets that condition. */
  lemma {:induction false} TriesFallExactly(db: Tables, w: nat, gateOpen: bool, tries: seq<Try>)
    requires Bound(db, w)
    ensures NeverFalls(db, w, gateOpen, tries) <==> NeverLowered(db, w, gateOpen, tries)
    decreases |tries|
  {
    if |tries| > 0 {
      RankFallsExactly(db, w, gateOpen, tries[0]);
      hide OneTry, Lowers;
      TriesFallExactly(OneTry(db, w, gateOpen, tries[0]), w, gateOpen, tries[1..]);
    }
  }

  /** On the track of an attempt that succeeds, a try without a fault holds the rank while attempts are left. */
  lemma FaultlessTryHolds(a: Tables, x: Worker, g: nat, db: Tables, t: Try)
    requires Fresh(a, x.w) && Owned(a, x) && Verdict(a, x).Success? && OnTrack(a, x, g, db) && Bound(db, x.w)
    requires t.now < t.until && t.fault.None? && db.events[x.w].attempts < MAX_PROCESSING_ATTEMPTS
    ensures RankOf(OneTry(db, x.w, x.gateOpen, t), x.w) >= RankOf(db, x.w)
  {
    ReclaimMeans(db, x.w, t);
    ClaimTracks(a, x, g, db, t);
    var claimed := Reclaim(db, x.w, t).0;
    if Reclaim(db, x.w, t).1 == Claimed {
      var y := Worker(t.now, x.w, t.owner, x.gateOpen);
      var h := AttemptTracks(a, x, g, Load(claimed, x.w), y, t.effects);
      assert !Attempt(Load(claimed, x.w), y, t.effects).Threw?;
      AttemptHoldsRank(Load(claimed, x.w), y, t.effects, RankOf(db, x.w));
    }
    hide Attempt, Admits, Reclaim, Verdict, Fresh;
  }

  lemma {:induction false} FaultlessTriesClimb(a: Tables, x: Worker, g: nat, db: Tables, tries: seq<Try>)
    requires Fresh(a, x.w) && Owned(a, x) && Verdict(a, x).Success? && OnTrack(a, x, g, db) && Bound(db, x.w)
    requires forall t :: t in tries ==> t.now < t.until && t.fault.None?
    requires db.events[x.w].attempts + |tries| <= MAX_PROCESSING_ATTEMPTS
    ensures NeverFalls(db, x.w, x.gateOpen, tries)
    decreases |tries|
  {
    if |tries| > 0 {
      FaultlessTryHolds(a, x, g, db, tries[0]);
      AttemptsAreBounded(db, x.w, x.gateOpen, tries[0]);
      var h := TryStaysOnTrack(a, x, g, db, tries[0]);
      hide OneTry, Verdict, Fresh, Owned, OnTrack;
      FaultlessTriesClimb(a, x, h, OneTry(db, x.w, x.gateOpen, tries[0]), tries[1..]);
    }
  }

  lemma FirstCutHolds(a: Tables, x: Worker, cut: nat)
    requires Fresh(a, x.w) && Owned(a, x) && Verdict(a, x).Success?
    ensures var r := Interrupted(a, x, cut, None, []);
      RankOf(r, x.w) >= RankOf(a, x.w) && r.events[x.w].attempts == a.events[x.w].attempts
  {
    assert Tracks(a, x, 0, Load(a, x.w), x);
    var h := AttemptTracks(a, x, 0, Load(a, x.w), x, cut);
    AttemptHoldsRank(Load(a, x.w), x, cut, RankOf(a, x.w));
    AttemptKeepsAttempts(Load(a, x.w), x, cut);
    hide Attempt, Verdict, Fresh, Owned;
    assert !Attempt(Load(a, x.w), x, cut).Threw?;
  }

  /**
   * An event whose processing succeeds never loses a checkpoint, however often it is silently cut
   * off and claimed again, as long as the claims stay within the five attempts.
   */
  lemma CutsNeverLowerTheRank(a: Tables, x: Worker, cut: nat, tries: seq<Try>)
    requires Fresh(a, x.w) && Owned(a, x) && Verdict(a, x).Success?
    requires forall t :: t in tries ==> t.now < t.until && t.fault.None?
    requires a.events[x.w].attempts + |tries| <= MAX_PROCESSING_ATTEMPTS
    ensures RankOf(Interrupted(a, x, cut, None, []), x.w) >= RankOf(a, x.w)
    ensures NeverFalls(Interrupted(a, x, cut, None, []), x.w, x.gateOpen, tries)
  {
    FirstCutHolds(a, x, cut);
    var g := InterruptedStaysOnTrack(a, x, cut, None, []);
    hide NeverFalls, OnTrack, Fresh, Owned, Verdict, Interrupted;
    FaultlessTriesClimb(a, x, g, Interrupted(a, x, cut, None, []), tries);
  }

  // A run in which it falls

  const APPROVAL: Evidence :=
    Evidence(Some("event"), "payload", Approved, Some(3000), Some("COP"), Some("account"), Some("payment"), Some(CheckoutReference(0)))

  /** A payment has been started for the only attempt of a checkout. */
  const STARTED: Tables := Tables(
    [Checkout(PaymentPending, 2, None, 3000, "COP", Delivery, Online)],
    [PaymentIntent(0, 1, "command", 3000, "COP", Pending, Some(CheckoutReference(0)), None, Some("account"), Some(20), 3,
       [PaymentTransition(None, Created, CreationKey("command"), None),
        PaymentTransition(Some(Created), LinkReady, LinkReadyKey, None),
        PaymentTransition(Some(LinkReady), Pending, ProviderRequestedKey, None)])],
    [PaymentLink(0, 20, false, Opened)], [])

  const DELIVERED: Tables := STARTED.(events := [NewEvent(APPROVAL, Some(0), "first", 10)])

  const FIRST_WORKER: Worker := Worker(0, 0, "first", true)

  const SECOND_TRY: Try := Try(20, "second", 30, Recovery, 0, Some(KitchenNotEligible))

  /** The intent is paid and the checkpoint noted, by a worker that is gone. */
  const CUT: Tables := Tables(
    STARTED.checkouts, [ApplyEvent(STARTED.intents[0], APPROVAL, 0, Succeeded)], STARTED.links,
    [NewEvent(APPROVAL, Some(0), "first", 10).(checkpoint := TransitionApplied)])

  lemma FirstEffects()
    ensures Attempt(Load(DELIVERED, 0), FIRST_WORKER, 3) == Running(CUT, 3, Processing, Accepted, Succeeded, false)
  {
    var validated := DELIVERED.(events := [NewEvent(APPROVAL, Some(0), "first", 10).(checkpoint := Validated)]);
    var start := Load(DELIVERED, 0);
    var first := start.(db := validated, pc := 1);
    assert Effect(start, FIRST_WORKER) == first;
    var second := first.(db := validated.(intents := CUT.intents), pc := 2, outcome := Accepted, status := Succeeded);
    assert Effect(first, FIRST_WORKER) == second;
    assert Effect(second, FIRST_WORKER) == second.(db := CUT, pc := 3);
    hide Effect;
  }

  lemma IsDelivered()
    ensures ClaimWebhookEvidence(STARTED, 0, APPROVAL, Some(0), "first", 10) == (DELIVERED, Claimed)
    ensures Fresh(DELIVERED, 0) && Owned(DELIVERED, FIRST_WORKER)
  {
    assert FindEvent(STARTED.events, APPROVAL).None?;
    assert STARTED.events + [NewEvent(APPROVAL, Some(0), "first", 10)] == DELIVERED.events;
  }

  lemma SingleTry(db: Tables, w: nat, gateOpen: bool, t: Try)
    requires Bound(db, w)
    ensures Tries(db, w, gateOpen, [t]) == OneTry(db, w, gateOpen, t)
  {
    hide OneTry;
    assert [t][1..] == [];
  }

  lemma FaultIsRecorded()
    ensures CheckpointOf(OneTry(CUT, 0, true, SECOND_TRY), 0) == ProcessingFailed
  {
    ReclaimMeans(CUT, 0, SECOND_TRY);
  }

  /**
   * The approval is delivered and the first worker disappears after noting TRANSITION_APPLIED. The
   * next one meets a retryable fault at once and records it in place of the checkpoint.
   */
  lemma RankMayFall()
    ensures ClaimWebhookEvidence(STARTED, 0, APPROVAL, Some(0), "first", 10) == (DELIVERED, Claimed)
    ensures Fresh(DELIVERED, 0) && Owned(DELIVERED, FIRST_WORKER)
    ensures CheckpointOf(Interrupted(DELIVERED, FIRST_WORKER, 3, None, []), 0) == TransitionApplied
    ensures CheckpointOf(Interrupted(DELIVERED, FIRST_WORKER, 3, None, [SECOND_TRY]), 0) == ProcessingFailed
  {
    IsDelivered();
    FirstEffects();
    FaultIsRecorded();
    SingleTry(CUT, 0, true, SECOND_TRY);
    hide Attempt, OneTry, Tries, ClaimWebhookEvidence, Fresh;
    assert Stop(Running(CUT, 3, Processing, Accepted, Succeeded, false), FIRST_WORKER, None) == CUT;
  }

  // Attempts

  lemma EffectKeepsAttempts(work: Work, y: Worker)
    requires Bound(work.db, y.w)
    ensures Bound(Effect(work, y).db, y.w) && Effect(work, y).db.events[y.w].attempts == work.db.events[y.w].attempts
  {
    hide Effect;
    EffectOnRow(work, y);
  }

  lemma AttemptKeepsAttempts(work: Work, y: Worker, effects: nat)
    requires Bound(work.db, y.w)
    ensures Attempt(work, y, effects).db.events[y.w].attempts == work.db.events[y.w].attempts
  {
    hide Effect, Attempt;
    var inv := (v: Work) => Bound(v.db, y.w) && v.db.events[y.w].attempts == work.db.events[y.w].attempts;
    forall v: Work | Bound(v.db, y.w) && inv(v)
      ensures inv(Effect(v, y))
    {
      EffectKeepsAttempts(v, y);
    }
    AttemptKeeps(work, y, effects, inv);
  }

  /** An event is claimed at most five times: the attempts column counts claims and stops there. */
  lemma AttemptsAreBounded(db: Tables, w: nat, gateOpen: bool, t: Try)
    requires Bound(db, w) && db.events[w].attempts <= 5
    ensures var after := OneTry(db, w, gateOpen, t);
      && after.events[w].attempts == db.events[w].attempts + (if Reclaim(db, w, t).1 == Claimed then 1 else 0)
      && after.events[w].attempts <= 5
  {
    ReclaimMeans(db, w, t);
    if Reclaim(db, w, t).1 == Claimed {
      AttemptKeepsAttempts(Load(Reclaim(db, w, t).0, w), Worker(t.now, w, t.owner, gateOpen), t.effects);
    }
    hide Attempt, Admits, Reclaim;
  }
}
