/** Cutting an event's processing anywhere and claiming it again changes neither verdict nor effects. */
module WebhookResume {
  import opened Wrappers
  import opened PaymentLifecycle
  import opened CheckoutTables
  import opened CheckoutPolicy
  import opened CheckoutRepository
  import opened WebhookPipeline

  /** Equal but for the bookkeeping (checkpoint, lease, attempts) of event `w`. */
  ghost predicate SameButProgress(a: Tables, b: Tables, w: nat) {
    && a.checkouts == b.checkouts
    && a.intents == b.intents
    && a.links == b.links
    && |a.events| == |b.events|
    && (forall v :: 0 <= v < |a.events| && v != w ==> a.events[v] == b.events[v])
    && (w < |a.events| ==> a.events[w].evidence == b.events[w].evidence && a.events[w].intentId == b.events[w].intentId)
  }

  /** The event has not changed its intent yet. */
  ghost predicate Fresh(db: Tables, w: nat) {
    Bound(db, w) && !EventApplied(db, w) && !HasKey(db.intents[IntentId(db, w)], EventKey(db.events[w].evidence))
  }

  // The three effects on intents and checkouts, lease aside

  /** What Transit does when the lease is held. */
  ghost function Transited(db: Tables, w: nat): Outcome<(WebhookOutcome, PaymentIntentStatus)>
    requires Bound(db, w)
  {
    var i := IntentId(db, w);
    var intent := db.intents[i];
    var evidence := db.events[w].evidence;
    var decision := Decide(evidence, intent, db.checkouts[intent.checkoutId].status);
    if intent.status == decision.next then
      Commit(db, (if EventApplied(db, w) then decision.outcome else DuplicateReplay, intent.status))
    else if HasKey(intent, EventKey(evidence)) then Commit(db, (decision.outcome, intent.status))
    else if !CanTransition(intent.status, decision.next) then Abort(PaymentIntentConflict)
    else if evidence.providerPaymentId.Some? && PaymentIdTaken(db, i, evidence.providerPaymentId.value) then
      Abort(PaymentIntentConflict)
    else Commit(PutIntent(db, i, ApplyEvent(intent, evidence, w, decision.next)), (decision.outcome, decision.next))
  }

  lemma TransitIsTransited(db: Tables, worker: Worker)
    requires Bound(db, worker.w) && Owned(db, worker)
    ensures Transit(db, worker) == Transited(db, worker.w)
  {
  }

  ghost predicate SameOutcome<T>(x: Outcome<T>, y: Outcome<T>, w: nat) {
    match (x, y)
    case (Commit(a, u), Commit(b, v)) => SameButProgress(a, b, w) && u == v
    case (Abort(e), Abort(f)) => e == f
    case _ => false
  }

  lemma EventAppliedSame(a: Tables, b: Tables, w: nat)
    requires a.intents == b.intents
    ensures EventApplied(a, w) == EventApplied(b, w)
  {
  }

  lemma TransitedSame(a: Tables, b: Tables, w: nat)
    requires Bound(a, w) && SameButProgress(a, b, w)
    ensures Bound(b, w) && SameOutcome(Transited(a, w), Transited(b, w), w)
  {
    EventAppliedSame(a, b, w);
    assert forall i: nat, p :: PaymentIdTaken(a, i, p) == PaymentIdTaken(b, i, p);
  }

  lemma SettleSame(a: Tables, b: Tables, x: Worker, y: Worker, status: PaymentIntentStatus)
    requires x.w == y.w && Bound(a, x.w) && SameButProgress(a, b, x.w)
    requires Owned(a, x) && Owned(b, y)
    ensures SameOutcome(Settle(a, x, status), Settle(b, y, status), x.w)
  {
  }

  lemma ReleaseSame(a: Tables, b: Tables, x: Worker, y: Worker, status: PaymentIntentStatus, review: bool)
    requires x.w == y.w && x.gateOpen == y.gateOpen && Bound(a, x.w) && SameButProgress(a, b, x.w)
    requires Owned(a, x) && Owned(b, y)
    ensures SameOutcome(Release(a, x, status, review), Release(b, y, status, review), x.w)
  {
  }

  // Repeating an effect

  lemma TransitedAgain(db: Tables, w: nat)
    requires Fresh(db, w) && Transited(db, w).Commit?
    ensures var first := Transited(db, w);
      Bound(first.tables, w) && Transited(first.tables, w) == first
  {
    var first := Transited(db, w);
    if first.tables != db {
      var i := IntentId(db, w);
      var x := first.tables.intents[i];
      assert x.transitions[|x.transitions| - 1].event == Some(w);
      assert EventApplied(first.tables, w);
    }
  }

  /** For a paid intent, Transit asks for nothing and its report depends only on the intents. */
  lemma TransitedAtSuccess(a: Tables, b: Tables, w: nat)
    requires Bound(a, w) && Bound(b, w) && a.intents == b.intents && a.events == b.events
    requires var intent := a.intents[IntentId(a, w)];
      intent.status == Succeeded &&
      Decide(a.events[w].evidence, intent, a.checkouts[intent.checkoutId].status) == Decision(Accepted, Succeeded) &&
      b.checkouts[intent.checkoutId].status !in {CheckoutCancelled, CheckoutExpired}
    ensures Transited(a, w).Commit? && Transited(b, w) == Commit(b, Transited(a, w).value)
  {
    EventAppliedSame(a, b, w);
  }

  /** The effects of an uninterrupted attempt, in order; each needs the one before. */
  ghost function Settled(a: Tables, x: Worker): Outcome<bool>
    requires Bound(a, x.w)
  {
    match Transited(a, x.w)
    case Abort(error) => Abort(error)
    case Commit(after, (_, status)) => Settle(after, x, status)
  }

  ghost function Released(a: Tables, x: Worker): Outcome<()>
    requires Bound(a, x.w)
  {
    match Settled(a, x)
    case Abort(error) => Abort(error)
    case Commit(after, review) => Release(after, x, Transited(a, x.w).value.1, review)
  }

  ghost predicate Reaches(a: Tables, x: Worker, g: nat)
    requires Bound(a, x.w)
  {
    g == 0 || (g == 1 && Transited(a, x.w).Commit?) || (g == 2 && Settled(a, x).Commit?) || (g == 3 && Released(a, x).Commit?)
  }

  /** The tables after the first `g` effects. */
  ghost function Stage(a: Tables, x: Worker, g: nat): Tables
    requires Bound(a, x.w) && Reaches(a, x, g)
  {
    if g == 0 then a
    else if g == 1 then Transited(a, x.w).tables
    else if g == 2 then Settled(a, x).tables
    else Released(a, x).tables
  }

  /** What the uninterrupted attempt reports. */
  ghost function Verdict(a: Tables, x: Worker): Result<WebhookResult, CheckoutError>
    requires Bound(a, x.w)
  {
    match Released(a, x)
    case Abort(error) => Failure(error)
    case Commit(_, _) =>
      var (outcome, status) := Transited(a, x.w).value;
      Success(WebhookResult(if Settled(a, x).value then ReviewRequired else outcome, Some(IntentId(a, x.w)), Some(status)))
  }

  ghost function LastStage(a: Tables, x: Worker): (g: nat)
    requires Bound(a, x.w)
    ensures Reaches(a, x, g)
  {
    if Released(a, x).Commit? then 3 else if Settled(a, x).Commit? then 2 else if Transited(a, x.w).Commit? then 1 else 0
  }

  lemma TransitedKeepsEvents(a: Tables, w: nat)
    requires Bound(a, w) && Transited(a, w).Commit?
    ensures Bound(Transited(a, w).tables, w) && Transited(a, w).tables.events == a.events
  {
  }

  lemma SettleKeepsRows(t: Tables, x: Worker, status: PaymentIntentStatus)
    requires Bound(t, x.w) && Settle(t, x, status).Commit?
    ensures var after := Settle(t, x, status).tables;
      Bound(after, x.w) && after.events == t.events && after.intents == t.intents
  {
  }

  lemma ReleaseKeepsRows(t: Tables, x: Worker, status: PaymentIntentStatus, review: bool)
    requires Bound(t, x.w) && Release(t, x, status, review).Commit?
    ensures var after := Release(t, x, status, review).tables;
      Bound(after, x.w) && after.events == t.events && after.intents == t.intents
  {
  }

  lemma StagesKeepEvents(a: Tables, x: Worker, g: nat)
    requires Bound(a, x.w) && Reaches(a, x, g)
    ensures Bound(Stage(a, x, g), x.w) && Stage(a, x, g).events == a.events
    ensures g >= 1 ==> Transited(a, x.w).Commit?
    ensures g >= 2 ==> Stage(a, x, g).intents == Transited(a, x.w).tables.intents
  {
    if g >= 1 {
      TransitedKeepsEvents(a, x.w);
      if g >= 2 {
        SettleKeepsRows(Transited(a, x.w).tables, x, Transited(a, x.w).value.1);
        if g >= 3 {
          ReleaseKeepsRows(Settled(a, x).tables, x, Transited(a, x.w).value.1, Settled(a, x).value);
        }
      }
    }
  }

  /** A fresh event that leaves its intent SUCCEEDED was an accepted approval of an open checkout. */
  lemma SuccessWasAccepted(a: Tables, w: nat)
    requires Fresh(a, w) && Transited(a, w).Commit? && Transited(a, w).value.1 == Succeeded
    ensures var t := Transited(a, w).tables;
      Bound(t, w) && t.intents[IntentId(t, w)].status == Succeeded &&
      Decide(t.events[w].evidence, t.intents[IntentId(t, w)], t.checkouts[t.intents[IntentId(t, w)].checkoutId].status)
        == Decision(Accepted, Succeeded)
  {
  }

  lemma SettledCheckoutIsOpen(a: Tables, x: Worker, g: nat)
    requires Fresh(a, x.w) && Reaches(a, x, g) && 2 <= g && Transited(a, x.w).value.1 == Succeeded
    ensures Bound(Stage(a, x, g), x.w)
    ensures var t := Stage(a, x, g);
      t.checkouts[t.intents[IntentId(t, x.w)].checkoutId].status !in {CheckoutCancelled, CheckoutExpired}
  {
    hide Transited, Decide, HasKey, EventApplied;
    StagesKeepEvents(a, x, g);
    SuccessWasAccepted(a, x.w);
  }

  /** Whatever stage the tables have reached, Transit lands on the same stage and report. */
  lemma TransitFrom(a: Tables, x: Worker, g: nat)
    requires Fresh(a, x.w) && Reaches(a, x, g) && Transited(a, x.w).Commit?
    ensures Bound(Stage(a, x, g), x.w)
    ensures Transited(Stage(a, x, g), x.w) == Commit(Stage(a, x, if g == 0 then 1 else g), Transited(a, x.w).value)
  {
    StagesKeepEvents(a, x, g);
    if g >= 1 {
      TransitedAgain(a, x.w);
      if g >= 2 && Transited(a, x.w).value.1 == Succeeded {
        SuccessWasAccepted(a, x.w);
        SettledCheckoutIsOpen(a, x, g);
        TransitedAtSuccess(Stage(a, x, 1), Stage(a, x, g), x.w);
      }
    }
  }

  lemma SettleFrom(a: Tables, x: Worker, g: nat)
    requires Fresh(a, x.w) && Reaches(a, x, g) && 1 <= g && Settled(a, x).Commit? && Owned(a, x)
    ensures Bound(Stage(a, x, g), x.w)
    ensures Settle(Stage(a, x, g), x, Transited(a, x.w).value.1) ==
            Commit(Stage(a, x, if g == 1 then 2 else g), Settled(a, x).value)
  {
    StagesKeepEvents(a, x, g);
  }

  lemma ReleaseFrom(a: Tables, x: Worker, g: nat)
    requires Fresh(a, x.w) && Reaches(a, x, g) && 2 <= g && Released(a, x).Commit? && Owned(a, x)
    ensures Bound(Stage(a, x, g), x.w)
    ensures Release(Stage(a, x, g), x, Transited(a, x.w).value.1, Settled(a, x).value) == Commit(Stage(a, x, 3), ())
  {
    StagesKeepEvents(a, x, g);
  }

  /**
   * A running attempt of worker `y` stands where the uninterrupted attempt of `x` has been or will
   * be: at stage `g`, holding the same report so far.
   */
  ghost predicate Tracks(a: Tables, x: Worker, g: nat, work: Work, y: Worker)
    requires Bound(a, x.w)
  {
    && y.w == x.w && y.gateOpen == x.gateOpen
    && Reaches(a, x, g)
    && SameButProgress(Stage(a, x, g), work.db, x.w)
    && match work
       case Running(db, pc, _, outcome, status, review) =>
         && Owned(db, y) && pc <= 6
         && (pc >= 2 ==> g >= 1 && Transited(a, x.w).Commit? && (outcome, status) == Transited(a, x.w).value)
         && (pc >= 4 ==> g >= 2 && Settled(a, x).Commit? && review == Settled(a, x).value)
         && (pc < 4 ==> !review)
         && (pc >= 5 ==> g >= 3)
       case Finished(db, result) => Verdict(a, x) == Success(result) && g == LastStage(a, x)
       case Threw(db, error) => Verdict(a, x) == Failure(error) && g == LastStage(a, x) && Owned(db, y)
  }

  /** The stage an attempt stands at after its next effect. */
  ghost function StageAfter(a: Tables, x: Worker, g: nat, pc: nat): nat
    requires Bound(a, x.w)
  {
    if pc == 1 && g == 0 && Transited(a, x.w).Commit? then 1
    else if pc == 3 && g == 1 && Settled(a, x).Commit? then 2
    else if pc == 4 && g == 2 && Released(a, x).Commit? then 3
    else g
  }

  /** Noting a checkpoint under a held lease only changes the event's progress. */
  lemma NotingKeeps(work: Work, y: Worker)
    requires Bound(work.db, y.w) && Owned(work.db, y) && work.Running? && work.pc in {0, 2, 5}
    ensures var next := Effect(work, y);
      && next.Running? && next == work.(db := next.db, pc := work.pc + 1)
      && Bound(next.db, y.w) && Owned(next.db, y) && SameButProgress(work.db, next.db, y.w)
  {
  }

  lemma SameThrough(a: Tables, b: Tables, c: Tables, w: nat)
    requires SameButProgress(a, b, w) && SameButProgress(b, c, w)
    ensures SameButProgress(a, c, w)
  {
  }

  lemma NoteTracks(a: Tables, x: Worker, g: nat, work: Work, y: Worker)
    requires Fresh(a, x.w) && Owned(a, x) && Tracks(a, x, g, work, y)
    requires work.Running? && work.pc in {0, 2, 5}
    ensures Bound(work.db, y.w) && Tracks(a, x, g, Effect(work, y), y)
  {
    StagesKeepEvents(a, x, g);
    NotingKeeps(work, y);
    SameThrough(Stage(a, x, g), work.db, Effect(work, y).db, x.w);
    hide Effect, Owned, SameButProgress, Stage, Fresh;
  }

  lemma TransitTracks(a: Tables, x: Worker, g: nat, work: Work, y: Worker)
    requires Fresh(a, x.w) && Owned(a, x) && Tracks(a, x, g, work, y)
    requires work.Running? && work.pc == 1
    ensures Bound(work.db, y.w) && Tracks(a, x, StageAfter(a, x, g, 1), Effect(work, y), y)
  {
    StagesKeepEvents(a, x, g);
    var t := Stage(a, x, g);
    TransitedSame(t, work.db, x.w);
    TransitIsTransited(work.db, y);
    if Transited(a, x.w).Commit? {
      TransitFrom(a, x, g);
      StagesKeepEvents(a, x, StageAfter(a, x, g, 1));
    }
  }

  lemma SettleTracks(a: Tables, x: Worker, g: nat, work: Work, y: Worker)
    requires Fresh(a, x.w) && Owned(a, x) && Tracks(a, x, g, work, y)
    requires work.Running? && work.pc == 3
    ensures Bound(work.db, y.w) && Tracks(a, x, StageAfter(a, x, g, 3), Effect(work, y), y)
  {
    StagesKeepEvents(a, x, g);
    SettleSame(Stage(a, x, g), work.db, x, y, work.status);
    if Settled(a, x).Commit? {
      SettleFrom(a, x, g);
      StagesKeepEvents(a, x, StageAfter(a, x, g, 3));
    }
  }

  lemma ReleaseTracks(a: Tables, x: Worker, g: nat, work: Work, y: Worker)
    requires Fresh(a, x.w) && Owned(a, x) && Tracks(a, x, g, work, y)
    requires work.Running? && work.pc == 4
    ensures Bound(work.db, y.w) && Tracks(a, x, StageAfter(a, x, g, 4), Effect(work, y), y)
  {
    StagesKeepEvents(a, x, g);
    ReleaseSame(Stage(a, x, g), work.db, x, y, work.status, work.review);
    if Released(a, x).Commit? {
      ReleaseFrom(a, x, g);
      StagesKeepEvents(a, x, StageAfter(a, x, g, 4));
    }
  }

  lemma CompleteTracks(a: Tables, x: Worker, g: nat, work: Work, y: Worker)
    requires Fresh(a, x.w) && Owned(a, x) && Tracks(a, x, g, work, y)
    requires work.Running? && work.pc == 6
    ensures Bound(work.db, y.w) && Effect(work, y).Finished? && Tracks(a, x, g, Effect(work, y), y)
  {
    StagesKeepEvents(a, x, g);
  }

  lemma EffectTracks(a: Tables, x: Worker, g: nat, work: Work, y: Worker) returns (h: nat)
    requires Fresh(a, x.w) && Owned(a, x) && Tracks(a, x, g, work, y) && Bound(work.db, y.w)
    ensures Tracks(a, x, h, Effect(work, y), y)
  {
    h := g;
    if work.Running? {
      if work.pc == 1 {
        TransitTracks(a, x, g, work, y);
        h := StageAfter(a, x, g, 1);
      } else if work.pc == 3 {
        SettleTracks(a, x, g, work, y);
        h := StageAfter(a, x, g, 3);
      } else if work.pc == 4 {
        ReleaseTracks(a, x, g, work, y);
        h := StageAfter(a, x, g, 4);
      } else if work.pc == 6 {
        CompleteTracks(a, x, g, work, y);
      } else {
        NoteTracks(a, x, g, work, y);
      }
    }
  }

  ghost predicate TracksSomewhere(a: Tables, x: Worker, work: Work, y: Worker)
    requires Bound(a, x.w)
  {
    exists g :: Tracks(a, x, g, work, y)
  }

  lemma EffectTracksSomewhere(a: Tables, x: Worker, work: Work, y: Worker)
    requires Fresh(a, x.w) && Owned(a, x) && TracksSomewhere(a, x, work, y) && Bound(work.db, y.w)
    ensures TracksSomewhere(a, x, Effect(work, y), y)
  {
    var g :| Tracks(a, x, g, work, y);
    var h := EffectTracks(a, x, g, work, y);
  }

  /** Any number of effects keeps an attempt on the uninterrupted attempt's track. */
  lemma AttemptTracks(a: Tables, x: Worker, g: nat, work: Work, y: Worker, effects: nat) returns (h: nat)
    requires Fresh(a, x.w) && Owned(a, x) && Tracks(a, x, g, work, y) && Bound(work.db, y.w)
    ensures Tracks(a, x, h, Attempt(work, y, effects), y)
  {
    var inv := (v: Work) => TracksSomewhere(a, x, v, y);
    forall v: Work | Bound(v.db, y.w) && inv(v)
      ensures inv(Effect(v, y))
    {
      EffectTracksSomewhere(a, x, v, y);
    }
    AttemptKeeps(work, y, effects, inv);
    h :| Tracks(a, x, h, Attempt(work, y, effects), y);
  }

  lemma {:induction false} AttemptEnds(work: Work, y: Worker, effects: nat)
    requires Bound(work.db, y.w)
    requires work.Running? ==> work.pc + effects >= EFFECTS && work.pc <= 6
    ensures !Attempt(work, y, effects).Running?
    decreases effects
  {
    if effects > 0 {
      EffectKeepsBound(work, y);
      AttemptEnds(Effect(work, y), y, effects - 1);
    }
  }

  // Interrupted processing

  /** How an event comes to be claimed again: by the recovery worker, or because the provider delivers it again. */
  datatype Path = Recovery | Redelivery(evidence: Evidence, located: Option<nat>)

  /** One claim attempt: processed for `effects` effects, then stopped, by a recorded fault or silently. */
  datatype Try = Try(now: int, owner: string, until: int, path: Path, effects: nat, fault: Option<CheckoutError>)

  /** The claim a try makes on event `w`; a delivery that speaks of another event makes none. */
  function Reclaim(db: Tables, w: nat, t: Try): (Tables, Claim) {
    match t.path
    case Recovery => ClaimRecoverableWebhook(db, t.now, w, t.owner, t.until)
    case Redelivery(evidence, located) =>
      if FindEvent(db.events, evidence) == Some(w) then ClaimWebhookEvidence(db, t.now, evidence, located, t.owner, t.until)
      else (db, Blocked)
  }

  /** The row lets the try claim it, unless it has been claimed too often already. */
  predicate Admits(db: Tables, w: nat, t: Try)
    requires Bound(db, w)
  {
    var event := db.events[w];
    && event.result.None? && !event.closed && event.attempts > 0
    && (event.leaseUntil.Some? ==> event.leaseUntil.value <= t.now)
    && (event.retryAt.Some? ==> event.retryAt.value <= t.now)
    && (event.checkpoint == ProcessingFailed ==> event.retryable)
    && match t.path
       case Recovery => true
       case Redelivery(evidence, located) =>
         && FindEvent(db.events, evidence) == Some(w)
         && event.evidence.payloadHash == evidence.payloadHash && event.evidence.accountHash == evidence.accountHash
         && (located.Some? ==> located == event.intentId)
  }

  /** A try is granted an admitting row below five attempts, closes it at five, and leaves any other row as it is. */
  lemma ReclaimMeans(db: Tables, w: nat, t: Try)
    requires Bound(db, w)
    ensures var (claimed, claim) := Reclaim(db, w, t);
      && Bound(claimed, w)
      && (claim == Claimed <==> Admits(db, w, t) && db.events[w].attempts < MAX_PROCESSING_ATTEMPTS)
      && claimed == PutEvent(db, w,
           if claim == Claimed then Granted(db.events[w], t.owner, t.until)
           else if Admits(db, w, t) then Exhausted(db.events[w]) else db.events[w])
  {
    assert db.events[w := db.events[w]] == db.events;
  }

  /** Provider calls that must not be repeated, and evidence that cannot be used. */
  predicate Retryable(error: CheckoutError) {
    error !in {PaymentResultUnknown, WebhookEvidenceInvalid}
  }

  /** The tables once an error was recorded on the event, if its lease still allows that. */
  function RecordFailure(db: Tables, y: Worker, error: CheckoutError): Tables {
    match FailWebhookClaim(db, y.now, y.w, y.owner, error, Retryable(error))
    case Commit(after, _) => after
    case Abort(_) => db
  }

  /** The tables once an attempt stopped: an error, its own or injected, is recorded on the event. */
  function Stop(work: Work, y: Worker, fault: Option<CheckoutError>): Tables {
    match work
    case Threw(db, error) => RecordFailure(db, y, error)
    case Running(db, _, _, _, _, _) => if fault.Some? then RecordFailure(db, y, fault.value) else db
    case Finished(db, _) => db
  }

  /** The event is claimed if that is granted now, then processed and stopped. */
  function OneTry(db: Tables, w: nat, gateOpen: bool, t: Try): (r: Tables)
    requires Bound(db, w)
    ensures Bound(r, w)
  {
    var (claimed, claim) := Reclaim(db, w, t);
    ReclaimMeans(db, w, t);
    if claim != Claimed then claimed
    else
      var y := Worker(t.now, w, t.owner, gateOpen);
      Stop(Attempt(Load(claimed, w), y, t.effects), y, t.fault)
  }

  function Tries(db: Tables, w: nat, gateOpen: bool, tries: seq<Try>): (r: Tables)
    requires Bound(db, w)
    ensures Bound(r, w)
    decreases |tries|
  {
    if |tries| == 0 then db
    else
      Tries(OneTry(db, w, gateOpen, tries[0]), w, gateOpen, tries[1..])
  }

  /** The checkpoints of finished events. */
  predicate Terminal(checkpoint: Checkpoint) {
    checkpoint in {Processed, LegacyUnknown}
  }

  /** The tables are at some stage of the uninterrupted attempt, and a finished event is closed. */
  ghost predicate OnTrack(a: Tables, x: Worker, g: nat, db: Tables)
    requires Bound(a, x.w)
  {
    Reaches(a, x, g) && SameButProgress(Stage(a, x, g), db, x.w) &&
    (x.w < |db.events| && Terminal(db.events[x.w].checkpoint) ==> db.events[x.w].closed)
  }

  predicate ClosedWhenTerminal(db: Tables, w: nat)
    requires Bound(db, w)
  {
    Terminal(db.events[w].checkpoint) ==> db.events[w].closed
  }

  /** What an effect does to the event's own row: nothing, a checkpoint noted, or its completion. */
  predicate RowAfterEffect(e: WebhookEvent, f: WebhookEvent) {
    f == e ||
    (f == e.(checkpoint := f.checkpoint) && f.checkpoint in {Validated, TransitionApplied, DownstreamApplied}) ||
    (f.result.Some? && f == CompletedEvent(e, f.result.value))
  }

  lemma NotingEffect(work: Work, y: Worker)
    requires Bound(work.db, y.w) && work.Running? && work.pc in {0, 2, 5}
    ensures Bound(Effect(work, y).db, y.w) && RowAfterEffect(work.db.events[y.w], Effect(work, y).db.events[y.w])
  {
  }

  lemma WorkingEffect(work: Work, y: Worker)
    requires Bound(work.db, y.w) && work.Running? && work.pc in {1, 3, 4}
    ensures Bound(Effect(work, y).db, y.w) && Effect(work, y).db.events == work.db.events
  {
    hide EvaluateKitchen, Decide, HasKey;
  }

  lemma ClosingEffect(work: Work, y: Worker)
    requires Bound(work.db, y.w) && (work.Running? ==> work.pc > 5)
    ensures Bound(Effect(work, y).db, y.w) && RowAfterEffect(work.db.events[y.w], Effect(work, y).db.events[y.w])
  {
  }

  lemma EffectOnRow(work: Work, y: Worker)
    requires Bound(work.db, y.w)
    ensures Bound(Effect(work, y).db, y.w) && RowAfterEffect(work.db.events[y.w], Effect(work, y).db.events[y.w])
  {
    hide Effect;
    if work.Running? && work.pc in {0, 2, 5} {
      NotingEffect(work, y);
    } else if work.Running? && work.pc in {1, 3, 4} {
      WorkingEffect(work, y);
    } else {
      ClosingEffect(work, y);
    }
  }

  lemma EffectClosesTerminal(work: Work, y: Worker)
    requires Bound(work.db, y.w) && ClosedWhenTerminal(work.db, y.w)
    ensures Bound(Effect(work, y).db, y.w) && ClosedWhenTerminal(Effect(work, y).db, y.w)
  {
    hide Effect;
    EffectOnRow(work, y);
  }

  lemma {:induction false} TerminalIsClosed(work: Work, y: Worker, effects: nat)
    requires Bound(work.db, y.w) && ClosedWhenTerminal(work.db, y.w)
    ensures ClosedWhenTerminal(Attempt(work, y, effects).db, y.w)
    decreases effects
  {
    hide Effect, ClosedWhenTerminal;
    if effects > 0 {
      EffectClosesTerminal(work, y);
      TerminalIsClosed(Effect(work, y), y, effects - 1);
    }
  }

  lemma StopStaysOnTrack(a: Tables, x: Worker, g: nat, work: Work, y: Worker, fault: Option<CheckoutError>)
    requires Bound(a, x.w) && Tracks(a, x, g, work, y) && Bound(work.db, x.w) && ClosedWhenTerminal(work.db, x.w)
    ensures OnTrack(a, x, g, Stop(work, y, fault))
  {
  }

  /** A granted claim starts an attempt on the track. */
  lemma ClaimTracks(a: Tables, x: Worker, g: nat, db: Tables, t: Try)
    requires Fresh(a, x.w) && Owned(a, x) && OnTrack(a, x, g, db)
    requires t.now < t.until
    ensures var (claimed, claim) := Reclaim(db, x.w, t);
      && OnTrack(a, x, g, claimed)
      && Bound(claimed, x.w)
      && (claim == Claimed ==> Tracks(a, x, g, Load(claimed, x.w), Worker(t.now, x.w, t.owner, x.gateOpen)))
  {
    StagesKeepEvents(a, x, g);
    ReclaimMeans(db, x.w, t);
    hide Reclaim;
  }

  lemma TryStaysOnTrack(a: Tables, x: Worker, g: nat, db: Tables, t: Try) returns (h: nat)
    requires Fresh(a, x.w) && Owned(a, x) && OnTrack(a, x, g, db) && Bound(db, x.w)
    requires t.now < t.until
    ensures OnTrack(a, x, h, OneTry(db, x.w, x.gateOpen, t))
  {
    h := g;
    ClaimTracks(a, x, g, db, t);
    var (claimed, claim) := Reclaim(db, x.w, t);
    if claim == Claimed {
      var y := Worker(t.now, x.w, t.owner, x.gateOpen);
      h := AttemptTracks(a, x, g, Load(claimed, x.w), y, t.effects);
      TerminalIsClosed(Load(claimed, x.w), y, t.effects);
      StopStaysOnTrack(a, x, h, Attempt(Load(claimed, x.w), y, t.effects), y, t.fault);
    }
  }

  lemma {:induction false} TriesStayOnTrack(a: Tables, x: Worker, g: nat, db: Tables, tries: seq<Try>) returns (h: nat)
    requires Fresh(a, x.w) && Owned(a, x) && OnTrack(a, x, g, db) && Bound(db, x.w)
    requires forall t :: t in tries ==> t.now < t.until
    ensures OnTrack(a, x, h, Tries(db, x.w, x.gateOpen, tries))
    decreases |tries|
  {
    if |tries| == 0 {
      h := g;
    } else {
      h := TryStaysOnTrack(a, x, g, db, tries[0]);
      h := TriesStayOnTrack(a, x, h, OneTry(db, x.w, x.gateOpen, tries[0]), tries[1..]);
    }
  }

  /** How an attempt ended: its report, or the error it threw. */
  function Ending(work: Work): Result<WebhookResult, CheckoutError>
    requires !work.Running?
  {
    match work
    case Finished(_, result) => Success(result)
    case Threw(_, error) => Failure(error)
  }

  /** A whole attempt from the track ends with the uninterrupted verdict and its last stage. */
  lemma WholeAttempt(a: Tables, x: Worker, g: nat, db: Tables, y: Worker)
    requires Fresh(a, x.w) && Owned(a, x) && Bound(db, y.w) && Tracks(a, x, g, Load(db, y.w), y)
    ensures var end := Attempt(Load(db, y.w), y, EFFECTS);
      && !end.Running?
      && Ending(end) == Verdict(a, x)
      && SameButProgress(Stage(a, x, LastStage(a, x)), end.db, x.w)
  {
    var h := AttemptTracks(a, x, g, Load(db, y.w), y, EFFECTS);
    AttemptEnds(Load(db, y.w), y, EFFECTS);
  }

  /** The tables after a first attempt cut off after `cut` effects, with or without a fault, and further tries. */
  function Interrupted(a: Tables, x: Worker, cut: nat, fault: Option<CheckoutError>, tries: seq<Try>): (r: Tables)
    requires Bound(a, x.w)
    ensures Bound(r, x.w)
  {
    Tries(Stop(Attempt(Load(a, x.w), x, cut), x, fault), x.w, x.gateOpen, tries)
  }

  lemma InterruptedStaysOnTrack(a: Tables, x: Worker, cut: nat, fault: Option<CheckoutError>, tries: seq<Try>) returns (h: nat)
    requires Fresh(a, x.w) && Owned(a, x)
    requires forall t :: t in tries ==> t.now < t.until
    ensures OnTrack(a, x, h, Interrupted(a, x, cut, fault, tries))
  {
    assert Tracks(a, x, 0, Load(a, x.w), x);
    hide Tracks, Fresh, Owned;
    var g := AttemptTracks(a, x, 0, Load(a, x.w), x, cut);
    TerminalIsClosed(Load(a, x.w), x, cut);
    var work := Attempt(Load(a, x.w), x, cut);
    StopStaysOnTrack(a, x, g, work, x, fault);
    h := TriesStayOnTrack(a, x, g, Stop(work, x, fault), tries);
  }

  lemma SameTrackEnd(s: Tables, a: Tables, b: Tables, w: nat)
    requires SameButProgress(s, a, w) && SameButProgress(s, b, w)
    ensures SameButProgress(a, b, w)
  {
  }

  /**
   * Processing a fresh event without interruption, and processing it after the first attempt was cut
   * off after any effect (silently or with a recorded fault) and after any further claims and cuts,
   * by recovery or by redelivery, end with the same report or error, the same intents and the same checkouts.
   */
  lemma InterruptionIsInvisible(a: Tables, x: Worker, cut: nat, fault: Option<CheckoutError>, tries: seq<Try>, last: Try)
    requires Fresh(a, x.w) && Owned(a, x)
    requires forall t :: t in tries ==> t.now < t.until
    requires last.now < last.until
    requires Reclaim(Interrupted(a, x, cut, fault, tries), x.w, last).1 == Claimed
    ensures var claimed := Reclaim(Interrupted(a, x, cut, fault, tries), x.w, last).0;
      var straight := Attempt(Load(a, x.w), x, EFFECTS);
      Bound(claimed, x.w) &&
      var resumed := Attempt(Load(claimed, x.w), Worker(last.now, x.w, last.owner, x.gateOpen), EFFECTS);
      && !straight.Running? && !resumed.Running?
      && Ending(resumed) == Ending(straight)
      && SameButProgress(straight.db, resumed.db, x.w)
  {
    assert Tracks(a, x, 0, Load(a, x.w), x);
    hide Attempt, Tracks, OnTrack, Fresh, Owned, Reclaim, Interrupted, SameButProgress, Ending, Stage, LastStage;
    hide Verdict;
    WholeAttempt(a, x, 0, a, x);
    var interrupted := Interrupted(a, x, cut, fault, tries);
    var h := InterruptedStaysOnTrack(a, x, cut, fault, tries);
    ClaimTracks(a, x, h, interrupted, last);
    var claimed := Reclaim(interrupted, x.w, last).0;
    var y := Worker(last.now, x.w, last.owner, x.gateOpen);
    WholeAttempt(a, x, h, claimed, y);
    SameTrackEnd(Stage(a, x, LastStage(a, x)), Attempt(Load(a, x.w), x, EFFECTS).db, Attempt(Load(claimed, x.w), y, EFFECTS).db, x.w);
  }
}
