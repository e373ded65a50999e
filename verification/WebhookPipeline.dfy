/**
 * One claimed webhook event, processed in seven recorded effects. An attempt may stop after any of
 * them, or fail and record the failure, and the event may then be claimed again.
 */
module WebhookPipeline {
  import opened Wrappers
  import opened PaymentLifecycle
  import opened CheckoutTables
  import opened CheckoutPolicy
  import opened CheckoutRepository

  /** Who processes which event, when, and whether the kitchen gate is open. */
  datatype Worker = Worker(now: int, w: nat, owner: string, gateOpen: bool)

  datatype Work =
    | Running(db: Tables, pc: nat, start: Checkpoint, outcome: WebhookOutcome, status: PaymentIntentStatus, review: bool)
    | Finished(db: Tables, result: WebhookResult)
    | Threw(db: Tables, error: CheckoutError)

  /** The event's intent and that intent's checkout exist. */
  predicate Bound(db: Tables, w: nat) {
    && w < |db.events|
    && db.events[w].intentId.Some?
    && db.events[w].intentId.value < |db.intents|
    && db.intents[db.events[w].intentId.value].checkoutId < |db.checkouts|
  }

  predicate Owned(db: Tables, worker: Worker) {
    ClaimOwned(db, worker.w, worker.owner, worker.now) && !db.events[worker.w].closed
  }

  function IntentId(db: Tables, w: nat): nat
    requires Bound(db, w)
  {
    db.events[w].intentId.value
  }

  function Rank(checkpoint: Checkpoint): nat {
    match checkpoint
    case Processing => 0
    case Validated => 1
    case TransitionApplied => 2
    case DownstreamApplied => 3
    case Processed => 4
    case ProcessingFailed => 0
    case LegacyUnknown => 0
  }

  /** Records a checkpoint unless the attempt started at it or beyond. */
  function Note(db: Tables, worker: Worker, start: Checkpoint, checkpoint: Checkpoint): Outcome<()> {
    if Rank(start) >= Rank(checkpoint) then Commit(db, ())
    else AdvanceWebhookCheckpoint(db, worker.now, worker.w, worker.owner, checkpoint)
  }

  /** The status change the event asks for, and what to report about it. */
  function Transit(db: Tables, worker: Worker): Outcome<(WebhookOutcome, PaymentIntentStatus)>
    requires Bound(db, worker.w)
  {
    var i := IntentId(db, worker.w);
    var intent := db.intents[i];
    var decision := Decide(db.events[worker.w].evidence, intent, db.checkouts[intent.checkoutId].status);
    if intent.status == decision.next then
      Commit(db, (if EventApplied(db, worker.w) then decision.outcome else DuplicateReplay, intent.status))
    else
      match TransitionPayment(db, worker.now, worker.w, worker.owner, i, intent.version, decision.next)
      case Commit(after, status) => Commit(after, (decision.outcome, status))
      case Abort(error) => Abort(error)
  }

  /** After a success: the checkout is verified, or sent to review when it has several; true for review. */
  function Settle(db: Tables, worker: Worker, status: PaymentIntentStatus): Outcome<bool>
    requires Bound(db, worker.w)
  {
    var c := db.intents[IntentId(db, worker.w)].checkoutId;
    if status != Succeeded then Commit(db, false)
    else if !ClaimOwned(db, worker.w, worker.owner, worker.now) then Abort(WebhookClaimLost)
    else if SuccessfulPaymentCount(db, c) > 1 then
      match MarkFinancialReview(db, c)
      case Commit(after, _) => Commit(after, true)
      case Abort(error) => Abort(error)
    else
      match MarkCheckoutPaymentVerified(db, c)
      case Commit(after, _) => Commit(after, false)
      case Abort(error) => Abort(error)
  }

  /** The kitchen evaluation and release that follow a verified payment. */
  function Release(db: Tables, worker: Worker, status: PaymentIntentStatus, review: bool): Outcome<()>
    requires Bound(db, worker.w)
  {
    var c := db.intents[IntentId(db, worker.w)].checkoutId;
    if status != Succeeded || review then Commit(db, ())
    else if !ClaimOwned(db, worker.w, worker.owner, worker.now) then Abort(WebhookClaimLost)
    else if !worker.gateOpen then Commit(db, ())
    else
      match EvaluateKitchen(db, c)
      case Failure(error) => Abort(error)
      case Success(eligible) => if eligible then MarkKitchenEligible(db, c) else Abort(KitchenNotEligible)
  }

  function Report(work: Work, intentId: nat): WebhookResult
    requires work.Running?
  {
    WebhookResult(if work.review then ReviewRequired else work.outcome, Some(intentId), Some(work.status))
  }

  function After(work: Work, outcome: Outcome<()>): Work
    requires work.Running?
  {
    match outcome
    case Commit(after, _) => work.(db := after, pc := work.pc + 1)
    case Abort(error) => Threw(work.db, error)
  }

  /** The next effect of a running attempt. */
  function Effect(work: Work, worker: Worker): Work
    requires work.Running? ==> Bound(work.db, worker.w)
  {
    if !work.Running? then work
    else
      var db := work.db;
      if work.pc == 0 then After(work, Note(db, worker, work.start, Validated))
      else if work.pc == 1 then
        match Transit(db, worker)
        case Commit(after, (outcome, status)) => work.(db := after, pc := 2, outcome := outcome, status := status)
        case Abort(error) => Threw(db, error)
      else if work.pc == 2 then After(work, Note(db, worker, work.start, TransitionApplied))
      else if work.pc == 3 then
        match Settle(db, worker, work.status)
        case Commit(after, review) => work.(db := after, pc := 4, review := review)
        case Abort(error) => Threw(db, error)
      else if work.pc == 4 then After(work, Release(db, worker, work.status, work.review))
      else if work.pc == 5 then After(work, Note(db, worker, work.start, DownstreamApplied))
      else
        var result := Report(work, IntentId(db, worker.w));
        match CompleteWebhookClaim(db, worker.now, worker.w, worker.owner, result)
        case Commit(after, _) => Finished(after, result)
        case Abort(error) => Threw(db, error)
  }

  lemma EffectKeepsBound(work: Work, worker: Worker)
    requires Bound(work.db, worker.w)
    ensures Bound(Effect(work, worker).db, worker.w)
  {
  }

  /** The attempt after at most `effects` more effects. */
  function Attempt(work: Work, worker: Worker, effects: nat): (r: Work)
    requires Bound(work.db, worker.w)
    ensures Bound(r.db, worker.w)
    decreases effects
  {
    if effects == 0 then work
    else
      EffectKeepsBound(work, worker);
      Attempt(Effect(work, worker), worker, effects - 1)
  }

  /** What every effect keeps, every attempt keeps. */
  lemma {:induction false} AttemptKeeps(work: Work, worker: Worker, effects: nat, inv: Work -> bool)
    requires Bound(work.db, worker.w) && inv(work)
    requires forall v: Work :: Bound(v.db, worker.w) && inv(v) ==> inv(Effect(v, worker))
    ensures inv(Attempt(work, worker, effects))
    decreases effects
  {
    if effects > 0 {
      EffectKeepsBound(work, worker);
      AttemptKeeps(Effect(work, worker), worker, effects - 1, inv);
    }
  }

  function Load(db: Tables, w: nat): Work
    requires Bound(db, w)
  {
    Running(db, 0, db.events[w].checkpoint, Accepted, db.intents[IntentId(db, w)].status, false)
  }

  const EFFECTS: nat := 7
}
