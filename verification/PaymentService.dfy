/** The payment services: sequences of repository transactions on shared tables. */
module PaymentService {
  import opened Wrappers
  import opened PaymentLifecycle
  import opened CheckoutTables
  import opened CheckoutPolicy
  import opened CheckoutRepository
  import opened CheckoutProgress
  import opened CheckoutProtocol
  import opened CheckoutSafety
  import opened KitchenSafety
  import opened PaymentReplies
  import opened WebhookOutcomes
  import opened WebhookPipeline
  import opened WebhookResume

  /** What the provider answered when asked to create a payment. */
  datatype ProviderReply = NoAnswer | Answer(sameReference: bool, paymentId: string)

  datatype StartReply = StartReply(status: PaymentIntentStatus, hasCheckoutUrl: bool, replayed: bool)

  /** The answer is about the payment that was asked for. */
  predicate Trusted(provider: ProviderReply) {
    provider.Answer? && provider.sameReference
  }

  /** One run of the recovery worker; a fresh lease owner is drawn for each event. */
  datatype Batch = Batch(now: int, until: int, gateOpen: bool, owner: nat -> string)

  datatype BatchCounts = BatchCounts(completed: nat, replayed: nat, active: nat, blocked: nat, failed: nat)

  function Total(counts: BatchCounts): nat {
    counts.completed + counts.replayed + counts.active + counts.blocked + counts.failed
  }

  /** The link a signed public reference names, if it is still payable. */
  function ResolvePaymentLink(db: Tables, now: int, linkId: nat, referenceExpiresAt: int): (r: Option<PaymentLink>)
    ensures r.Some? <==> linkId < |db.links| && db.links[linkId].expiresAt == referenceExpiresAt &&
                         LinkUsable(db.links[linkId], now) && !db.links[linkId].revoked
    ensures r.Some? ==> r.value == db.links[linkId]
  {
    if referenceExpiresAt <= now || linkId >= |db.links| then None
    else
      var link := db.links[linkId];
      if link.expiresAt != referenceExpiresAt || link.expiresAt <= now || link.revoked || link.status !in {Active, Opened}
      then None else Some(link)
  }

  /** An attempt that somebody else has moved on meanwhile is reported as it stands; otherwise its result is unknown. */
  function UnmarkedReply(db: Tables, i: nat, marked: bool): Result<StartReply, CheckoutError> {
    if !marked && i < |db.intents| && db.intents[i].status != UnknownResult then
      Success(StartReply(db.intents[i].status, false, true))
    else Failure(PaymentResultUnknown)
  }

  /** What follows the provider's answer, once the reference is bound. */
  function AfterProvider(db: Tables, i: nat, linkId: nat, provider: ProviderReply): (Tables, Result<StartReply, CheckoutError>) {
    if !Trusted(provider) then
      match MarkProviderPaymentUnknown(db, i)
      case Abort(error) => (db, Failure(error))
      case Commit(after, marked) => (after, UnmarkedReply(after, i, marked))
    else
      match BindProviderPaymentResult(db, i, provider.paymentId)
      case Abort(error) => (db, Failure(error))
      case Commit(bound, _) =>
        match MarkPaymentLinkOpened(bound, linkId)
        case Abort(error) => (bound, Failure(error))
        case Commit(after, _) => (after, Success(StartReply(Pending, true, false)))
  }

  /** A history that ends in PENDING holds no unknown-result transition. */
  lemma PendingIsKnown(intent: PaymentIntent, i: nat, db: Tables)
    requires IntentSound(intent, i, db) && intent.status == Pending
    ensures !HasKey(intent, UnknownResultKey)
  {
    var t := intent.transitions;
    forall k | 0 <= k < |t|
      ensures t[k].key != UnknownResultKey
    {
      assert t[k] in t && TransitionBacked(t[k], intent, i, db.events);
      if k < |t| - 1 {
        WalkClimbs(Statuses(t), k, |t| - 1);
      }
    }
  }

  /** The attempt has just been begun under its own reference; the provider is about to be asked. */
  predicate AwaitsProvider(db: Tables, i: nat) {
    && i < |db.intents| && db.intents[i].status == Pending && !HasKey(db.intents[i], UnknownResultKey)
    && db.intents[i].providerReference == Some(CheckoutReference(i)) && db.intents[i].providerPaymentId.None?
  }

  /** An answer that cannot be trusted left UNKNOWN_RESULT, any other PENDING; a reply carries the bound payment. */
  predicate Accounted(db: Tables, i: nat, provider: ProviderReply, reply: Result<StartReply, CheckoutError>) {
    && i < |db.intents|
    && db.intents[i].providerReference == Some(CheckoutReference(i))
    && db.intents[i].status == (if Trusted(provider) then Pending else UnknownResult)
    && (reply.Success? ==> Trusted(provider) && db.intents[i].providerPaymentId == Some(provider.paymentId))
    && (!Trusted(provider) ==> reply == Failure(PaymentResultUnknown))
  }

  /**
   * A trusted answer is handed on and opens the link, unless its payment id belongs to another intent
   * or the link is not there; any other answer leaves the links alone.
   */
  predicate Answered(begun: Tables, after: Tables, i: nat, linkId: nat, provider: ProviderReply, reply: Result<StartReply, CheckoutError>) {
    if !Trusted(provider) then after.links == begun.links && reply == Failure(PaymentResultUnknown)
    else if PaymentIdTaken(begun, i, provider.paymentId) then after.links == begun.links && reply == Failure(PaymentIntentConflict)
    else if linkId >= |begun.links| then after.links == begun.links && reply == Failure(PaymentLinkNotFound)
    else
      after.links == begun.links[linkId := begun.links[linkId].(status := Opened)] && reply == Success(StartReply(Pending, true, false))
  }

  /** What the provider's answer leaves of a begun attempt. */
  lemma ProviderLeaves(begun: Tables, i: nat, linkId: nat, provider: ProviderReply)
    requires AwaitsProvider(begun, i)
    ensures var (after, reply) := AfterProvider(begun, i, linkId, provider);
      && |after.intents| == |begun.intents|
      && (forall j :: 0 <= j < |begun.intents| && j != i ==> after.intents[j] == begun.intents[j])
      && Accounted(after, i, provider, reply)
      && after.intents[i].accountHash == begun.intents[i].accountHash
      && Answered(begun, after, i, linkId, provider, reply)
  {
    hide HasKey;
  }

  /** An attempt that has not been started holds no request to the provider. */
  lemma UnstartedIsUnasked(intent: PaymentIntent, i: nat, db: Tables)
    requires IntentSound(intent, i, db) && intent.status in {Created, LinkReady}
    ensures !HasKey(intent, ProviderRequestedKey)
  {
    var t := intent.transitions;
    forall k | 0 <= k < |t|
      ensures t[k].key != ProviderRequestedKey
    {
      assert t[k] in t && TransitionBacked(t[k], intent, i, db.events);
      if k < |t| - 1 {
        WalkClimbs(Statuses(t), k, |t| - 1);
      }
    }
  }

  /** In every reachable state a start succeeds exactly on an unstarted attempt, read at its current version, whose reference nobody else carries. */
  lemma StartsExactly(db: Tables, i: nat, version: nat, account: Option<string>)
    requires Inv(db)
    ensures StartsPayment(db, Begin(i, version, account)) <==>
            i < |db.intents| && db.intents[i].status in {Created, LinkReady} && db.intents[i].version == version &&
            !ReferenceTaken(db, i, CheckoutReference(i))
  {
    if i < |db.intents| && db.intents[i].status in {Created, LinkReady} {
      assert IntentSound(db.intents[i], i, db);
      UnstartedIsUnasked(db.intents[i], i, db);
    }
    hide Inv, HasKey, ReferenceTaken;
  }

  lemma BegunAttempt(db: Tables, i: nat, account: Option<string>)
    requires Inv(db) && i < |db.intents| && StartsPayment(db, Begin(i, db.intents[i].version, account))
    ensures var begun := BeginProviderPayment(db, i, db.intents[i].version, account).tables;
      AwaitsProvider(begun, i) && begun == PutIntent(db, i, begun.intents[i]) && begun.intents[i].accountHash == account
  {
    var begun := BeginProviderPayment(db, i, db.intents[i].version, account).tables;
    BeginKeeps(db, i, db.intents[i].version, account);
    assert IntentSound(begun.intents[i], i, begun) && IntentSound(db.intents[i], i, db);
    PendingIsKnown(begun.intents[i], i, begun);
    hide IntentsSound, HistorySound, TransitionBacked, KeysUnique, AttemptsNumbered, EventsLocated;
  }

  /**
   * A started payment was bound to its own reference first; an answer that cannot be trusted leaves
   * UNKNOWN_RESULT, any other answer leaves PENDING, and no other intent is touched.
   */
  lemma StartedPaymentIsAccountedFor(db: Tables, i: nat, linkId: nat, account: Option<string>, provider: ProviderReply)
    requires Inv(db) && i < |db.intents| && StartsPayment(db, Begin(i, db.intents[i].version, account))
    ensures var begun := BeginProviderPayment(db, i, db.intents[i].version, account).tables;
      var (after, reply) := AfterProvider(begun, i, linkId, provider);
      && |after.intents| == |db.intents|
      && (forall j :: 0 <= j < |db.intents| && j != i ==> after.intents[j] == db.intents[j])
      && Accounted(after, i, provider, reply)
      && after.intents[i].accountHash == account
  {
    BegunAttempt(db, i, account);
    hide AfterProvider, HasKey, Inv;
    ProviderLeaves(BeginProviderPayment(db, i, db.intents[i].version, account).tables, i, linkId, provider);
  }

  /** The worker's read of the event it has claimed. */
  predicate Loadable(db: Tables, worker: Worker) {
    worker.w < |db.events| && !db.events[worker.w].closed && LeaseHeld(db.events[worker.w], worker.owner, worker.now)
  }

  /** An error is recorded on the event and thrown on; when recording it is refused, that refusal is thrown instead. */
  function FailedWith(db: Tables, worker: Worker, error: CheckoutError): (Tables, Result<WebhookResult, CheckoutError>) {
    match FailWebhookClaim(db, worker.now, worker.w, worker.owner, error, Retryable(error))
    case Commit(after, _) => (after, Failure(error))
    case Abort(lost) => (db, Failure(lost))
  }

  /** The whole processing of a claimed event: what it leaves behind and how it ends. */
  function ProcessClaimed(db: Tables, worker: Worker): (Tables, Result<WebhookResult, CheckoutError>) {
    if !Loadable(db, worker) then FailedWith(db, worker, WebhookEvidenceInvalid)
    else if db.events[worker.w].intentId.None? then
      var unknown := WebhookResult(ReferenceUnknown, None, None);
      match CompleteWebhookClaim(db, worker.now, worker.w, worker.owner, unknown)
      case Commit(after, _) => (after, Success(unknown))
      case Abort(error) => FailedWith(db, worker, error)
    else if !Bound(db, worker.w) then FailedWith(db, worker, CheckoutNotFound)
    else
      var work := Attempt(Load(db, worker.w), worker, EFFECTS);
      AttemptEnds(Load(db, worker.w), worker, EFFECTS);
      if work.Finished? then (work.db, Success(work.result)) else FailedWith(work.db, worker, work.error)
  }

  /** Processing that throws has recorded what it throws on the event, or has lost the event's lease and says so. */
  lemma ThrownIsRecorded(db: Tables, worker: Worker)
    requires ProcessClaimed(db, worker).1.Failure?
    ensures var (after, ending) := ProcessClaimed(db, worker);
      || (ending.error == WebhookClaimLost && !ClaimOwned(after, worker.w, worker.owner, worker.now))
      || (worker.w < |after.events| && after.events[worker.w].checkpoint == ProcessingFailed &&
          after.events[worker.w].lastError == Some(ending.error) && after.events[worker.w].leaseOwner.None?)
  {
    hide Attempt, Retryable;
  }

  /** A first delivery under the protocol is processed from an event that has changed nothing yet. */
  lemma FirstDeliveryIsFresh(db: Tables, now: int, evidence: Evidence, located: nat, owner: string, until: int)
    requires Inv(db) && FindEvent(db.events, evidence).None?
    requires located < |db.intents| && Located(db.intents[located])
    ensures var (after, claim) := ClaimWebhookEvidence(db, now, evidence, Some(located), owner, until);
      && claim == Claimed && Fresh(after, |db.events|)
      && after.events[|db.events|].attempts == 1 && after.events[|db.events|].evidence == evidence
      && (now < until ==> ClaimOwned(after, |db.events|, owner, now))
  {
    hide HistorySound, KeysUnique, AttemptsNumbered;
    var after := ClaimWebhookEvidence(db, now, evidence, Some(located), owner, until).0;
    var w := |db.events|;
    forall i, k | 0 <= i < |db.intents| && 0 <= k < |db.intents[i].transitions|
      ensures db.intents[i].transitions[k].event != Some(w)
      ensures db.intents[i].transitions[k].key != EventKey(evidence)
    {
      var t := db.intents[i].transitions[k];
      assert IntentSound(db.intents[i], i, db) && t in db.intents[i].transitions;
      assert TransitionBacked(t, db.intents[i], i, db.events);
    }
    assert IntentSound(db.intents[located], located, db);
  }

  /** A claim that was not granted, counted. */
  function Tally(counts: BatchCounts, claim: Claim): (r: BatchCounts)
    requires claim != Claimed
    ensures Total(r) == Total(counts) + 1
  {
    match claim
    case ActiveElsewhere => counts.(active := counts.active + 1)
    case Replay(_) => counts.(replayed := counts.replayed + 1)
    case Blocked | IdentityConflict => counts.(blocked := counts.blocked + 1)
  }

  /** Claims one recoverable event and, when granted, processes it. */
  function RecoverOne(db: Tables, worker: Worker, until: int, counts: BatchCounts): (r: (Tables, BatchCounts))
    ensures Total(r.1) == Total(counts) + 1
  {
    var (claimed, claim) := ClaimRecoverableWebhook(db, worker.now, worker.w, worker.owner, until);
    if claim != Claimed then (claimed, Tally(counts, claim))
    else
      var (after, ending) := ProcessClaimed(claimed, worker);
      (after, if ending.Success? then counts.(completed := counts.completed + 1) else counts.(failed := counts.failed + 1))
  }

  /** An attempt that does not finish leaves its event without a result. */
  lemma {:induction false} UnfinishedHasNoResult(work: Work, y: Worker, effects: nat)
    requires Bound(work.db, y.w) && !work.Finished? && work.db.events[y.w].result.None?
    requires !Attempt(work, y, effects).Finished?
    ensures Attempt(work, y, effects).db.events[y.w].result.None?
    decreases effects
  {
    if effects > 0 {
      EffectKeepsBound(work, y);
      EffectWithoutResult(work, y);
      hide Effect;
      if Effect(work, y).Finished? {
        FinishedStays(Effect(work, y), y, effects - 1);
      } else {
        UnfinishedHasNoResult(Effect(work, y), y, effects - 1);
      }
    }
  }

  lemma EffectWithoutResult(work: Work, y: Worker)
    requires Bound(work.db, y.w) && !work.Finished? && work.db.events[y.w].result.None?
    ensures Bound(Effect(work, y).db, y.w)
    ensures !Effect(work, y).Finished? ==> Effect(work, y).db.events[y.w].result.None?
  {
    hide EvaluateKitchen, Decide, HasKey, PaymentIdTaken, SuccessfulPaymentCount;
  }

  /** A claimed event has a result afterwards exactly when its processing succeeded. */
  lemma SuccessHasResult(db: Tables, y: Worker)
    requires y.w < |db.events| && db.events[y.w].result.None?
    ensures var (after, ending) := ProcessClaimed(db, y);
      && |after.events| == |db.events|
      && (ending.Success? <==> after.events[y.w].result.Some?)
      && (ending.Success? ==> after.events[y.w].result == Some(ending.value))
  {
    if Loadable(db, y) && db.events[y.w].intentId.Some? && Bound(db, y.w) {
      var work := Attempt(Load(db, y.w), y, EFFECTS);
      AttemptEnds(Load(db, y.w), y, EFFECTS);
      EventRowsKept(Load(db, y.w), y, EFFECTS);
      hide Attempt, Retryable;
      if work.Finished? {
        FinishedIsClosed(Load(db, y.w), y, EFFECTS);
      } else {
        UnfinishedHasNoResult(Load(db, y.w), y, EFFECTS);
      }
    } else {
      hide Attempt, Retryable;
    }
  }

  lemma {:induction false} EventRowsKept(work: Work, y: Worker, effects: nat)
    requires Bound(work.db, y.w)
    ensures |Attempt(work, y, effects).db.events| == |work.db.events|
    decreases effects
  {
    if effects > 0 {
      EffectKeepsBound(work, y);
      EffectKeepsEvents(work, y);
      hide Effect;
      EventRowsKept(Effect(work, y), y, effects - 1);
    }
  }

  lemma EffectKeepsEvents(work: Work, y: Worker)
    requires Bound(work.db, y.w)
    ensures |Effect(work, y).db.events| == |work.db.events|
  {
    hide EvaluateKitchen, Decide, HasKey, PaymentIdTaken, SuccessfulPaymentCount;
  }

  /**
   * A candidate counts as replayed when it had a result already, as completed when it has one now, as
   * failed when it was granted and has none, and as active or blocked when it was not granted.
   */
  lemma CountedMeans(db: Tables, y: Worker, until: int, counts: BatchCounts)
    requires y.w < |db.events|
    ensures var (after, r) := RecoverOne(db, y, until, counts);
      var event := db.events[y.w];
      var granted := ClaimRecoverable(event, y.now, y.owner, until).1 == Claimed;
      && |after.events| == |db.events|
      && r == if event.result.Some? then counts.(replayed := counts.replayed + 1)
              else if granted && after.events[y.w].result.Some? then counts.(completed := counts.completed + 1)
              else if granted then counts.(failed := counts.failed + 1)
              else if !event.closed && event.attempts > 0 && event.intentId.Some? && !Free(event, y.now)
              then counts.(active := counts.active + 1)
              else counts.(blocked := counts.blocked + 1)
  {
    ClaimMeans(db.events[y.w], y.now, y.owner, until);
    ClaimLeavesResult(db.events[y.w], y.now, y.owner, until);
    var (claimed, claim) := ClaimRecoverableWebhook(db, y.now, y.w, y.owner, until);
    hide ClaimRecoverable, ProcessClaimed;
    if claim == Claimed {
      SuccessHasResult(claimed, y);
    }
  }

  lemma ClaimLeavesResult(event: WebhookEvent, now: int, owner: string, until: int)
    ensures ClaimRecoverable(event, now, owner, until).0.result == event.result
  {
  }

  /** Candidates in order; each worker identity is derived from the event it claims. */
  function RecoverAll(db: Tables, batch: Batch, ids: seq<nat>, counts: BatchCounts): (Tables, BatchCounts) {
    if |ids| == 0 then (db, counts)
    else
      var n := |ids| - 1;
      var (before, counted) := RecoverAll(db, batch, ids[..n], counts);
      RecoverOne(before, Worker(batch.now, ids[n], batch.owner(ids[n]), batch.gateOpen), batch.until, counted)
  }

  lemma NextKeepsLinksBound(world: World, now: int, step: Step)
    requires LinksBound(world.db)
    ensures LinksBound(Next(world, now, step).db)
  {
    hide Next;
    NextEvolves(world, now, step);
    forall k | 0 <= k < |Next(world, now, step).db.links|
      ensures Next(world, now, step).db.links[k].intentId < |Next(world, now, step).db.intents|
    {
      NextLinks(world, now, step, k);
    }
  }

  lemma {:induction false} RunKeepsLinksBound(world: World, run: seq<Timed>)
    requires LinksBound(world.db)
    ensures LinksBound(Run(world, run).db)
    decreases |run|
  {
    if |run| > 0 {
      NextKeepsLinksBound(world, run[0].now, run[0].step);
      RunKeepsLinksBound(Next(world, run[0].now, run[0].step), run[1..]);
    }
  }

  /** A link that resolves is one the protocol allows a payment to be started behind. */
  lemma ResolvedStartIsDisciplined(db: Tables, now: int, linkId: nat, referenceExpiresAt: int, account: Option<string>)
    requires LinksNested(db) && ResolvePaymentLink(db, now, linkId, referenceExpiresAt).Some?
    ensures var i := db.links[linkId].intentId;
      && i < |db.intents|
      && Disciplined(db, now, Begin(i, db.intents[i].version, account))
      && WithinOwnTtl(db.intents[i], now)
  {
    assert LinkUsable(db.links[linkId], now);
  }

  /** A command that opens its attempt gives the link the attempt's own expiry, however late the link is created. */
  lemma FirstCommandIsDisciplined(db: Tables, now: int, later: int, c: nat, key: string, expiresAt: int)
    requires CreatePaymentIntent(db, now, c, key, expiresAt).Commit? && FindByKey(db.intents, key).None?
    ensures var created := CreatePaymentIntent(db, now, c, key, expiresAt);
      Disciplined(created.tables, later, CreateLink(created.value, expiresAt))
  {
  }

  /** The answer when the provider is not called: by the link, and then by the attempt's status. */
  function Uncalled(db: Tables, now: int, linkId: nat, referenceExpiresAt: int): Result<StartReply, CheckoutError>
    requires LinksBound(db)
  {
    if linkId >= |db.links| || db.links[linkId].expiresAt != referenceExpiresAt || db.links[linkId].revoked ||
       !LinkUsable(db.links[linkId], now)
    then Failure(PaymentLinkNotFound)
    else
      match db.intents[db.links[linkId].intentId].status
      case UnknownResult => Failure(PaymentResultUnknown)
      case FinancialReviewRequired => Failure(FinancialReviewPending)
      case Created | LinkReady => Failure(PaymentIntentConflict)
      case Pending => Success(StartReply(Pending, false, true))
      case Succeeded => Success(StartReply(Succeeded, false, true))
      case Failed => Success(StartReply(Failed, false, true))
      case Expired => Success(StartReply(Expired, false, true))
      case Cancelled => Success(StartReply(Cancelled, false, true))
  }

  /** An unstarted attempt is started, unless somebody else carries its reference. */
  lemma BeginAnswers(db: Tables, i: nat, account: Option<string>)
    requires Inv(db) && i < |db.intents| && db.intents[i].status in {Created, LinkReady}
    ensures var begun := BeginProviderPayment(db, i, db.intents[i].version, account);
      if ReferenceTaken(db, i, CheckoutReference(i)) then begun == Abort(PaymentIntentConflict) else begun.Commit? && begun.value
  {
    assert IntentSound(db.intents[i], i, db);
    UnstartedIsUnasked(db.intents[i], i, db);
    hide Inv, HasKey, ReferenceTaken;
  }

  lemma BegunTakesNothing(db: Tables, i: nat, account: Option<string>, provider: ProviderReply)
    requires i < |db.intents| && StartsPayment(db, Begin(i, db.intents[i].version, account))
    ensures var begun := BeginProviderPayment(db, i, db.intents[i].version, account).tables;
      && begun.links == db.links
      && (provider.Answer? ==> (PaymentIdTaken(begun, i, provider.paymentId) <==> PaymentIdTaken(db, i, provider.paymentId)))
  {
    hide HasKey, ReferenceTaken;
    var begun := BeginProviderPayment(db, i, db.intents[i].version, account).tables;
    if provider.Answer? {
      TakenByOthers(db, begun, i, provider.paymentId);
    }
  }

  lemma TakenByOthers(a: Tables, b: Tables, i: nat, paymentId: string)
    requires |a.intents| == |b.intents| && forall j :: 0 <= j < |a.intents| && j != i ==> a.intents[j] == b.intents[j]
    ensures PaymentIdTaken(a, i, paymentId) <==> PaymentIdTaken(b, i, paymentId)
  {
    if PaymentIdTaken(a, i, paymentId) {
      var j :| 0 <= j < |a.intents| && j != i && a.intents[j].providerPaymentId == Some(paymentId);
      assert b.intents[j] == a.intents[j];
    }
    if PaymentIdTaken(b, i, paymentId) {
      var j :| 0 <= j < |b.intents| && j != i && b.intents[j].providerPaymentId == Some(paymentId);
      assert a.intents[j] == b.intents[j];
    }
  }

  lemma OneCounted(db: Tables, worker: Worker, until: int, counts: BatchCounts)
    ensures Total(RecoverOne(db, worker, until, counts).1) == Total(counts) + 1
  {
    hide RecoverOne;
  }

  // Every transaction of the service is a step of the protocol

  /** The protocol's invariants, and every link belongs to an existing intent. */
  ghost predicate Sound(world: World) {
    Inv(world.db) && LinksBound(world.db) && KitchenSound(world)
  }

  /** Some run of the protocol leads from one world to the other. */
  ghost predicate Follows(a: World, b: World) {
    exists run :: Run(a, run) == b
  }

  lemma {:induction false} RunOn(world: World, run: seq<Timed>, more: seq<Timed>)
    ensures Run(world, run + more) == Run(Run(world, run), more)
    decreases |run|
  {
    hide Next;
    if |run| == 0 {
      assert run + more == more;
    } else {
      assert (run + more)[1..] == run[1..] + more;
      RunOn(Next(world, run[0].now, run[0].step), run[1..], more);
    }
  }

  lemma FollowsItself(a: World)
    ensures Follows(a, a)
  {
    assert Run(a, []) == a;
  }

  lemma FollowsThrough(a: World, b: World, c: World)
    requires Follows(a, b) && Follows(b, c)
    ensures Follows(a, c)
  {
    var first :| Run(a, first) == b;
    var second :| Run(b, second) == c;
    RunOn(a, first, second);
  }

  lemma StepFollows(a: World, now: int, step: Step)
    ensures Follows(a, Next(a, now, step))
  {
    hide Next;
    assert [At(now, step)][1..] == [];
    assert Run(a, [At(now, step)]) == Next(a, now, step);
  }

  lemma FollowsKeepsSound(a: World, b: World)
    requires Sound(a) && Follows(a, b)
    ensures Sound(b)
  {
    hide Run, Inv, LinksBound, KitchenSound;
    var run :| Run(a, run) == b;
    RunKeepsKitchen(a, run);
    RunKeepsLinksBound(a, run);
  }

  lemma SoundCommandMeans(a: World, now: int, later: int, ttl: int, c: nat, key: string)
    requires Sound(a)
    ensures var (after, reply) := LinkCommand(a.db, now, later, ttl, c, key);
      && (reply.Success? <==> LinkGranted(a.db, now, later, c, key))
      && (reply.Failure? ==> after == a.db && Refused(a.db, now, later, c, key, reply.error))
  {
    hide LinkCommand, LinkGranted, Refused, IntentsSound, AttemptsNumbered, EventsLocated, KitchenSound;
    LinkCommandMeans(a.db, now, later, ttl, c, key);
  }

  lemma CreateFollows(a: World, now: int, c: nat, key: string, expiresAt: int)
    requires c < |a.db.checkouts| && a.db.checkouts[c].preference == Online
    ensures Follows(a, World(TablesAfter(a.db, CreatePaymentIntent(a.db, now, c, key, expiresAt)), a.approved))
  {
    hide CreatePaymentIntent, Follows;
    StepFollows(a, now, CreateIntent(c, key, expiresAt));
  }

  lemma LinkFollows(a: World, now: int, i: nat, expiresAt: int)
    ensures Follows(a, World(TablesAfter(a.db, CreatePaymentLink(a.db, now, i, expiresAt)), a.approved))
  {
    hide CreatePaymentLink, Follows;
    StepFollows(a, now, CreateLink(i, expiresAt));
  }

  lemma BeginFollows(a: World, now: int, i: nat, version: nat, account: Option<string>)
    ensures Follows(a, World(TablesAfter(a.db, BeginProviderPayment(a.db, i, version, account)), a.approved))
  {
    hide BeginProviderPayment, Follows;
    StepFollows(a, now, Begin(i, version, account));
  }

  lemma UnknownFollows(a: World, now: int, i: nat)
    ensures Follows(a, World(TablesAfter(a.db, MarkProviderPaymentUnknown(a.db, i)), a.approved))
  {
    hide MarkProviderPaymentUnknown, Follows;
    StepFollows(a, now, MarkUnknown(i));
  }

  lemma BindFollows(a: World, now: int, i: nat, paymentId: string)
    ensures Follows(a, World(TablesAfter(a.db, BindProviderPaymentResult(a.db, i, paymentId)), a.approved))
  {
    hide BindProviderPaymentResult, Follows;
    StepFollows(a, now, CheckoutProtocol.Bind(i, paymentId));
  }

  lemma OpenFollows(a: World, now: int, k: nat)
    ensures Follows(a, World(TablesAfter(a.db, MarkPaymentLinkOpened(a.db, k)), a.approved))
  {
    hide MarkPaymentLinkOpened, Follows;
    StepFollows(a, now, OpenLink(k));
  }

  lemma CompleteFollows(a: World, y: Worker, result: WebhookResult)
    ensures Follows(a, World(TablesAfter(a.db, CompleteWebhookClaim(a.db, y.now, y.w, y.owner, result)), a.approved))
  {
    hide CompleteWebhookClaim, Follows;
    StepFollows(a, y.now, CheckoutProtocol.Complete(y.w, y.owner, result));
  }

  lemma FailFollows(a: World, y: Worker, error: CheckoutError, retryable: bool)
    ensures Follows(a, World(TablesAfter(a.db, FailWebhookClaim(a.db, y.now, y.w, y.owner, error, retryable)), a.approved))
  {
    hide FailWebhookClaim, Follows;
    StepFollows(a, y.now, CheckoutProtocol.Fail(y.w, y.owner, error, retryable));
  }

  lemma RecoverFollows(a: World, y: Worker, until: int)
    ensures Follows(a, World(ClaimRecoverableWebhook(a.db, y.now, y.w, y.owner, until).0, a.approved))
  {
    hide ClaimRecoverableWebhook, Follows;
    StepFollows(a, y.now, Recover(y.w, y.owner, until));
  }

  /** The step an effect other than a release takes, when it changes anything. */
  function StepOf(work: Work, y: Worker): Step
    requires Bound(work.db, y.w) && work.Running?
  {
    var i := IntentId(work.db, y.w);
    var c := work.db.intents[i].checkoutId;
    if work.pc == 1 then Apply(y.w, y.owner, work.db.intents[i], work.db.checkouts[c].status)
    else if work.pc == 3 then if SuccessfulPaymentCount(work.db, c) > 1 then RequireReview(c) else Verify(c)
    else if work.pc in {0, 2, 5} then
      CheckoutProtocol.Checkpoint(y.w, y.owner,
        if work.pc == 0 then Validated else if work.pc == 2 then TransitionApplied else DownstreamApplied)
    else CheckoutProtocol.Complete(y.w, y.owner, Report(work, i))
  }

  lemma EffectIsStep(world: World, work: Work, y: Worker)
    requires world.db == work.db && Bound(work.db, y.w) && work.Running? && work.pc != 4
    ensures Effect(work, y).db == work.db || World(Effect(work, y).db, world.approved) == Next(world, y.now, StepOf(work, y))
  {
    hide Decide, HasKey, PaymentIdTaken, SuccessfulPaymentCount;
  }

  /** A release is an evaluation that says yes, followed by the mark; nothing else changes there. */
  lemma ReleaseIsSteps(world: World, work: Work, y: Worker)
    requires world.db == work.db && Bound(work.db, y.w) && work.Running? && work.pc == 4
    ensures Effect(work, y).db != work.db ==>
      var c := work.db.intents[IntentId(work.db, y.w)].checkoutId;
      var marked := Next(Next(world, y.now, Evaluate(c)), y.now, Kitchen(c));
      && y.gateOpen && EvaluateKitchen(work.db, c) == Success(true)
      && marked == World(Effect(work, y).db, world.approved + {c})
  {
    hide EvaluateKitchen;
  }

  /** So each effect of an attempt, from the world's own approvals, leads along a run of the protocol. */
  lemma EffectFollows(world: World, work: Work, y: Worker) returns (next: World)
    requires world.db == work.db && Bound(work.db, y.w)
    ensures next.db == Effect(work, y).db && Follows(world, next)
    ensures next.approved != world.approved ==>
      && y.gateOpen && work.Running?
      && var c := work.db.intents[IntentId(work.db, y.w)].checkoutId;
         EvaluateKitchen(work.db, c) == Success(true) && next.approved == world.approved + {c}
  {
    hide Effect, Next, Follows, EvaluateKitchen;
    FollowsItself(world);
    next := world;
    if !work.Running? {
      DoneStays(work, y);
    } else if Effect(work, y).db != work.db {
      if work.pc == 4 {
        ReleaseIsSteps(world, work, y);
        var c := work.db.intents[IntentId(work.db, y.w)].checkoutId;
        var evaluated := Next(world, y.now, Evaluate(c));
        next := Next(evaluated, y.now, Kitchen(c));
        StepFollows(world, y.now, Evaluate(c));
        StepFollows(evaluated, y.now, Kitchen(c));
        FollowsThrough(world, evaluated, next);
      } else {
        EffectIsStep(world, work, y);
        next := Next(world, y.now, StepOf(work, y));
        StepFollows(world, y.now, StepOf(work, y));
      }
    }
  }

  lemma DoneStays(work: Work, y: Worker)
    requires !work.Running?
    ensures Effect(work, y) == work
  {
  }

  class Payments {
    var db: Tables
    /** The checkouts for which a kitchen evaluation has said yes. */
    ghost var approved: set<nat>

    ghost function State(): World
      reads this
    {
      World(db, approved)
    }

    ghost predicate Valid()
      reads this
    {
      Sound(State())
    }

    constructor ()
      ensures Valid() && State() == START
    {
      db, approved := START.db, {};
      new;
      StartIsSound();
    }

    /** Asks for an online payment link; repeating a command returns its own intent and a link of it. */
    method CreateOnlinePaymentLink(now: int, later: int, configuredTtl: int, checkoutId: nat, key: string)
      returns (reply: Result<PaymentLinkReply, CheckoutError>)
      requires Valid()
      modifies this
      ensures Valid() && Follows(old(State()), State()) && approved == old(approved)
      ensures (db, reply) == LinkCommand(old(db), now, later, configuredTtl, checkoutId, key)
      ensures reply.Success? <==> LinkGranted(old(db), now, later, checkoutId, key)
      ensures reply.Failure? ==> db == old(db) && Refused(old(db), now, later, checkoutId, key, reply.error)
      ensures var expiresAt := now + PaymentTtlMinutes(configuredTtl) * MINUTE_MS;
        var created := TablesAfter(old(db), CreatePaymentIntent(old(db), now, checkoutId, key, expiresAt));
        reply.Success? ==>
              var PaymentLinkReply(i, k, replayed) := reply.value;
              && Answers(db, i, checkoutId, key)
              && checkoutId < |old(db).checkouts| && old(db).checkouts[checkoutId].preference == Online
              && ValidCombination(old(db).checkouts[checkoutId].fulfillment, Online)
              && k < |db.links| && db.links[k].intentId == i
              && db == TablesAfter(created, CreatePaymentLink(created, later, i, expiresAt))
              && (replayed <==> db.links == old(db.links))
              && (replayed ==> LinkUsable(db.links[k], later))
              && (!replayed ==> db.links == old(db.links) + [PaymentLink(i, expiresAt, false, Active)] &&
                                db.intents[i].status == LinkReady)
    {
      hide Sound, Follows, LinkGranted, Refused;
      ghost var start := State();
      FollowsItself(start);
      SoundCommandMeans(start, now, later, configuredTtl, checkoutId, key);
      if checkoutId >= |db.checkouts| {
        return Failure(CheckoutNotFound);
      }
      var checkout := db.checkouts[checkoutId];
      if !ValidCombination(checkout.fulfillment, checkout.preference) || checkout.preference != Online {
        return Failure(CombinationInvalid);
      }
      var expiresAt := now + PaymentTtlMinutes(configuredTtl) * MINUTE_MS;
      var intentId;
      match CreatePaymentIntent(db, now, checkoutId, key, expiresAt) {
        case Abort(error) => return Failure(error);
        case Commit(after, i) =>
          AcceptedIsAnswered(db, now, checkoutId, key, expiresAt);
          CreateFollows(start, now, checkoutId, key, expiresAt);
          db := after;
          intentId := i;
      }
      ghost var created := State();
      FollowsKeepsSound(start, created);
      var existing := FindActiveLink(db.links, intentId, later);
      if existing.Some? {
        return Success(PaymentLinkReply(intentId, existing.value, true));
      }
      match CreatePaymentLink(db, later, intentId, expiresAt) {
        case Abort(error) => return Failure(error);
        case Commit(after, (linkId, isNew)) =>
          LinkFollows(created, later, intentId, expiresAt);
          db := after;
          FollowsThrough(start, created, State());
          FollowsKeepsSound(start, State());
          return Success(PaymentLinkReply(intentId, linkId, !isNew));
      }
    }

    /** Starts the provider payment behind a link; the provider is called exactly when this call began it. */
    method StartBoldPayment(now: int, linkId: nat, referenceExpiresAt: int, account: Option<string>, provider: ProviderReply)
      returns (reply: Result<StartReply, CheckoutError>, called: bool)
      requires Valid()
      modifies this
      ensures Valid() && Follows(old(State()), State())
      ensures called <==>
        (ResolvePaymentLink(old(db), now, linkId, referenceExpiresAt).Some? &&
         var i := old(db).links[linkId].intentId;
         StartsPayment(old(db), Begin(i, old(db).intents[i].version, account)))
      ensures !called ==> db == old(db) && reply == Uncalled(old(db), now, linkId, referenceExpiresAt)
      ensures called ==>
        (var i := old(db).links[linkId].intentId;
         var begun := BeginProviderPayment(old(db), i, old(db).intents[i].version, account).tables;
         (db, reply) == AfterProvider(begun, i, linkId, provider))
      ensures called ==>
        (var i := old(db).links[linkId].intentId;
         && Accounted(db, i, provider, reply) && |db.intents| == |old(db).intents| && db.intents[i].accountHash == account
         && Answered(old(db), db, i, linkId, provider, reply)
         && (forall j :: 0 <= j < |db.intents| && j != i ==> db.intents[j] == old(db).intents[j]))
    {
      hide AfterProvider, HasKey, ReferenceTaken, Follows, KitchenSound, Inv;
      ghost var start := State();
      FollowsItself(start);
      called := false;
      var resolved := ResolvePaymentLink(db, now, linkId, referenceExpiresAt);
      if resolved.None? {
        return Failure(PaymentLinkNotFound), called;
      }
      var i := resolved.value.intentId;
      var intent := db.intents[i];
      StartsExactly(db, i, intent.version, account);
      if intent.status == UnknownResult || intent.status == FinancialReviewRequired {
        return Failure(if intent.status == UnknownResult then PaymentResultUnknown else FinancialReviewPending), called;
      }
      if intent.status !in {Created, LinkReady} {
        return Success(StartReply(intent.status, false, true)), called;
      }
      BeginAnswers(db, i, account);
      match BeginProviderPayment(db, i, intent.version, account) {
        case Abort(error) => return Failure(error), called;
        case Commit(begun, started) =>
          if !started {
            return Success(StartReply(intent.status, false, true)), called;
          }
          BegunAttempt(db, i, account);
          BegunTakesNothing(db, i, account, provider);
          BeginFollows(start, now, i, intent.version, account);
          db := begun;
      }
      ghost var begun := State();
      FollowsKeepsSound(start, begun);
      called := true;
      reply := AskProvider(now, i, linkId, provider);
      FollowsThrough(start, begun, State());
    }

    /** The provider's answer is bound to the intent, or the result is recorded as unknown. */
    method AskProvider(now: int, i: nat, linkId: nat, provider: ProviderReply) returns (reply: Result<StartReply, CheckoutError>)
      requires Valid() && AwaitsProvider(db, i)
      modifies this
      ensures Valid() && Follows(old(State()), State())
      ensures (db, reply) == AfterProvider(old(db), i, linkId, provider)
      ensures Accounted(db, i, provider, reply) && db.intents[i].accountHash == old(db).intents[i].accountHash
      ensures Answered(old(db), db, i, linkId, provider, reply)
      ensures |db.intents| == |old(db).intents|
      ensures forall j :: 0 <= j < |db.intents| && j != i ==> db.intents[j] == old(db).intents[j]
    {
      hide Sound, Follows, Accounted, Answered;
      ghost var start := State();
      FollowsItself(start);
      ProviderLeaves(db, i, linkId, provider);
      if !Trusted(provider) {
        match MarkProviderPaymentUnknown(db, i) {
          case Abort(error) => return Failure(error);
          case Commit(after, marked) =>
            UnknownFollows(start, now, i);
            db := after;
            FollowsKeepsSound(start, State());
            return UnmarkedReply(db, i, marked);
        }
      }
      match BindProviderPaymentResult(db, i, provider.paymentId) {
        case Abort(error) => return Failure(error);
        case Commit(after, _) =>
          BindFollows(start, now, i, provider.paymentId);
          db := after;
      }
      ghost var bound := State();
      FollowsKeepsSound(start, bound);
      match MarkPaymentLinkOpened(db, linkId) {
        case Abort(error) => return Failure(error);
        case Commit(after, _) =>
          OpenFollows(bound, now, linkId);
          db := after;
          FollowsThrough(start, bound, State());
          FollowsKeepsSound(start, State());
      }
      return Success(StartReply(Pending, true, false));
    }

    /** One claimed event, effect by effect; any error is recorded on the event before it is thrown on. */
    method ProcessClaimedWebhook(worker: Worker) returns (ending: Result<WebhookResult, CheckoutError>)
      requires Valid()
      modifies this
      ensures Valid() && Follows(old(State()), State())
      ensures (db, ending) == ProcessClaimed(old(db), worker)
      ensures !worker.gateOpen ==> approved == old(approved)
    {
      hide Effect, FailWebhookClaim, Sound, Follows;
      ghost var start := State();
      FollowsItself(start);
      if !Loadable(db, worker) {
        ending := FailClaim(worker, WebhookEvidenceInvalid);
        return;
      }
      if db.events[worker.w].intentId.None? {
        var unknown := WebhookResult(ReferenceUnknown, None, None);
        match CompleteWebhookClaim(db, worker.now, worker.w, worker.owner, unknown) {
          case Abort(error) => ending := FailClaim(worker, error);
          case Commit(after, _) =>
            CompleteFollows(start, worker, unknown);
            db := after;
            FollowsKeepsSound(start, State());
            ending := Success(unknown);
        }
        return;
      }
      if !Bound(db, worker.w) {
        ending := FailClaim(worker, CheckoutNotFound);
        return;
      }
      var work := Load(db, worker.w);
      AttemptEnds(work, worker, EFFECTS);
      for n := 0 to EFFECTS
        invariant Bound(work.db, worker.w)
        invariant Attempt(work, worker, EFFECTS - n) == Attempt(Load(old(db), worker.w), worker, EFFECTS)
        invariant db == work.db && Follows(start, State())
        invariant !worker.gateOpen ==> approved == old(approved)
      {
        EffectKeepsBound(work, worker);
        ghost var next := EffectFollows(State(), work, worker);
        FollowsThrough(start, State(), next);
        work := Effect(work, worker);
        db := work.db;
        approved := next.approved;
      }
      FollowsKeepsSound(start, State());
      if work.Finished? {
        return Success(work.result);
      }
      ghost var thrown := State();
      ending := FailClaim(worker, work.error);
      FollowsThrough(start, thrown, State());
    }

    method FailClaim(worker: Worker, error: CheckoutError) returns (ending: Result<WebhookResult, CheckoutError>)
      requires Valid()
      modifies this`db
      ensures Valid() && Follows(old(State()), State())
      ensures (db, ending) == FailedWith(old(db), worker, error)
    {
      hide Sound, Follows, FailWebhookClaim;
      ghost var start := State();
      FollowsItself(start);
      match FailWebhookClaim(db, worker.now, worker.w, worker.owner, error, Retryable(error)) {
        case Abort(lost) => return Failure(lost);
        case Commit(after, _) =>
          FailFollows(start, worker, error, Retryable(error));
          db := after;
          FollowsKeepsSound(start, State());
          return Failure(error);
      }
    }

    method RecoverCandidate(worker: Worker, until: int, counts: BatchCounts) returns (counted: BatchCounts)
      requires Valid()
      modifies this
      ensures Valid() && Follows(old(State()), State())
      ensures (db, counted) == RecoverOne(old(db), worker, until, counts)
      ensures !worker.gateOpen ==> approved == old(approved)
    {
      hide ClaimRecoverableWebhook, ProcessClaimed, Sound, Follows;
      ghost var start := State();
      var (after, claim) := ClaimRecoverableWebhook(db, worker.now, worker.w, worker.owner, until);
      RecoverFollows(start, worker, until);
      db := after;
      ghost var claimed := State();
      FollowsKeepsSound(start, claimed);
      if claim != Claimed {
        return Tally(counts, claim);
      }
      var ending := ProcessClaimedWebhook(worker);
      FollowsThrough(start, claimed, State());
      if ending.Success? {
        return counts.(completed := counts.completed + 1);
      }
      return counts.(failed := counts.failed + 1);
    }

    /** The recovery batch: every candidate is claimed and processed on its own, and counted once. */
    method RecoverPendingBatch(batch: Batch, ids: seq<nat>) returns (counts: BatchCounts)
      requires Valid()
      modifies this
      ensures Valid() && Follows(old(State()), State())
      ensures (db, counts) == RecoverAll(old(db), batch, ids, BatchCounts(0, 0, 0, 0, 0))
      ensures Total(counts) == |ids|
      ensures !batch.gateOpen ==> approved == old(approved)
    {
      hide Sound, Follows, RecoverOne;
      ghost var start := State();
      FollowsItself(start);
      counts := BatchCounts(0, 0, 0, 0, 0);
      for n := 0 to |ids|
        invariant (db, counts) == RecoverAll(old(db), batch, ids[..n], BatchCounts(0, 0, 0, 0, 0))
        invariant Total(counts) == n && Valid() && Follows(start, State())
        invariant !batch.gateOpen ==> approved == old(approved)
      {
        assert ids[..n + 1][..n] == ids[..n];
        ghost var before := State();
        var worker := Worker(batch.now, ids[n], batch.owner(ids[n]), batch.gateOpen);
        OneCounted(db, worker, batch.until, counts);
        counts := RecoverCandidate(worker, batch.until, counts);
        FollowsThrough(start, before, State());
      }
      assert ids[..|ids|] == ids;
    }
  }
}
