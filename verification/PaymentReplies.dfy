/** What a request for a payment link is answered, in terms of the rows it finds. */
module PaymentReplies {
  import opened Wrappers
  import opened PaymentLifecycle
  import opened CheckoutTables
  import opened CheckoutPolicy
  import opened CheckoutRepository
  import opened CheckoutProtocol
  import opened CheckoutSafety

  const MINUTE_MS: int := 60000

  /** The configured link lifetime, kept between a minute and a day. */
  function PaymentTtlMinutes(configured: int): (ttl: int)
    ensures 1 <= ttl <= 1440
    ensures 1 <= configured <= 1440 ==> ttl == configured
    ensures (configured < 1 ==> ttl == 1) && (configured > 1440 ==> ttl == 1440)
  {
    var atLeast := if configured < 1 then 1 else configured;
    if atLeast > 1440 then 1440 else atLeast
  }

  datatype PaymentLinkReply = PaymentLinkReply(intentId: nat, linkId: nat, replayed: bool)

  /** Every link belongs to an existing intent. */
  ghost predicate LinksBound(db: Tables) {
    forall k :: 0 <= k < |db.links| ==> db.links[k].intentId < |db.intents|
  }

  /** The whole answer to a request for a payment link. */
  function LinkCommand(db: Tables, now: int, later: int, configuredTtl: int, c: nat, key: string): (Tables, Result<PaymentLinkReply, CheckoutError>) {
    if c >= |db.checkouts| then (db, Failure(CheckoutNotFound))
    else if !ValidCombination(db.checkouts[c].fulfillment, db.checkouts[c].preference) || db.checkouts[c].preference != Online then
      (db, Failure(CombinationInvalid))
    else
      var expiresAt := now + PaymentTtlMinutes(configuredTtl) * MINUTE_MS;
      match CreatePaymentIntent(db, now, c, key, expiresAt)
      case Abort(error) => (db, Failure(error))
      case Commit(created, i) =>
        var existing := FindActiveLink(created.links, i, later);
        if existing.Some? then (created, Success(PaymentLinkReply(i, existing.value, true)))
        else
          match CreatePaymentLink(created, later, i, expiresAt)
          case Abort(error) => (created, Failure(error))
          case Commit(after, (k, isNew)) => (after, Success(PaymentLinkReply(i, k, !isNew)))
  }

  /** The attempt stands in the way of another one. */
  predicate Blocks(x: PaymentIntent, now: int) {
    x.status in {Pending, UnknownResult, FinancialReviewRequired, Succeeded} ||
    (x.status in {Created, LinkReady} && (x.expiresAt.None? || x.expiresAt.value > now))
  }

  /** Still in flight within its own time, and not beyond that. */
  predicate InFlight(x: PaymentIntent, now: int) {
    x.status in {Created, LinkReady, Pending} && (x.expiresAt.None? || x.expiresAt.value > now)
  }

  /** Row `i` is an earlier attempt of the checkout under the key. */
  predicate Own(db: Tables, i: nat, c: nat, key: string) {
    i < |db.intents| && db.intents[i].checkoutId == c && db.intents[i].idempotencyKey == key
  }

  ghost predicate Repeated(db: Tables, c: nat, key: string) {
    exists i: nat :: Own(db, i, c, key)
  }

  predicate AtPrice(db: Tables, i: nat, c: nat)
    requires i < |db.intents| && c < |db.checkouts|
  {
    db.intents[i].amount == db.checkouts[c].total && db.intents[i].currency == db.checkouts[c].currency
  }

  ghost predicate HasUsableLink(db: Tables, i: nat, now: int) {
    exists k: nat :: k < |db.links| && db.links[k].intentId == i && LinkUsable(db.links[k], now)
  }

  predicate PaysOnline(checkout: Checkout) {
    checkout.preference == Online && checkout.fulfillment in {Delivery, Takeaway}
  }

  predicate Payable(checkout: Checkout, now: int) {
    checkout.status in {Confirmed, PaymentPending} && (checkout.expiresAt.None? || checkout.expiresAt.value > now)
  }

  /**
   * The command is granted: on an online checkout, it repeats an earlier one at the same price whose
   * attempt has a usable link or can still get one, or it is new, its key is nobody's, the checkout is
   * payable and unexpired, and no attempt of it is in the way.
   */
  ghost predicate LinkGranted(db: Tables, now: int, later: int, c: nat, key: string) {
    c < |db.checkouts| && PaysOnline(db.checkouts[c]) &&
    if Repeated(db, c, key) then
      exists i: nat :: Own(db, i, c, key) && AtPrice(db, i, c) && (HasUsableLink(db, i, later) || db.intents[i].status == Created)
    else
      && Payable(db.checkouts[c], now)
      && (forall j: nat :: j < |db.intents| && db.intents[j].checkoutId == c ==> !Blocks(db.intents[j], now))
      && (forall j: nat :: j < |db.intents| ==> db.intents[j].idempotencyKey != key)
  }

  /** The newest attempt in the way of another one. */
  predicate NewestBlocker(db: Tables, now: int, c: nat, j: nat) {
    j < |db.intents| && db.intents[j].checkoutId == c && Blocks(db.intents[j], now) &&
    forall l: nat | j < l < |db.intents| :: db.intents[l].checkoutId == c ==> !Blocks(db.intents[l], now)
  }

  /** A refused command is told the first thing that is wrong. */
  ghost predicate Refused(db: Tables, now: int, later: int, c: nat, key: string, error: CheckoutError) {
    if c >= |db.checkouts| then error == CheckoutNotFound
    else if !PaysOnline(db.checkouts[c]) then error == CombinationInvalid
    else if Repeated(db, c, key) then error == PaymentIntentConflict
    else if db.checkouts[c].status !in {Confirmed, PaymentPending} then error == CheckoutNotPayable
    else if !Payable(db.checkouts[c], now) then error == CheckoutHasExpired
    else if exists j: nat :: NewestBlocker(db, now, c, j) then
      exists j: nat :: NewestBlocker(db, now, c, j) &&
        error == (if InFlight(db.intents[j], now) then PaymentAttemptActive else PaymentRelinkBlocked)
    else error == PaymentIntentConflict
  }

  lemma BlockerMeans(x: PaymentIntent, now: int)
    ensures Blocker(x, now) ==
            if !Blocks(x, now) then None else Some(if InFlight(x, now) then PaymentAttemptActive else PaymentRelinkBlocked)
  {
  }

  lemma {:induction false} FirstBlockerMeans(intents: seq<PaymentIntent>, now: int, c: nat)
    ensures var db := Tables([], intents, [], []);
      match FirstBlocker(AttemptsNewestFirst(intents, c), now)
      case None => forall j: nat :: j < |intents| && intents[j].checkoutId == c ==> !Blocks(intents[j], now)
      case Some(error) =>
        exists j: nat :: NewestBlocker(db, now, c, j) &&
          error == (if InFlight(intents[j], now) then PaymentAttemptActive else PaymentRelinkBlocked)
  {
    hide Blocker, InFlight, Blocks;
    if |intents| > 0 {
      var n := |intents| - 1;
      var db, earlier := Tables([], intents, [], []), Tables([], intents[..n], [], []);
      FirstBlockerMeans(intents[..n], now, c);
      BlockerMeans(intents[n], now);
      if intents[n].checkoutId == c && Blocks(intents[n], now) {
        assert NewestBlocker(db, now, c, n);
      } else {
        if intents[n].checkoutId == c {
          assert AttemptsNewestFirst(intents, c)[1..] == AttemptsNewestFirst(intents[..n], c);
        }
        if FirstBlocker(AttemptsNewestFirst(intents[..n], c), now).Some? {
          var j: nat :| NewestBlocker(earlier, now, c, j) && FirstBlocker(AttemptsNewestFirst(intents[..n], c), now) ==
            Some(if InFlight(intents[..n][j], now) then PaymentAttemptActive else PaymentRelinkBlocked);
          StillNewest(earlier, db, now, c, j);
        }
      }
    }
  }

  lemma StillNewest(a: Tables, b: Tables, now: int, c: nat, j: nat)
    requires NewestBlocker(a, now, c, j) && |b.intents| == |a.intents| + 1 && a.intents == b.intents[..|a.intents|]
    requires b.intents[|a.intents|].checkoutId == c ==> !Blocks(b.intents[|a.intents|], now)
    ensures NewestBlocker(b, now, c, j) && b.intents[j] == a.intents[j]
  {
    assert forall l: nat :: l < |a.intents| ==> a.intents[l] == b.intents[l];
    hide Blocks;
  }

  /** When a command opens, repeats, or is refused an attempt. */
  lemma CreateAnswers(db: Tables, now: int, c: nat, key: string, expiresAt: int)
    requires KeysUnique(db) && c < |db.checkouts|
    ensures var created := CreatePaymentIntent(db, now, c, key, expiresAt);
      if Repeated(db, c, key) then
        forall i: nat :: Own(db, i, c, key) ==> created == if AtPrice(db, i, c) then Commit(db, i) else Abort(PaymentIntentConflict)
      else if !Payable(db.checkouts[c], now) then
        created == Abort(if db.checkouts[c].status !in {Confirmed, PaymentPending} then CheckoutNotPayable else CheckoutHasExpired)
      else if exists j: nat :: NewestBlocker(db, now, c, j) then
        exists j: nat :: NewestBlocker(db, now, c, j) &&
          created == Abort(if InFlight(db.intents[j], now) then PaymentAttemptActive else PaymentRelinkBlocked)
      else if exists j: nat :: j < |db.intents| && db.intents[j].idempotencyKey == key then created == Abort(PaymentIntentConflict)
      else created.Commit? && created.value == |db.intents|
  {
    if i: nat :| Own(db, i, c, key) {
      RepeatAnswers(db, now, c, key, expiresAt, i);
      hide CreatePaymentIntent;
    } else {
      NewAnswers(db, now, c, key, expiresAt);
      hide CreatePaymentIntent;
    }
  }

  lemma RepeatAnswers(db: Tables, now: int, c: nat, key: string, expiresAt: int, i: nat)
    requires KeysUnique(db) && c < |db.checkouts| && Own(db, i, c, key)
    ensures CreatePaymentIntent(db, now, c, key, expiresAt) == if AtPrice(db, i, c) then Commit(db, i) else Abort(PaymentIntentConflict)
    ensures forall l: nat :: Own(db, l, c, key) ==> l == i
  {
    AttemptsAreTheIntents(db.intents, c);
    assert db.intents[i] in AttemptsNewestFirst(db.intents, c);
    assert FindByKey(db.intents, key) == Some(i);
  }

  lemma NewAnswers(db: Tables, now: int, c: nat, key: string, expiresAt: int)
    requires c < |db.checkouts| && !Repeated(db, c, key)
    ensures var created := CreatePaymentIntent(db, now, c, key, expiresAt);
      if !Payable(db.checkouts[c], now) then
        created == Abort(if db.checkouts[c].status !in {Confirmed, PaymentPending} then CheckoutNotPayable else CheckoutHasExpired)
      else if exists j: nat :: NewestBlocker(db, now, c, j) then
        exists j: nat :: NewestBlocker(db, now, c, j) &&
          created == Abort(if InFlight(db.intents[j], now) then PaymentAttemptActive else PaymentRelinkBlocked)
      else if exists j: nat :: j < |db.intents| && db.intents[j].idempotencyKey == key then created == Abort(PaymentIntentConflict)
      else created.Commit? && created.value == |db.intents|
  {
    NotAmongAttempts(db, c, key);
    BlockersOf(db, now, c);
    hide FirstBlocker, AttemptsNewestFirst, Repeated, NewestBlocker, InFlight;
  }

  lemma NotAmongAttempts(db: Tables, c: nat, key: string)
    requires !Repeated(db, c, key)
    ensures forall x :: x in AttemptsNewestFirst(db.intents, c) ==> x.idempotencyKey != key
    ensures FindByKey(db.intents, key).Some? ==> db.intents[FindByKey(db.intents, key).value].checkoutId != c
  {
    AttemptsAreTheIntents(db.intents, c);
    forall x | x in AttemptsNewestFirst(db.intents, c)
      ensures x.idempotencyKey != key
    {
      var i: nat :| i < |db.intents| && db.intents[i] == x;
      assert !Own(db, i, c, key);
    }
    if FindByKey(db.intents, key).Some? {
      assert !Own(db, FindByKey(db.intents, key).value, c, key);
    }
  }

  lemma BlockersOf(db: Tables, now: int, c: nat)
    ensures match FirstBlocker(AttemptsNewestFirst(db.intents, c), now)
      case None => !exists j: nat :: NewestBlocker(db, now, c, j)
      case Some(error) =>
        exists j: nat :: NewestBlocker(db, now, c, j) &&
          error == (if InFlight(db.intents[j], now) then PaymentAttemptActive else PaymentRelinkBlocked)
  {
    FirstBlockerMeans(db.intents, now, c);
    var bare := Tables([], db.intents, [], []);
    hide Blocks, InFlight, FirstBlocker, AttemptsNewestFirst;
    assert forall j: nat :: NewestBlocker(bare, now, c, j) <==> NewestBlocker(db, now, c, j);
  }

  /** A usable link, or a fresh attempt, is all a granted attempt needs. */
  lemma LinkAnswers(db: Tables, now: int, i: nat, expiresAt: int)
    requires i < |db.intents|
    ensures HasUsableLink(db, i, now) <==> FindActiveLink(db.links, i, now).Some?
    ensures FindActiveLink(db.links, i, now).None? ==>
      var link := CreatePaymentLink(db, now, i, expiresAt);
      if db.intents[i].status == Created then link.Commit? && link.value == (|db.links|, true) else link == Abort(PaymentIntentConflict)
  {
  }

  lemma RepeatedReply(db: Tables, now: int, later: int, ttl: int, c: nat, key: string, i: nat)
    requires KeysUnique(db) && c < |db.checkouts| && PaysOnline(db.checkouts[c]) && Own(db, i, c, key)
    ensures var (after, reply) := LinkCommand(db, now, later, ttl, c, key);
      && (reply.Success? <==> AtPrice(db, i, c) && (HasUsableLink(db, i, later) || db.intents[i].status == Created))
      && (reply.Failure? ==> after == db && reply.error == PaymentIntentConflict)
      && (reply.Success? ==> reply.value.intentId == i && (reply.value.replayed <==> HasUsableLink(db, i, later)))
      && (reply.Success? && reply.value.replayed ==>
            after == db && Some(reply.value.linkId) == FindActiveLink(db.links, i, later))
  {
    var expiresAt := now + PaymentTtlMinutes(ttl) * MINUTE_MS;
    RepeatAnswers(db, now, c, key, expiresAt, i);
    LinkAnswers(db, later, i, expiresAt);
    hide CreatePaymentIntent, CreatePaymentLink, HasUsableLink;
  }

  lemma NewReply(db: Tables, now: int, later: int, ttl: int, c: nat, key: string)
    requires LinksBound(db) && c < |db.checkouts| && PaysOnline(db.checkouts[c]) && !Repeated(db, c, key)
    ensures var (after, reply) := LinkCommand(db, now, later, ttl, c, key);
      var created := CreatePaymentIntent(db, now, c, key, now + PaymentTtlMinutes(ttl) * MINUTE_MS);
      && (reply.Success? <==> created.Commit?)
      && (reply.Failure? ==> after == db && created == Abort(reply.error))
      && (reply.Success? ==> reply.value == PaymentLinkReply(|db.intents|, |db.links|, false))
  {
    var expiresAt := now + PaymentTtlMinutes(ttl) * MINUTE_MS;
    var created := CreatePaymentIntent(db, now, c, key, expiresAt);
    if created.Commit? {
      NewAttempt(db, now, c, key, expiresAt);
      assert FindActiveLink(created.tables.links, created.value, later).None?;
      LinkAnswers(created.tables, later, created.value, expiresAt);
    }
    hide CreatePaymentIntent, CreatePaymentLink;
  }

  lemma NewAttempt(db: Tables, now: int, c: nat, key: string, expiresAt: int)
    requires !Repeated(db, c, key) && CreatePaymentIntent(db, now, c, key, expiresAt).Commit?
    ensures var created := CreatePaymentIntent(db, now, c, key, expiresAt);
      && created.value == |db.intents| && |created.tables.intents| == |db.intents| + 1
      && created.tables.intents[|db.intents|].status == Created && created.tables.links == db.links
  {
    NotAmongAttempts(db, c, key);
    hide Repeated, RelinkVerdict, AttemptsNewestFirst;
  }

  /**
   * A request for a link succeeds exactly when it is granted, and a refusal names the first thing
   * that is wrong and leaves everything as it was.
   */
  lemma LinkCommandMeans(db: Tables, now: int, later: int, ttl: int, c: nat, key: string)
    requires KeysUnique(db) && LinksBound(db)
    ensures var (after, reply) := LinkCommand(db, now, later, ttl, c, key);
      && (reply.Success? <==> LinkGranted(db, now, later, c, key))
      && (reply.Failure? ==> after == db && Refused(db, now, later, c, key, reply.error))
  {
    if c < |db.checkouts| && PaysOnline(db.checkouts[c]) {
      if i: nat :| Own(db, i, c, key) {
        RepeatedReply(db, now, later, ttl, c, key, i);
        OnlyOwn(db, c, key, i);
        hide LinkCommand, KeysUnique, LinksBound, HasUsableLink;
      } else {
        NewReply(db, now, later, ttl, c, key);
        NewAnswers(db, now, c, key, now + PaymentTtlMinutes(ttl) * MINUTE_MS);
        SomeBlocker(db, now, c);
        hide LinkCommand, KeysUnique, LinksBound, CreatePaymentIntent, NewestBlocker, InFlight, Blocks;
      }
    }
  }

  lemma OnlyOwn(db: Tables, c: nat, key: string, i: nat)
    requires KeysUnique(db) && Own(db, i, c, key)
    ensures forall l: nat :: Own(db, l, c, key) ==> l == i
  {
  }

  lemma SomeBlocker(db: Tables, now: int, c: nat)
    ensures (exists j: nat :: NewestBlocker(db, now, c, j)) <==>
            exists j: nat :: j < |db.intents| && db.intents[j].checkoutId == c && Blocks(db.intents[j], now)
  {
    FirstBlockerMeans(db.intents, now, c);
    BlockersOf(db, now, c);
    hide FirstBlocker, AttemptsNewestFirst, Blocks, InFlight;
  }

  /** After any run, repeating an accepted command while it has a usable link returns that link and changes nothing. */
  lemma RepeatedCommandReturnsItsLink(world: World, now: int, c: nat, key: string, expiresAt: int, run: seq<Timed>,
                                      again: int, later: int, ttl: int)
    requires Inv(world.db) && c < |world.db.checkouts| && PaysOnline(world.db.checkouts[c])
    requires CreatePaymentIntent(world.db, now, c, key, expiresAt).Commit?
    ensures var first := CreatePaymentIntent(world.db, now, c, key, expiresAt);
      var end := Run(World(first.tables, world.approved), run).db;
      var active := FindActiveLink(end.links, first.value, later);
      active.Some? ==>
        LinkCommand(end, again, later, ttl, c, key) == (end, Success(PaymentLinkReply(first.value, active.value, true)))
  {
    var first := CreatePaymentIntent(world.db, now, c, key, expiresAt);
    var start := World(first.tables, world.approved);
    AcceptedIsAnswered(world.db, now, c, key, expiresAt);
    CreateIntentKeeps(world.db, now, c, key, expiresAt);
    RunKeepsInv(start, run);
    AnswersPersist(start, run, first.value, c, key);
    AcceptedStaysOnline(world.db, now, c, key, expiresAt);
    RunKeepsCheckouts(start, run);
    var end := Run(start, run).db;
    hide Run, LinkCommand, CreatePaymentIntent;
    assert KeysUnique(end) && Own(end, first.value, c, key) && AtPrice(end, first.value, c) && PaysOnline(end.checkouts[c]);
    hide Inv, KeysUnique;
    if FindActiveLink(end.links, first.value, later).Some? {
      LinkAnswers(end, later, first.value, 0);
      RepeatedReply(end, again, later, ttl, c, key, first.value);
    }
  }

  lemma AcceptedStaysOnline(db: Tables, now: int, c: nat, key: string, expiresAt: int)
    requires c < |db.checkouts| && PaysOnline(db.checkouts[c])
    requires CreatePaymentIntent(db, now, c, key, expiresAt).Commit?
    ensures var after := CreatePaymentIntent(db, now, c, key, expiresAt).tables;
      c < |after.checkouts| && PaysOnline(after.checkouts[c])
  {
    hide RelinkVerdict, FindByKey, AttemptsNewestFirst;
  }
}
