/** A run that releases a checkout on its newest attempt and then has an older attempt paid as well. */
module KitchenHazards {
  import opened Wrappers
  import opened PaymentLifecycle
  import opened CheckoutTables
  import opened CheckoutPolicy
  import opened CheckoutRepository
  import opened CheckoutProtocol
  import opened CheckoutSafety
  import opened CheckoutHazards
  import opened KitchenSafety
  import opened KitchenNewest

  function LinkedAttempt(n: nat, key: string, expiresAt: int): PaymentIntent {
    Advance(Attempt(n, key, expiresAt), LinkReady, LinkReadyKey, None)
  }

  function StartedAttempt(i: nat, n: nat, key: string, expiresAt: int): PaymentIntent {
    Advance(LinkedAttempt(n, key, expiresAt), Pending, ProviderRequestedKey, None).(
      providerReference := Some(CheckoutReference(i)), accountHash := Some("account"))
  }

  /** The provider approves attempt `i`. */
  function Approval(i: nat, name: string): Evidence {
    Evidence(Some(name), name, Approved, Some(3000), Some("COP"), Some("account"), None, Some(CheckoutReference(i)))
  }

  const EARLY: Evidence := Approval(0, "late approval")
  const RECENT: Evidence := Approval(1, "approval")

  const OLD: PaymentIntent := StartedAttempt(0, 1, "first", 20)
  const NEW: PaymentIntent := StartedAttempt(1, 2, "second", 45)

  const OLD_PAID: PaymentIntent := ApplyEvent(OLD, EARLY, 1, Succeeded)
  const NEW_PAID: PaymentIntent := ApplyEvent(NEW, RECENT, 0, Succeeded)

  /** The first attempt is started past its TTL, after a second was opened; both are charged. */
  const PAID_TWICE: seq<Timed> := [
    At(0, OpenCheckout(ORDERED)),
    At(0, CreateIntent(0, "first", 20)),
    At(0, CreateLink(0, 20)),
    At(25, CreateIntent(0, "second", 45)),
    At(26, Begin(0, 2, Some("account"))),
    At(27, CreateLink(1, 45)),
    At(28, Begin(1, 2, Some("account"))),
    At(29, Receive(RECENT, Some(1), "worker", 99)),
    At(30, Apply(0, "worker", NEW, PaymentPending)),
    At(31, Verify(0)),
    At(32, Evaluate(0)),
    At(33, Kitchen(0)),
    At(34, Receive(EARLY, Some(0), "worker", 99)),
    At(35, Apply(1, "worker", OLD, KitchenEligible))
  ]

  const LINK: PaymentLink := PaymentLink(0, 20, false, Active)
  const LINKS: seq<PaymentLink> := [LINK, PaymentLink(1, 45, false, Active)]

  const CHECKED: Checkout := RECHARGED.(status := PaymentVerified, version := 4)
  const RELEASED: Checkout := RECHARGED.(status := KitchenEligible, version := 5)

  const RECENT_ROW: WebhookEvent := NewEvent(RECENT, Some(1), "worker", 99)
  const EARLY_ROW: WebhookEvent := NewEvent(EARLY, Some(0), "worker", 99)

  /** The worlds the run passes through. */
  const PASSED: seq<World> := [
    START,
    ONE_CHECKOUT,
    ONE_ATTEMPT,
    FIRST_LINKED,
    BOTH_LINKED,
    World(Tables([RECHARGED], [OLD, Attempt(2, "second", 45)], [LINK], []), {}),
    World(Tables([RECHARGED], [OLD, LinkedAttempt(2, "second", 45)], LINKS, []), {}),
    World(Tables([RECHARGED], [OLD, NEW], LINKS, []), {}),
    World(Tables([RECHARGED], [OLD, NEW], LINKS, [RECENT_ROW]), {}),
    World(Tables([RECHARGED], [OLD, NEW_PAID], LINKS, [RECENT_ROW]), {}),
    World(Tables([CHECKED], [OLD, NEW_PAID], LINKS, [RECENT_ROW]), {}),
    World(Tables([CHECKED], [OLD, NEW_PAID], LINKS, [RECENT_ROW]), {0}),
    World(Tables([RELEASED], [OLD, NEW_PAID], LINKS, [RECENT_ROW]), {0}),
    World(Tables([RELEASED], [OLD, NEW_PAID], LINKS, [RECENT_ROW, EARLY_ROW]), {0}),
    World(Tables([RELEASED], [OLD_PAID, NEW_PAID], LINKS, [RECENT_ROW, EARLY_ROW]), {0})
  ]

  lemma {:induction false} RunPasses(worlds: seq<World>, run: seq<Timed>)
    requires |worlds| == |run| + 1
    requires forall k :: 0 <= k < |run| ==> Next(worlds[k], run[k].now, run[k].step) == worlds[k + 1]
    ensures Run(worlds[0], run) == worlds[|run|]
    decreases |run|
  {
    hide Next;
    if |run| > 0 {
      RunPasses(worlds[1..], run[1..]);
    }
  }

  lemma Openings()
    ensures forall k :: 0 <= k < 4 ==> Next(PASSED[k], PAID_TWICE[k].now, PAID_TWICE[k].step) == PASSED[k + 1]
  {
    FirstSteps();
    LateSteps();
    hide Next;
  }

  lemma Starts()
    ensures Next(PASSED[4], 26, Begin(0, 2, Some("account"))) == PASSED[5]
    ensures Next(PASSED[5], 27, CreateLink(1, 45)) == PASSED[6]
    ensures Next(PASSED[6], 28, Begin(1, 2, Some("account"))) == PASSED[7]
  {
    assert !HasKey(PASSED[4].db.intents[0], ProviderRequestedKey);
    assert !HasKey(PASSED[6].db.intents[1], ProviderRequestedKey);
  }

  lemma RecentPayment()
    ensures Next(PASSED[7], 29, Receive(RECENT, Some(1), "worker", 99)) == PASSED[8]
    ensures Next(PASSED[8], 30, Apply(0, "worker", NEW, PaymentPending)) == PASSED[9]
  {
    assert FindEvent([], RECENT).None?;
    assert !HasKey(NEW, EventKey(RECENT));
  }

  lemma Release()
    ensures Next(PASSED[9], 31, Verify(0)) == PASSED[10]
    ensures Next(PASSED[10], 32, Evaluate(0)) == PASSED[11]
    ensures Next(PASSED[11], 33, Kitchen(0)) == PASSED[12]
  {
    EvaluationMeans(PASSED[10].db, 0);
    assert PASSED[10].db.intents[1].status == Succeeded;
    assert OnlyNewestSucceeded(PASSED[10].db.intents, 0);
  }

  lemma EarlyPayment()
    ensures Next(PASSED[12], 34, Receive(EARLY, Some(0), "worker", 99)) == PASSED[13]
    ensures Next(PASSED[13], 35, Apply(1, "worker", OLD, KitchenEligible)) == PASSED[14]
  {
    assert [RECENT_ROW][..0] == [];
    assert FindEvent([RECENT_ROW], EARLY).None?;
    assert !HasKey(OLD, EventKey(EARLY));
  }

  lemma TwicePaid()
    ensures Run(START, PAID_TWICE) == PASSED[14]
  {
    Openings();
    Starts();
    RecentPayment();
    Release();
    EarlyPayment();
    hide Next;
    RunPasses(PASSED, PAID_TWICE);
  }

  /** Nothing looks at the checkout's other attempts when a payment starts, so two of them can be paid, one after the release. */
  lemma ReleasedThenPaidAgain()
    ensures Clocked(0, PAID_TWICE)
    ensures var db := Run(START, PAID_TWICE).db;
      && |db.checkouts| == 1 && db.checkouts[0].preference == Online && db.checkouts[0].status == KitchenEligible
      && |db.intents| == 2 && db.intents[0].checkoutId == db.intents[1].checkoutId == 0
      && Paid(db.intents[0]) && Paid(db.intents[1]) && !OnlyNewestPaid(db.intents)
  {
    TwicePaid();
    hide Run;
    assert OLD_PAID.transitions[3].to == Succeeded && NEW_PAID.transitions[3].to == Succeeded;
    assert Paid(PASSED[14].db.intents[0]) && Paid(PASSED[14].db.intents[1]);
  }
}
