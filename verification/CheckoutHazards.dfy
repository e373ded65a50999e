/** Two short runs that reach two live attempts, one for each caller rule that is broken. */
module CheckoutHazards {
  import opened Wrappers
  import opened PaymentLifecycle
  import opened CheckoutTables
  import opened CheckoutPolicy
  import opened CheckoutRepository
  import opened CheckoutProtocol
  import opened CheckoutSafety

  const ORDERED: Checkout := Checkout(Confirmed, 1, None, 3000, "COP", Delivery, Online)

  function Attempt(n: nat, key: string, expiresAt: int): PaymentIntent {
    PaymentIntent(0, n, key, 3000, "COP", Created, None, None, None, Some(expiresAt), 1,
                  [PaymentTransition(None, Created, CreationKey(key), None)])
  }

  /** The client of the first attempt stopped before its link existed, and returns after its TTL of 20. */
  const REPLAYED_LINK: seq<Timed> := [
    At(0, OpenCheckout(ORDERED)),
    At(0, CreateIntent(0, "first", 20)),
    At(30, CreateIntent(0, "second", 50)),
    At(31, CreateIntent(0, "first", 51)),
    At(31, CreateLink(0, 51)),
    At(32, Begin(0, 2, None))
  ]

  /** The first attempt's link was resolved while valid; the payment starts after the TTL. */
  const LATE_START: seq<Timed> := [
    At(0, OpenCheckout(ORDERED)),
    At(0, CreateIntent(0, "first", 20)),
    At(0, CreateLink(0, 20)),
    At(25, CreateIntent(0, "second", 45)),
    At(26, Begin(0, 2, None))
  ]

  const CHARGED: Checkout := ORDERED.(status := PaymentPending, version := 2)

  const RECHARGED: Checkout := ORDERED.(status := PaymentPending, version := 3)

  lemma {:induction false} RunOn(world: World, run: seq<Timed>, k: nat)
    requires k < |run|
    ensures Run(world, run[k..]) == Run(Next(world, run[k].now, run[k].step), run[k + 1..])
  {
    assert run[k..][1..] == run[k + 1..];
  }

  /** A new attempt of checkout 0, when its attempts are all past their TTL. */
  lemma SecondAttempt(first: PaymentIntent, links: seq<PaymentLink>, now: int, expiresAt: int)
    requires first.checkoutId == 0 && first.idempotencyKey == "first" && first.status in {Created, LinkReady}
    requires !WithinOwnTtl(first, now)
    ensures Next(World(Tables([CHARGED], [first], links, []), {}), now, CreateIntent(0, "second", expiresAt)) ==
            World(Tables([RECHARGED], [first, Attempt(2, "second", expiresAt)], links, []), {})
  {
    assert AttemptsNewestFirst([first], 0) == [first] by {
      assert [first][..0] == [];
    }
    assert FindByKey([first], "second").None?;
  }

  /** Starting the first attempt by its second version succeeds, and both attempts are then live. */
  lemma StartingTheFirst(links: seq<PaymentLink>, firstTtl: int, secondTtl: int, now: int)
    requires now < secondTtl
    ensures var db := Tables([RECHARGED], [Advance(Attempt(1, "first", firstTtl), LinkReady, LinkReadyKey, None),
                                           Attempt(2, "second", secondTtl)], links, []);
      !AtMostOneLive(Next(World(db, {}), now, Begin(0, 2, None)).db, now)
  {
    var db := Tables([RECHARGED], [Advance(Attempt(1, "first", firstTtl), LinkReady, LinkReadyKey, None),
                                   Attempt(2, "second", secondTtl)], links, []);
    var b := Next(World(db, {}), now, Begin(0, 2, None)).db;
    assert !HasKey(db.intents[0], ProviderRequestedKey);
    assert b.intents[0].status == Pending && b.intents[1] == db.intents[1];
    assert Live(b.intents[0], now) && Live(b.intents[1], now);
  }

  const ONE_CHECKOUT: World := World(Tables([ORDERED], [], [], []), {})

  const ONE_ATTEMPT: World := World(Tables([CHARGED], [Attempt(1, "first", 20)], [], []), {})

  const TWO_ATTEMPTS: World := World(Tables([RECHARGED], [Attempt(1, "first", 20), Attempt(2, "second", 50)], [], []), {})

  lemma FirstSteps()
    ensures Next(START, 0, OpenCheckout(ORDERED)) == ONE_CHECKOUT
    ensures Next(ONE_CHECKOUT, 0, CreateIntent(0, "first", 20)) == ONE_ATTEMPT
  {
  }

  lemma ReplayChangesNothing()
    ensures Next(TWO_ATTEMPTS, 31, CreateIntent(0, "first", 51)) == TWO_ATTEMPTS
  {
    var db := TWO_ATTEMPTS.db;
    assert Answers(db, 0, 0, "first");
    AnsweredIsReplayed(db, 0, 31, 0, "first", 51);
  }

  lemma ReplayedLinkRun(linked: World)
    requires linked == Next(TWO_ATTEMPTS, 31, CreateLink(0, 51))
    ensures Run(START, REPLAYED_LINK) == Next(linked, 32, Begin(0, 2, None))
  {
    var run := REPLAYED_LINK;
    FirstSteps();
    SecondAttempt(Attempt(1, "first", 20), [], 30, 50);
    ReplayChangesNothing();
    RunOn(START, run, 0);
    RunOn(ONE_CHECKOUT, run, 1);
    RunOn(ONE_ATTEMPT, run, 2);
    RunOn(TWO_ATTEMPTS, run, 3);
    RunOn(TWO_ATTEMPTS, run, 4);
    RunOn(linked, run, 5);
    assert run[0..] == run;
  }

  /** A replayed command gives a fresh expiry to the link of an attempt whose own TTL is over. */
  lemma ReplayedLinkOutlivesItsIntent()
    ensures Clocked(0, REPLAYED_LINK)
    ensures !AtMostOneLive(Run(START, REPLAYED_LINK).db, 32)
  {
    var linked := World(TWO_ATTEMPTS.db.(
      intents := [Advance(Attempt(1, "first", 20), LinkReady, LinkReadyKey, None), Attempt(2, "second", 50)],
      links := [PaymentLink(0, 51, false, Active)]), {});
    assert linked == Next(TWO_ATTEMPTS, 31, CreateLink(0, 51));
    ReplayedLinkRun(linked);
    StartingTheFirst(linked.db.links, 20, 50, 32);
  }

  const FIRST_LINKED: World := World(Tables([CHARGED], [Advance(Attempt(1, "first", 20), LinkReady, LinkReadyKey, None)],
                                           [PaymentLink(0, 20, false, Active)], []), {})

  const BOTH_LINKED: World := World(Tables([RECHARGED], [Advance(Attempt(1, "first", 20), LinkReady, LinkReadyKey, None),
                                                        Attempt(2, "second", 45)], [PaymentLink(0, 20, false, Active)], []), {})

  lemma LateSteps()
    ensures Next(ONE_ATTEMPT, 0, CreateLink(0, 20)) == FIRST_LINKED
    ensures Next(FIRST_LINKED, 25, CreateIntent(0, "second", 45)) == BOTH_LINKED
  {
    SecondAttempt(FIRST_LINKED.db.intents[0], FIRST_LINKED.db.links, 25, 45);
  }

  lemma LateStartIsUnsafe()
    ensures !AtMostOneLive(Next(BOTH_LINKED, 26, Begin(0, 2, None)).db, 26)
  {
    StartingTheFirst(BOTH_LINKED.db.links, 20, 45, 26);
  }

  /** The link expired with its intent, but nothing looks at either again when the payment starts. */
  lemma LateStartAfterResolvedLink()
    ensures Clocked(0, LATE_START)
    ensures !AtMostOneLive(Run(START, LATE_START).db, 26)
  {
    var run := LATE_START;
    FirstSteps();
    LateSteps();
    LateStartIsUnsafe();
    hide Next, AtMostOneLive, ONE_CHECKOUT, ONE_ATTEMPT, FIRST_LINKED, BOTH_LINKED;
    RunOn(START, run, 0);
    RunOn(ONE_CHECKOUT, run, 1);
    RunOn(ONE_ATTEMPT, run, 2);
    RunOn(FIRST_LINKED, run, 3);
    RunOn(BOTH_LINKED, run, 4);
    assert run[0..] == run;
  }
}
