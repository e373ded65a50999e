/** Which method codes mean cash and which mean anything else, and the summary restated by those words. */
module CashVocabulary {
  import opened Strings
  import opened Wrappers
  import opened CashRecords
  import opened CashReconciliation
  import opened CashLaws

  ghost predicate SpellsOne(code: Option<string>, words: seq<string>) {
    code.Some? && exists k: nat :: k < |words| && Spells(code.value, words[k])
  }

  /** What a method code means, in any letter case and with blanks around it; no code at all means cash. */
  ghost predicate Names(code: Option<string>, b: Bucket) {
    match b
    case Cash => code.None? || AllBlank(code.value) || SpellsOne(code, ["cash", "efectivo"])
    case Nequi => SpellsOne(code, ["nequi"])
    case Daviplata => SpellsOne(code, ["daviplata"])
    case Transfer => SpellsOne(code, ["transfer", "transferencia", "bank_transfer"])
    case Card => SpellsOne(code, ["card", "tarjeta", "credit_card", "debit_card"])
    case OtherMethod =>
      code.Some? && !AllBlank(code.value) &&
      !SpellsOne(code, ["cash", "efectivo", "nequi", "daviplata", "transfer", "transferencia", "bank_transfer",
                        "card", "tarjeta", "credit_card", "debit_card"])
  }

  lemma VocabularyIsWords()
    ensures IsWord("cash") && IsWord("efectivo") && IsWord("nequi") && IsWord("daviplata")
    ensures IsWord("transfer") && IsWord("transferencia") && IsWord("bank_transfer")
    ensures IsWord("card") && IsWord("tarjeta") && IsWord("credit_card") && IsWord("debit_card")
  {
  }

  lemma SpelledOneOf(text: string, words: seq<string>)
    requires forall k :: 0 <= k < |words| ==> IsWord(words[k])
    ensures SpellsOne(Some(text), words) <==> Trim(Lower(text)) in words
  {
    hide IsWord, Spells, Trim;
    forall k: nat | k < |words|
      ensures Trim(Lower(text)) == words[k] <==> Spells(text, words[k])
    {
      SpellsMeans(text, words[k]);
    }
  }

  lemma NothingSpells(words: seq<string>)
    ensures !SpellsOne(None, words)
  {
  }

  /** A code is counted under a method exactly when it names it. */
  lemma VocabularyMeans(code: Option<string>, b: Bucket)
    ensures NormalizeMethodBucket(code) == b <==> Names(code, b)
  {
    hide IsWord, Spells, Trim, SpellsOne, AllBlank;
    if code.None? {
      forall words
        ensures !SpellsOne(code, words)
      {
        NothingSpells(words);
      }
    } else {
      var text := code.value;
      assert code == Some(text);
      VocabularyIsWords();
      TrimsToNothing(Lower(text));
      LowerBlank(text);
      SpelledOneOf(text, ["cash", "efectivo"]);
      SpelledOneOf(text, ["nequi"]);
      SpelledOneOf(text, ["daviplata"]);
      SpelledOneOf(text, ["transfer", "transferencia", "bank_transfer"]);
      SpelledOneOf(text, ["card", "tarjeta", "credit_card", "debit_card"]);
      SpelledOneOf(text, ["cash", "efectivo", "nequi", "daviplata", "transfer", "transferencia", "bank_transfer",
                          "card", "tarjeta", "credit_card", "debit_card"]);
    }
  }

  /** The amounts of the payments whose code names the method. */
  ghost function PaidAs(payments: seq<Payment>, b: Bucket): seq<real> {
    if |payments| == 0 then []
    else
      var last := payments[|payments| - 1];
      PaidAs(payments[..|payments| - 1], b) + if Names(last.code, b) then [last.amount] else []
  }

  /** The amounts of the cash movements of one kind that belong to no sale, expense or purchase. */
  ghost function MovedCash(movements: seq<Movement>, kind: MovementType): seq<real> {
    if |movements| == 0 then []
    else
      var last := movements[|movements| - 1];
      MovedCash(movements[..|movements| - 1], kind) + if Names(last.code, Cash) && last.kind == kind then [last.amount] else []
  }

  lemma {:induction false} PaidAsIsInto(payments: seq<Payment>, b: Bucket)
    ensures PaidAs(payments, b) == Into(payments, b)
  {
    if |payments| > 0 {
      PaidAsIsInto(payments[..|payments| - 1], b);
      VocabularyMeans(payments[|payments| - 1].code, b);
      hide Names, NormalizeMethodBucket;
    }
  }

  /** Each amount to whole cents on its own, and then the sum. */
  function CentsOf(amounts: seq<real>): real {
    Total(Rounded(amounts))
  }

  lemma CentsMore(amounts: seq<real>, x: real)
    ensures CentsOf(amounts + [x]) == CentsOf(amounts) + RoundMoney(x)
  {
    RoundedMore(amounts, x);
  }

  lemma {:induction false} ManualByName(movements: seq<Movement>)
    ensures var m := Manual(movements);
      && m.otherIncome == CentsOf(MovedCash(movements, OtherIncome))
      && m.otherExpense == CentsOf(MovedCash(movements, OtherExpense))
      && m.adjustment == CentsOf(MovedCash(movements, Adjustment))
  {
    hide Names, NormalizeMethodBucket, RoundMoney, WholeCents, CentsOf;
    if |movements| == 0 {
      NothingIsZero();
    } else {
      var n := |movements| - 1;
      var before := Manual(movements[..n]);
      ManualByName(movements[..n]);
      ManualIsWhole(movements[..n]);
      ManualStep(before, movements[n]);
      VocabularyMeans(movements[n].code, Cash);
      MovedMore(movements, OtherIncome);
      MovedMore(movements, OtherExpense);
      MovedMore(movements, Adjustment);
    }
  }

  lemma NothingIsZero()
    ensures CentsOf([]) == 0.0
  {
    assert Rounded([]) == [];
  }

  lemma MovedMore(movements: seq<Movement>, kind: MovementType)
    requires |movements| > 0
    ensures var last := movements[|movements| - 1];
      CentsOf(MovedCash(movements, kind)) ==
      CentsOf(MovedCash(movements[..|movements| - 1], kind)) +
      if Names(last.code, Cash) && last.kind == kind then RoundMoney(last.amount) else 0.0
  {
    hide Names, RoundMoney, CentsOf;
    var before := MovedCash(movements[..|movements| - 1], kind);
    CentsMore(before, movements[|movements| - 1].amount);
    assert before + [] == before;
  }

  lemma ManualStep(before: ManualCash, m: Movement)
    requires WholeCents(before.otherIncome) && WholeCents(before.otherExpense) && WholeCents(before.adjustment)
    ensures var after := Counted(before, m);
      var counts := NormalizeMethodBucket(m.code) == Cash;
      && after.otherIncome == before.otherIncome + (if counts && m.kind == OtherIncome then RoundMoney(m.amount) else 0.0)
      && after.otherExpense == before.otherExpense + (if counts && m.kind == OtherExpense then RoundMoney(m.amount) else 0.0)
      && after.adjustment == before.adjustment + (if counts && m.kind == Adjustment then RoundMoney(m.amount) else 0.0)
  {
    RoundedSum(before.otherIncome, m.amount);
    RoundedSum(before.otherExpense, m.amount);
    RoundedSum(before.adjustment, m.amount);
    hide NormalizeMethodBucket, RoundMoney, WholeCents;
  }

  lemma BucketByName(payments: seq<Payment>, b: Bucket)
    ensures Get(AddAll(EMPTY, payments), b) == CentsOf(PaidAs(payments, b)) && WholeCents(Get(AddAll(EMPTY, payments), b))
  {
    BucketsAreRounded(payments, b);
    BucketIsWhole(payments, b);
    PaidAsIsInto(payments, b);
  }

  ghost predicate TableIs(table: Amounts, payments: seq<Payment>) {
    forall b: Bucket :: Get(table, b) == CentsOf(PaidAs(payments, b))
  }

  lemma TableByName(payments: seq<Payment>)
    ensures TableIs(AddAll(EMPTY, payments), payments)
  {
    hide Get, AddAll, CentsOf, PaidAs, WholeCents;
    forall b: Bucket
      ensures Get(AddAll(EMPTY, payments), b) == CentsOf(PaidAs(payments, b))
    {
      BucketByName(payments, b);
    }
  }

  function MovementsOf(session: Option<Session>): seq<Movement> {
    if session.Some? then session.value.movements else []
  }

  /** Every table of a summary, by the words that name its buckets; the fees by the shares of each sale. */
  lemma TablesByName(session: Option<Session>, sales: seq<Sale>, expenses: seq<Payment>, purchases: seq<Payment>, counted: Option<real>)
    ensures var s := Summarize(session, sales, expenses, purchases, counted);
      && s.openingCash == (if session.Some? then session.value.openingAmount else 0.0)
      && TableIs(s.salesByMethod, AllPayments(sales))
      && TableIs(s.expensesByMethod, expenses)
      && TableIs(s.purchasesByMethod, purchases)
      && TableIs(s.feeByMethod, AllShares(sales))
      && s.manualCash.otherIncome == CentsOf(MovedCash(MovementsOf(session), OtherIncome))
      && s.manualCash.otherExpense == CentsOf(MovedCash(MovementsOf(session), OtherExpense))
      && s.manualCash.adjustment == CentsOf(MovedCash(MovementsOf(session), Adjustment))
  {
    TableByName(AllPayments(sales));
    TableByName(expenses);
    TableByName(purchases);
    TableByName(AllShares(sales));
    ManualByName(MovementsOf(session));
    hide TableIs, AddAll, AllPayments, AllShares, Manual, MovedCash, CentsOf, RoundMoney, FeeSum, Deliveries;
  }

  /**
   * The cash the drawer is expected to hold: the opening amount, what the records and the movements
   * that belong to no record say was paid and moved in cash, each amount rounded on its own.
   */
  ghost function DrawerByName(session: Option<Session>, sales: seq<Sale>, expenses: seq<Payment>, purchases: seq<Payment>): real {
    var moves := MovementsOf(session);
    RoundMoney(if session.Some? then session.value.openingAmount else 0.0)
    + CentsOf(PaidAs(AllPayments(sales), Cash)) - CentsOf(PaidAs(expenses, Cash)) - CentsOf(PaidAs(purchases, Cash))
    + CentsOf(MovedCash(moves, OtherIncome)) + CentsOf(MovedCash(moves, Adjustment)) - CentsOf(MovedCash(moves, OtherExpense))
  }

  lemma RoundedAround(opening: real, x: real)
    requires WholeCents(x)
    ensures RoundMoney(opening + x) == RoundMoney(opening) + x
  {
    RoundedSum(x, opening);
    assert x + opening == opening + x;
  }

  lemma WholeDrawer(a: real, b: real, c: real, d: real, e: real, f: real)
    requires WholeCents(a) && WholeCents(b) && WholeCents(c) && WholeCents(d) && WholeCents(e) && WholeCents(f)
    ensures WholeCents(a + b + c - d - e - f)
  {
    hide WholeCents;
    WholeSum(a, b);
    WholeSum(a + b, c);
    WholeSum(a + b + c, d);
    WholeSum(a + b + c - d, e);
    WholeSum(a + b + c - d - e, f);
  }

  /** For all records the expected cash is exactly that, whatever the amounts. */
  lemma ExpectedCashByName(session: Option<Session>, sales: seq<Sale>, expenses: seq<Payment>, purchases: seq<Payment>, counted: Option<real>)
    ensures Summarize(session, sales, expenses, purchases, counted).expectedPhysicalCash ==
            DrawerByName(session, sales, expenses, purchases)
  {
    hide AddAll, AllPayments, AllShares, Manual, MovedCash, PaidAs, CentsOf, RoundMoney, WholeCents, FeeSum, Deliveries;
    var moves := MovementsOf(session);
    var m := Manual(moves);
    var opening := if session.Some? then session.value.openingAmount else 0.0;
    BucketByName(AllPayments(sales), Cash);
    BucketByName(expenses, Cash);
    BucketByName(purchases, Cash);
    ManualByName(moves);
    ManualIsWhole(moves);
    var cash, spent, bought := AddAll(EMPTY, AllPayments(sales)).cash, AddAll(EMPTY, expenses).cash, AddAll(EMPTY, purchases).cash;
    WholeDrawer(cash, m.otherIncome, m.adjustment, spent, bought, m.otherExpense);
    var x := cash + m.otherIncome + m.adjustment - spent - bought - m.otherExpense;
    RoundedAround(opening, x);
    assert opening + x == opening + cash + m.otherIncome + m.adjustment - spent - bought - m.otherExpense;
  }

  // One payment more

  function Inserted<T>(list: seq<T>, n: nat, x: T): seq<T>
    requires n <= |list|
  {
    list[..n] + [x] + list[n..]
  }

  lemma InsertedIsMore<T>(list: seq<T>, n: nat, x: T)
    requires n <= |list|
    ensures multiset(Inserted(list, n, x)) == multiset(list) + multiset{x}
  {
    assert list == list[..n] + list[n..];
  }

  /** What one more payment adds to the cash. */
  ghost function CashOf(p: Payment): real {
    if Names(p.code, Cash) then RoundMoney(p.amount) else 0.0
  }

  lemma OneMorePaid(before: seq<Payment>, after: seq<Payment>, p: Payment)
    requires multiset(after) == multiset(before) + multiset{p}
    ensures CentsOf(PaidAs(after, Cash)) == CentsOf(PaidAs(before, Cash)) + CashOf(p)
  {
    hide AddAll, CentsOf, RoundMoney, WholeCents, Names;
    assert multiset(before + [p]) == multiset(after);
    OrderDoesNotMatter(before + [p], after);
    BucketByName(before + [p], Cash);
    BucketByName(after, Cash);
    CentsMore(PaidAs(before, Cash), p.amount);
    assert (before + [p])[..|before|] == before;
    assert PaidAs(before, Cash) + [] == PaidAs(before, Cash);
  }

  /** The sales with one more payment among those of sale `k`. */
  function PaidOnce(sales: seq<Sale>, k: nat, n: nat, p: Payment): seq<Sale>
    requires k < |sales| && n <= |sales[k].payments|
  {
    sales[k := sales[k].(payments := Inserted(sales[k].payments, n, p))]
  }

  lemma {:induction false} PaymentsAddUp(a: seq<Sale>, b: seq<Sale>)
    ensures AllPayments(a + b) == AllPayments(a) + AllPayments(b)
  {
    if |b| == 0 {
      assert a + b == a;
    } else {
      PaymentsAddUp(a, b[..|b| - 1]);
      assert (a + b)[..|a + b| - 1] == a + b[..|b| - 1];
    }
  }

  lemma OneSale(sale: Sale)
    ensures AllPayments([sale]) == sale.payments && FeeSum([sale]) == sale.deliveryFee
    ensures AllShares([sale]) == if sale.delivery && sale.deliveryFee > 0.0 then Shares(sale) else []
  {
    hide Shares;
    assert [sale][..0] == [];
  }

  lemma CutAround<T>(list: seq<T>, k: nat)
    requires k < |list|
    ensures list[..k] + [list[k]] + list[k + 1..] == list
  {
  }

  lemma ThreeAddUp(a: seq<Sale>, sale: Sale, b: seq<Sale>)
    ensures AllPayments(a + [sale] + b) == AllPayments(a) + sale.payments + AllPayments(b)
  {
    hide AllPayments, AllShares, FeeSum, Shares;
    PaymentsAddUp(a + [sale], b);
    PaymentsAddUp(a, [sale]);
    OneSale(sale);
  }

  lemma AroundSale(sales: seq<Sale>, k: nat)
    requires k < |sales|
    ensures AllPayments(sales) == AllPayments(sales[..k]) + sales[k].payments + AllPayments(sales[k + 1..])
  {
    hide AllPayments;
    CutAround(sales, k);
    ThreeAddUp(sales[..k], sales[k], sales[k + 1..]);
  }

  lemma PaidOnceIsMore(sales: seq<Sale>, k: nat, n: nat, p: Payment)
    requires k < |sales| && n <= |sales[k].payments|
    ensures multiset(AllPayments(PaidOnce(sales, k, n, p))) == multiset(AllPayments(sales)) + multiset{p}
  {
    hide AllPayments, Inserted;
    var after := PaidOnce(sales, k, n, p);
    assert after[..k] == sales[..k] && after[k + 1..] == sales[k + 1..];
    AroundSale(sales, k);
    AroundSale(after, k);
    InsertedIsMore(sales[k].payments, n, p);
  }

  /** A payment of a sale adds to the expected cash exactly when its code means cash. */
  lemma PaymentInDrawer(session: Option<Session>, sales: seq<Sale>, expenses: seq<Payment>, purchases: seq<Payment>,
                        counted: Option<real>, k: nat, n: nat, p: Payment)
    requires k < |sales| && n <= |sales[k].payments|
    ensures Summarize(session, PaidOnce(sales, k, n, p), expenses, purchases, counted).expectedPhysicalCash ==
            Summarize(session, sales, expenses, purchases, counted).expectedPhysicalCash + CashOf(p)
  {
    hide Summarize, PaidAs, MovedCash, CentsOf, CashOf, RoundMoney, AllPayments;
    PaidOnceIsMore(sales, k, n, p);
    OneMorePaid(AllPayments(sales), AllPayments(PaidOnce(sales, k, n, p)), p);
    ExpectedCashByName(session, sales, expenses, purchases, counted);
    ExpectedCashByName(session, PaidOnce(sales, k, n, p), expenses, purchases, counted);
  }

  /** An expense or a purchase takes from it exactly when its code means cash. */
  lemma OutlayFromDrawer(session: Option<Session>, sales: seq<Sale>, expenses: seq<Payment>, purchases: seq<Payment>,
                         counted: Option<real>, n: nat, p: Payment)
    ensures n <= |expenses| ==>
      Summarize(session, sales, Inserted(expenses, n, p), purchases, counted).expectedPhysicalCash ==
      Summarize(session, sales, expenses, purchases, counted).expectedPhysicalCash - CashOf(p)
    ensures n <= |purchases| ==>
      Summarize(session, sales, expenses, Inserted(purchases, n, p), counted).expectedPhysicalCash ==
      Summarize(session, sales, expenses, purchases, counted).expectedPhysicalCash - CashOf(p)
  {
    hide Summarize, PaidAs, MovedCash, CentsOf, CashOf, RoundMoney, AllPayments, Inserted;
    ExpectedCashByName(session, sales, expenses, purchases, counted);
    if n <= |expenses| {
      InsertedIsMore(expenses, n, p);
      OneMorePaid(expenses, Inserted(expenses, n, p), p);
      ExpectedCashByName(session, sales, Inserted(expenses, n, p), purchases, counted);
    }
    if n <= |purchases| {
      InsertedIsMore(purchases, n, p);
      OneMorePaid(purchases, Inserted(purchases, n, p), p);
      ExpectedCashByName(session, sales, expenses, Inserted(purchases, n, p), counted);
    }
  }

  // The other figures

  lemma {:induction false} DeliveriesAreCounted(sales: seq<Sale>)
    ensures Deliveries(sales) == |set k | 0 <= k < |sales| && sales[k].delivery|
  {
    var all := set k | 0 <= k < |sales| && sales[k].delivery;
    if |sales| == 0 {
      assert all == {};
    } else {
      var n := |sales| - 1;
      DeliveriesAreCounted(sales[..n]);
      var before := set k | 0 <= k < n && sales[..n][k].delivery;
      assert forall k :: 0 <= k < n ==> sales[..n][k] == sales[k];
      assert all == before + if sales[n].delivery then {n} else {};
    }
  }

  /** The difference is against the counted cash, deliveries are counted, and the total fee is the sum of all fees. */
  lemma CountsAndDifference(session: Option<Session>, sales: seq<Sale>, expenses: seq<Payment>, purchases: seq<Payment>, counted: Option<real>)
    ensures var s := Summarize(session, sales, expenses, purchases, counted);
      && (s.cashDifference.Some? <==> counted.Some?)
      && (counted.Some? ==>
            && WholeCents(s.cashDifference.value)
            && -0.005 < s.cashDifference.value - (counted.value - s.expectedPhysicalCash) <= 0.005)
      && s.deliveryCount == |set k | 0 <= k < |sales| && sales[k].delivery|
      && WholeCents(s.totalFee) && -0.005 < s.totalFee - FeeSum(sales) <= 0.005
  {
    hide AddAll, AllPayments, AllShares, Manual, RoundMoney, WholeCents, FeeSum, Deliveries;
    DeliveriesAreCounted(sales);
    RoundError(FeeSum(sales));
    if counted.Some? {
      RoundError(counted.value - Summarize(session, sales, expenses, purchases, counted).expectedPhysicalCash);
    }
  }

  /** A fee is shared in proportion, under the method of each payment; together with their sum this fixes the shares. */
  lemma SharesAreProportional(sale: Sale, j: nat, k: nat)
    requires j < |sale.payments| && k < |sale.payments|
    ensures Shares(sale)[k].code == sale.payments[k].code
    ensures Shares(sale)[j].amount * sale.payments[k].amount == Shares(sale)[k].amount * sale.payments[j].amount
    ensures sale.total <= 0.0 ==> Shares(sale)[k].amount == 0.0
  {
    var x, y := sale.payments[j].amount, sale.payments[k].amount;
    if sale.total > 0.0 {
      ShareOfOne(sale.deliveryFee, x, y, sale.total);
      ShareOfOne(sale.deliveryFee, y, x, sale.total);
    }
  }

  lemma ShareOfOne(f: real, x: real, y: real, t: real)
    requires t > 0.0
    ensures f * x / t * y == f * (x * y) / t
  {
    assert f * x / t * y == f * x * y / t;
    assert f * x * y == f * (x * y);
  }

  lemma {:induction false} AllSharesAddUp(a: seq<Sale>, b: seq<Sale>)
    ensures AllShares(a + b) == AllShares(a) + AllShares(b)
  {
    hide Shares, CarriesFee;
    if |b| == 0 {
      assert a + b == a;
    } else {
      AllSharesAddUp(a, b[..|b| - 1]);
      assert (a + b)[..|a + b| - 1] == a + b[..|b| - 1];
    }
  }

  lemma {:induction false} FeeSumsAddUp(a: seq<Sale>, b: seq<Sale>)
    ensures FeeSum(a + b) == FeeSum(a) + FeeSum(b)
  {
    if |b| == 0 {
      assert a + b == a;
    } else {
      FeeSumsAddUp(a, b[..|b| - 1]);
      assert (a + b)[..|a + b| - 1] == a + b[..|b| - 1];
    }
  }

  /** Which sales bring which payments, shares and fees: a fee is shared for deliveries with a positive fee only, and summed for all. */
  lemma SalesAddUp(a: seq<Sale>, b: seq<Sale>, sale: Sale)
    ensures AllPayments([sale]) == sale.payments && FeeSum([sale]) == sale.deliveryFee
    ensures AllShares([sale]) == if sale.delivery && sale.deliveryFee > 0.0 then Shares(sale) else []
    ensures AllPayments(a + b) == AllPayments(a) + AllPayments(b)
    ensures AllShares(a + b) == AllShares(a) + AllShares(b)
    ensures FeeSum(a + b) == FeeSum(a) + FeeSum(b)
  {
    hide AllPayments, AllShares, FeeSum, Shares;
    OneSale(sale);
    PaymentsAddUp(a, b);
    AllSharesAddUp(a, b);
    FeeSumsAddUp(a, b);
  }
}
