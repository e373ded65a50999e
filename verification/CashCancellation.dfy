/** A sale that is cancelled after it was paid: its reversal is counted, its SALE movement stays linked. */
module CashCancellation {
  import opened Strings
  import opened Wrappers
  import opened CashRecords
  import opened CashLaws
  import opened CashOrder

  /** Cancelling posts a negative adjustment for each payment, with a reference of its own kind. */
  function Reversals(payments: seq<Payment>): seq<Movement> {
    if |payments| == 0 then []
    else
      var last := payments[|payments| - 1];
      Reversals(payments[..|payments| - 1]) + [Movement(Adjustment, -last.amount, ToNothing, last.code)]
  }

  /** The cash paid for a sale. */
  function CashPaid(payments: seq<Payment>): real {
    Total(Into(payments, Cash))
  }

  lemma AdjustmentMore(movements: seq<Movement>, amount: real, code: Option<string>)
    ensures var m := Movement(Adjustment, amount, ToNothing, code);
      && Fold(movements + [m]) == Fold(movements) + (if NormalizeMethodBucket(code) == Cash then amount else 0.0)
      && Unlinked(movements + [m]) == Unlinked(movements)
      && (forall reference :: Cashed(movements + [m], SaleIn, reference) == Cashed(movements, SaleIn, reference))
      && (forall reference :: Cashed(movements + [m], ExpenseOut, reference) == Cashed(movements, ExpenseOut, reference))
  {
    hide NormalizeMethodBucket;
    var m := Movement(Adjustment, amount, ToNothing, code);
    assert (movements + [m])[..|movements|] == movements;
    forall kind, reference
      ensures kind != Adjustment ==> Cashed(movements + [m], kind, reference) == Cashed(movements, kind, reference)
    {
      assert Cashed(movements, kind, reference) + [] == Cashed(movements, kind, reference);
    }
  }

  /** The reversals take the sale's cash out of the drawer and leave every linked or unlinked record alone. */
  lemma {:induction false} ReversalsFold(movements: seq<Movement>, payments: seq<Payment>)
    ensures var after := movements + Reversals(payments);
      && Fold(after) == Fold(movements) - CashPaid(payments)
      && Unlinked(after) == Unlinked(movements)
      && (forall reference :: Cashed(after, SaleIn, reference) == Cashed(movements, SaleIn, reference))
      && (forall reference :: Cashed(after, ExpenseOut, reference) == Cashed(movements, ExpenseOut, reference))
  {
    hide NormalizeMethodBucket, Fold, Unlinked, Cashed;
    if |payments| == 0 {
      assert movements + Reversals(payments) == movements;
    } else {
      var n := |payments| - 1;
      var before := movements + Reversals(payments[..n]);
      ReversalsFold(movements, payments[..n]);
      AdjustmentMore(before, -payments[n].amount, payments[n].code);
      IntoMore(payments, Cash);
      assert movements + Reversals(payments) ==
             before + [Movement(Adjustment, -payments[n].amount, ToNothing, payments[n].code)];
    }
  }

  lemma NegativeIsWhole(x: real)
    requires WholeCents(x)
    ensures WholeCents(-x)
  {
    ZeroIsWhole();
    WholeSum(0.0, x);
    hide WholeCents;
    assert 0.0 - x == -x;
  }

  lemma {:induction false} ReversalsAreWhole(payments: seq<Payment>)
    requires WholePayments(payments)
    ensures WholeMovements(Reversals(payments))
  {
    hide WholeCents;
    if |payments| > 0 {
      WholePrefix(payments);
      ReversalsAreWhole(payments[..|payments| - 1]);
      NegativeIsWhole(payments[|payments| - 1].amount);
    }
  }

  /** The session after sale `k` was cancelled. */
  function Cancelled(session: Session, sale: Sale): Session {
    session.(movements := session.movements + Reversals(sale.payments))
  }

  function Without(sales: seq<Sale>, k: nat): seq<Sale>
    requires k < |sales|
  {
    sales[..k] + sales[k + 1..]
  }

  lemma CancellingKeepsWhole(session: Session, sales: seq<Sale>, expenses: seq<Payment>, purchases: seq<Payment>, k: nat)
    requires WholeRecords(session, sales, expenses, purchases) && k < |sales|
    ensures WholeRecords(Cancelled(session, sales[k]), Without(sales, k), expenses, purchases)
  {
    hide WholeCents, AllPayments;
    SalesWithout(sales, k);
    forall p | p in sales[k].payments || p in AllPayments(Without(sales, k))
      ensures WholeCents(p.amount)
    {
      assert p in multiset(AllPayments(sales));
      assert p in AllPayments(sales);
    }
    ReversalsAreWhole(sales[k].payments);
  }

  lemma CashWithout(sales: seq<Sale>, k: nat)
    requires k < |sales|
    ensures Total(Into(AllPayments(sales), Cash)) == Total(Into(AllPayments(Without(sales, k)), Cash)) + CashPaid(sales[k].payments)
  {
    hide AllPayments, Into, Total;
    var rest, paid := AllPayments(Without(sales, k)), sales[k].payments;
    SalesWithout(sales, k);
    IntoIsUnordered(AllPayments(sales), rest + paid, Cash);
    IntoConcat(rest, paid, Cash);
    TotalIsUnordered(Into(AllPayments(sales), Cash), Into(rest, Cash) + Into(paid, Cash));
    TotalConcat(Into(rest, Cash), Into(paid, Cash));
  }

  lemma {:induction false} TotalConcat(a: seq<real>, b: seq<real>)
    ensures Total(a + b) == Total(a) + Total(b)
  {
    if |b| == 0 {
      assert a + b == a;
    } else {
      TotalConcat(a, b[..|b| - 1]);
      assert (a + b)[..|a + b| - 1] == a + b[..|b| - 1];
    }
  }

  /**
   * Cancelling a paid sale takes its cash out of the drawer once and out of the expected cash twice:
   * the sale no longer counts, its linked SALE movement never did, and its reversal does.
   */
  lemma CancellationCountsTwice(session: Session, sales: seq<Sale>, expenses: seq<Payment>, purchases: seq<Payment>, k: nat,
                                counted: Option<real>)
    requires WholeRecords(session, sales, expenses, purchases) && k < |sales|
    ensures var after := Cancelled(session, sales[k]);
      && Fold(after.movements) == Fold(session.movements) - CashPaid(sales[k].payments)
      && Summarize(Some(after), Without(sales, k), expenses, purchases, counted).expectedPhysicalCash ==
         Summarize(Some(session), sales, expenses, purchases, counted).expectedPhysicalCash - 2.0 * CashPaid(sales[k].payments)
  {
    CancellingKeepsWhole(session, sales, expenses, purchases, k);
    ReversalsFold(session.movements, sales[k].payments);
    CashWithout(sales, k);
    ExpectedCash(session, sales, expenses, purchases, counted);
    ExpectedCash(Cancelled(session, sales[k]), Without(sales, k), expenses, purchases, counted);
    hide Summarize, Fold, Unlinked, Cashed, Into, AllPayments, WholeRecords, CashPaid;
  }

  /** So two views that agreed before a cancellation agree after it exactly when none of the sale was paid in cash. */
  lemma CancellationKeepsAgreement(session: Session, sales: seq<Sale>, expenses: seq<Payment>, purchases: seq<Payment>, k: nat,
                                   counted: Option<real>)
    requires WholeRecords(session, sales, expenses, purchases) && k < |sales|
    requires Summarize(Some(session), sales, expenses, purchases, counted).expectedPhysicalCash ==
             session.openingAmount + Fold(session.movements)
    ensures var after := Cancelled(session, sales[k]);
      (Summarize(Some(after), Without(sales, k), expenses, purchases, counted).expectedPhysicalCash ==
       after.openingAmount + Fold(after.movements)) <==> CashPaid(sales[k].payments) == 0.0
  {
    hide Summarize, Fold, WholeRecords, CashPaid;
    CancellationCountsTwice(session, sales, expenses, purchases, k, counted);
  }

  const PAID: Payment := Payment(100.0, None)

  const SALE: Sale := Sale(false, 0.0, 100.0, [PAID])

  const TILL: Session := Session(0.0, [Movement(SaleIn, 100.0, ToSale, None)])

  lemma PaidInCash()
    ensures NormalizeMethodBucket(None) == Cash
    ensures AllPayments([SALE]) == [PAID] && Into([PAID], Cash) == [100.0] && Total([100.0]) == CashPaid(SALE.payments) == 100.0
    ensures Into([], Cash) == [] && Total([]) == 0.0
  {
    assert Trim(Lower("")) == "";
    assert [SALE][..0] == [] && [PAID][..0] == [] && [100.0][..0] == [];
  }

  lemma TillMovements()
    ensures Fold(TILL.movements) == 100.0 && Unlinked(TILL.movements) == 0.0
    ensures Cashed(TILL.movements, SaleIn, ToSale) == [100.0]
    ensures Cashed(TILL.movements, ExpenseOut, ToExpense) == [] && Cashed(TILL.movements, ExpenseOut, ToPurchase) == []
  {
    PaidInCash();
    hide NormalizeMethodBucket;
    assert TILL.movements[..0] == [];
  }

  lemma TillIsWhole()
    ensures WholeRecords(TILL, [SALE], [], [])
    ensures Gap(TILL.movements, [SALE], [], []) == 0.0 && TILL.openingAmount == 0.0
    ensures Without([SALE], 0) == []
  {
    PaidInCash();
    TillMovements();
    assert WholeCents(100.0) && WholeCents(0.0);
    hide WholeCents, AllPayments, Into, Cashed, Unlinked, Total;
  }

  /** One cash sale of 100, cancelled in the same session: the drawer is back at its opening amount, the summary is 100 short. */
  lemma CancelledSaleLeavesAGap()
    ensures Summarize(Some(TILL), [SALE], [], [], None).expectedPhysicalCash == 100.0 && Fold(TILL.movements) == 100.0
    ensures Summarize(Some(Cancelled(TILL, SALE)), [], [], [], None).expectedPhysicalCash == -100.0
    ensures Fold(Cancelled(TILL, SALE).movements) == 0.0
  {
    hide Summarize, AllPayments, Into, Cashed, Fold, Unlinked, Total, WholeRecords, CashPaid, Cancelled, Gap, Without, TILL, SALE;
    PaidInCash();
    TillMovements();
    TillIsWhole();
    ExpectedCash(TILL, [SALE], [], [], None);
    CancellationCountsTwice(TILL, [SALE], [], [], 0, None);
  }
}
