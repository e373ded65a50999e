/** Records may come in any order, whatever their amounts: the summary is the same. */
module CashOrder {
  import opened Sequences
  import opened Wrappers
  import opened CashRecords
  import opened CashLaws

  // Movements

  predicate WholeTotals(totals: ManualCash) {
    WholeCents(totals.otherIncome) && WholeCents(totals.otherExpense) && WholeCents(totals.adjustment)
  }

  /** Two movements can be counted in either order. */
  lemma CountedSwap(totals: ManualCash, m: Movement, n: Movement)
    requires WholeTotals(totals)
    ensures Counted(Counted(totals, m), n) == Counted(Counted(totals, n), m)
  {
    hide NormalizeMethodBucket, RoundMoney, WholeCents;
    AddedSwap(totals.otherIncome, m.amount, n.amount);
    AddedSwap(totals.otherExpense, m.amount, n.amount);
    AddedSwap(totals.adjustment, m.amount, n.amount);
  }

  lemma AddedSwap(x: real, y: real, z: real)
    requires WholeCents(x)
    ensures RoundMoney(RoundMoney(x + y) + z) == RoundMoney(RoundMoney(x + z) + y)
  {
    hide RoundMoney, WholeCents;
    RoundError(x + y);
    RoundError(x + z);
    RoundedSum(x, y);
    RoundedSum(x, z);
    RoundedSum(RoundMoney(x + y), z);
    RoundedSum(RoundMoney(x + z), y);
  }

  lemma {:induction false} ManualWithout(t: seq<Movement>, k: nat)
    requires k < |t|
    ensures Manual(t) == Counted(Manual(t[..k] + t[k + 1..]), t[k])
  {
    hide Counted, WholeCents;
    var n := |t| - 1;
    var rest := t[..k] + t[k + 1..];
    if k == n {
      assert rest == t[..n];
    } else {
      ManualWithout(t[..n], k);
      assert t[..n][..k] + t[..n][k + 1..] == rest[..n - 1];
      assert rest[n - 1] == t[n];
      ManualIsWhole(rest[..n - 1]);
      CountedSwap(Manual(rest[..n - 1]), t[k], t[n]);
    }
  }

  /** The manual cash does not depend on the order of the movements. */
  lemma {:induction false} ManualIsUnordered(s: seq<Movement>, t: seq<Movement>)
    requires multiset(s) == multiset(t)
    ensures Manual(s) == Manual(t)
  {
    hide Counted;
    SameSize(s, t);
    if |s| > 0 {
      var k := Partner(s, t);
      ManualIsUnordered(s[..|s| - 1], t[..k] + t[k + 1..]);
      ManualWithout(t, k);
    }
  }

  // Sales

  /** What the summary takes from a list of sales. */
  ghost predicate SameSales(s: seq<Sale>, t: seq<Sale>) {
    && multiset(AllPayments(s)) == multiset(AllPayments(t))
    && multiset(AllShares(s)) == multiset(AllShares(t))
    && FeeSum(s) == FeeSum(t) && Deliveries(s) == Deliveries(t)
  }

  function SharesOf(sale: Sale): seq<Payment> {
    if CarriesFee(sale) then Shares(sale) else []
  }

  lemma LastSale(t: seq<Sale>)
    requires |t| > 0
    ensures var n := |t| - 1;
      && multiset(AllPayments(t)) == multiset(AllPayments(t[..n])) + multiset(t[n].payments)
      && multiset(AllShares(t)) == multiset(AllShares(t[..n])) + multiset(SharesOf(t[n]))
      && FeeSum(t) == FeeSum(t[..n]) + t[n].deliveryFee
      && Deliveries(t) == Deliveries(t[..n]) + (if t[n].delivery then 1 else 0)
  {
    hide Shares;
  }

  lemma {:induction false} SalesWithout(t: seq<Sale>, k: nat)
    requires k < |t|
    ensures var rest := t[..k] + t[k + 1..];
      && multiset(AllPayments(t)) == multiset(AllPayments(rest)) + multiset(t[k].payments)
      && multiset(AllShares(t)) == multiset(AllShares(rest)) + multiset(SharesOf(t[k]))
      && FeeSum(t) == FeeSum(rest) + t[k].deliveryFee
      && Deliveries(t) == Deliveries(rest) + (if t[k].delivery then 1 else 0)
  {
    hide AllPayments, AllShares, FeeSum, Deliveries, SharesOf;
    var n := |t| - 1;
    var rest := t[..k] + t[k + 1..];
    LastSale(t);
    if k == n {
      assert rest == t[..n];
    } else {
      LastSale(rest);
      SalesWithout(t[..n], k);
      assert t[..n][..k] + t[..n][k + 1..] == rest[..n - 1];
      assert rest[n - 1] == t[n];
    }
  }

  lemma {:induction false} SalesAreUnordered(s: seq<Sale>, t: seq<Sale>)
    requires multiset(s) == multiset(t)
    ensures SameSales(s, t)
  {
    SameSize(s, t);
    if |s| > 0 {
      var n := |s| - 1;
      var k := Partner(s, t);
      SalesAreUnordered(s[..n], t[..k] + t[k + 1..]);
      SalesWithout(t, k);
      SalesWithout(s, n);
      assert s[..n] + s[n + 1..] == s[..n];
    }
  }

  // The summary

  /** The records of two summaries are the same, each list in an order of its own. */
  ghost predicate Reordered(a: Option<Session>, sales: seq<Sale>, expenses: seq<Payment>, purchases: seq<Payment>,
                            b: Option<Session>, sales': seq<Sale>, expenses': seq<Payment>, purchases': seq<Payment>)
  {
    && a.Some? == b.Some?
    && (a.Some? ==> a.value.openingAmount == b.value.openingAmount && multiset(a.value.movements) == multiset(b.value.movements))
    && multiset(sales) == multiset(sales')
    && multiset(expenses) == multiset(expenses')
    && multiset(purchases) == multiset(purchases')
  }

  /** Reordering movements, whole sales, expenses and purchases changes no figure of the summary. */
  lemma SummaryIsUnordered(a: Option<Session>, sales: seq<Sale>, expenses: seq<Payment>, purchases: seq<Payment>,
                           b: Option<Session>, sales': seq<Sale>, expenses': seq<Payment>, purchases': seq<Payment>,
                           counted: Option<real>)
    requires Reordered(a, sales, expenses, purchases, b, sales', expenses', purchases')
    ensures Summarize(a, sales, expenses, purchases, counted) == Summarize(b, sales', expenses', purchases', counted)
  {
    hide Figures, AddAll, AllPayments, AllShares, Manual, FeeSum, Deliveries;
    SalesAreUnordered(sales, sales');
    if a.Some? {
      ManualIsUnordered(a.value.movements, b.value.movements);
    }
    OrderDoesNotMatter(AllPayments(sales), AllPayments(sales'));
    OrderDoesNotMatter(AllShares(sales), AllShares(sales'));
    OrderDoesNotMatter(expenses, expenses');
    OrderDoesNotMatter(purchases, purchases');
  }
}
