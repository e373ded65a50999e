/** The reconciliation as it runs: bucket totals updated in place, one record at a time. */
module CashReconciliation {
  import opened Wrappers
  import opened CashRecords

  /** A table of bucket totals under construction. */
  class Totals {
    var amounts: Amounts

    constructor ()
      ensures amounts == EMPTY
    {
      amounts := EMPTY;
    }

    method AddAmount(p: Payment)
      modifies this
      ensures amounts == Added(old(amounts), p)
      ensures var b := NormalizeMethodBucket(p.code);
        && (forall c: Bucket :: c != b ==> Get(amounts, c) == Get(old(amounts), c))
        && WholeCents(Get(amounts, b))
        && -0.005 < Get(amounts, b) - (Get(old(amounts), b) + p.amount) <= 0.005
    {
      RoundError(Get(amounts, NormalizeMethodBucket(p.code)) + p.amount);
      hide NormalizeMethodBucket, RoundMoney, WholeCents;
      var b := NormalizeMethodBucket(p.code);
      amounts := Put(amounts, b, RoundMoney(Get(amounts, b) + p.amount));
    }
  }

  lemma {:induction false} AddAllConcat(a: Amounts, s: seq<Payment>, t: seq<Payment>)
    ensures AddAll(a, s + t) == AddAll(AddAll(a, s), t)
  {
    if |t| == 0 {
      assert s + t == s;
    } else {
      AddAllConcat(a, s, t[..|t| - 1]);
      assert (s + t)[..|s + t| - 1] == s + t[..|t| - 1];
    }
  }

  method AddPayments(target: Totals, payments: seq<Payment>)
    modifies target
    ensures target.amounts == AddAll(old(target.amounts), payments)
  {
    for n := 0 to |payments|
      invariant target.amounts == AddAll(old(target.amounts), payments[..n])
    {
      assert payments[..n + 1][..n] == payments[..n];
      target.AddAmount(payments[n]);
    }
    assert payments[..|payments|] == payments;
  }

  /** One pass over the sales fills the sales table and the fee table. */
  method AddSales(salesByMethod: Totals, feeByMethod: Totals, sales: seq<Sale>)
    requires salesByMethod != feeByMethod
    requires salesByMethod.amounts == EMPTY && feeByMethod.amounts == EMPTY
    modifies salesByMethod, feeByMethod
    ensures salesByMethod.amounts == AddAll(EMPTY, AllPayments(sales))
    ensures feeByMethod.amounts == AddAll(EMPTY, AllShares(sales))
  {
    for n := 0 to |sales|
      invariant salesByMethod.amounts == AddAll(EMPTY, AllPayments(sales[..n]))
      invariant feeByMethod.amounts == AddAll(EMPTY, AllShares(sales[..n]))
    {
      var sale := sales[n];
      assert sales[..n + 1][..n] == sales[..n];
      AddAllConcat(EMPTY, AllPayments(sales[..n]), sale.payments);
      AddPayments(salesByMethod, sale.payments);
      if CarriesFee(sale) {
        AddAllConcat(EMPTY, AllShares(sales[..n]), Shares(sale));
        AddPayments(feeByMethod, Shares(sale));
      } else {
        assert AllShares(sales[..n + 1]) == AllShares(sales[..n]);
      }
    }
    assert sales[..|sales|] == sales;
  }

  method CalculateManualCash(movements: seq<Movement>) returns (totals: ManualCash)
    ensures totals == Manual(movements)
  {
    hide NormalizeMethodBucket, RoundMoney;
    totals := ManualCash(0.0, 0.0, 0.0);
    for n := 0 to |movements|
      invariant totals == Manual(movements[..n])
    {
      var m := movements[n];
      assert movements[..n + 1][..n] == movements[..n];
      if NormalizeMethodBucket(m.code) != Cash || Linked(m) {
        continue;
      }
      if m.kind == OtherIncome {
        totals := totals.(otherIncome := RoundMoney(totals.otherIncome + m.amount));
      }
      if m.kind == OtherExpense {
        totals := totals.(otherExpense := RoundMoney(totals.otherExpense + m.amount));
      }
      if m.kind == Adjustment {
        totals := totals.(adjustment := RoundMoney(totals.adjustment + m.amount));
      }
    }
    assert movements[..|movements|] == movements;
  }

  method CountDeliveries(sales: seq<Sale>) returns (deliveries: nat, feeSum: real)
    ensures deliveries == Deliveries(sales) && feeSum == FeeSum(sales)
  {
    deliveries, feeSum := 0, 0.0;
    for n := 0 to |sales|
      invariant deliveries == Deliveries(sales[..n]) && feeSum == FeeSum(sales[..n])
    {
      assert sales[..n + 1][..n] == sales[..n];
      if sales[n].delivery {
        deliveries := deliveries + 1;
      }
      feeSum := feeSum + sales[n].deliveryFee;
    }
    assert sales[..|sales|] == sales;
  }

  method BuildFromRecords(session: Option<Session>, sales: seq<Sale>, expenses: seq<Payment>, purchases: seq<Payment>,
                          counted: Option<real>) returns (summary: Summary)
    ensures summary == Summarize(session, sales, expenses, purchases, counted)
  {
    hide Figures, AddAll, AllPayments, AllShares, Manual, FeeSum, Deliveries;
    var salesByMethod := new Totals();
    var expensesByMethod := new Totals();
    var purchasesByMethod := new Totals();
    var feeByMethod := new Totals();
    AddSales(salesByMethod, feeByMethod, sales);
    AddPayments(expensesByMethod, expenses);
    AddPayments(purchasesByMethod, purchases);
    var manual := CalculateManualCash(if session.Some? then session.value.movements else []);
    var deliveries, feeSum := CountDeliveries(sales);
    summary := Figures(if session.Some? then session.value.openingAmount else 0.0,
                       salesByMethod.amounts, expensesByMethod.amounts, purchasesByMethod.amounts, feeByMethod.amounts,
                       manual, counted, deliveries, feeSum);
  }
}
