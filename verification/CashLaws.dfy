/** What the summary means: conservation, rounding error, and agreement with the drawer's movements. */
module CashLaws {
  import opened Sequences
  import opened Wrappers
  import opened CashRecords
  import opened CashReconciliation

  function Total(amounts: seq<real>): real {
    if |amounts| == 0 then 0.0 else Total(amounts[..|amounts| - 1]) + amounts[|amounts| - 1]
  }

  predicate AllWhole(amounts: seq<real>) {
    forall k | 0 <= k < |amounts| :: WholeCents(amounts[k])
  }

  /** The amounts paid into one bucket. */
  function Into(payments: seq<Payment>, b: Bucket): seq<real> {
    if |payments| == 0 then []
    else
      var last := payments[|payments| - 1];
      Into(payments[..|payments| - 1], b) + if NormalizeMethodBucket(last.code) == b then [last.amount] else []
  }

  /** The exact sum of some payments. */
  function PaidSum(payments: seq<Payment>): real {
    if |payments| == 0 then 0.0 else PaidSum(payments[..|payments| - 1]) + payments[|payments| - 1].amount
  }

  predicate WholePayments(payments: seq<Payment>) {
    forall p | p in payments :: WholeCents(p.amount)
  }

  lemma WholePrefix(payments: seq<Payment>)
    requires WholePayments(payments) && |payments| > 0
    ensures WholePayments(payments[..|payments| - 1]) && WholeCents(payments[|payments| - 1].amount)
  {
    assert payments[|payments| - 1] in payments;
  }

  lemma TotalMore(amounts: seq<real>, x: real)
    ensures Total(amounts + [x]) == Total(amounts) + x
  {
    assert (amounts + [x])[..|amounts|] == amounts;
  }

  // Conservation

  lemma {:induction false} IntoIsWhole(payments: seq<Payment>, b: Bucket)
    requires WholePayments(payments)
    ensures AllWhole(Into(payments, b))
  {
    hide NormalizeMethodBucket, WholeCents;
    if |payments| > 0 {
      WholePrefix(payments);
      IntoIsWhole(payments[..|payments| - 1], b);
    }
  }

  lemma IntoMore(payments: seq<Payment>, b: Bucket)
    requires |payments| > 0
    ensures var last := payments[|payments| - 1];
      Total(Into(payments, b)) == Total(Into(payments[..|payments| - 1], b)) +
      if NormalizeMethodBucket(last.code) == b then last.amount else 0.0
  {
    hide NormalizeMethodBucket;
    var before := Into(payments[..|payments| - 1], b);
    TotalMore(before, payments[|payments| - 1].amount);
    assert before + [] == before;
  }

  /** Each amount to whole cents. */
  function Rounded(amounts: seq<real>): (r: seq<real>)
    ensures |r| == |amounts| && forall k :: 0 <= k < |r| ==> r[k] == RoundMoney(amounts[k])
  {
    seq(|amounts|, k requires 0 <= k < |amounts| => RoundMoney(amounts[k]))
  }

  lemma RoundedMore(amounts: seq<real>, x: real)
    ensures Total(Rounded(amounts + [x])) == Total(Rounded(amounts)) + RoundMoney(x)
  {
    hide RoundMoney;
    assert Rounded(amounts + [x]) == Rounded(amounts) + [RoundMoney(x)];
    TotalMore(Rounded(amounts), RoundMoney(x));
  }

  /** For any payments each bucket holds the sum of what was paid into it, each amount rounded on its own. */
  lemma {:induction false} BucketsAreRounded(payments: seq<Payment>, b: Bucket)
    ensures Get(AddAll(EMPTY, payments), b) == Total(Rounded(Into(payments, b)))
  {
    hide NormalizeMethodBucket, RoundMoney, WholeCents, Rounded;
    if |payments| == 0 {
      assert Rounded([]) == [];
    } else {
      var n := |payments| - 1;
      var before := Into(payments[..n], b);
      BucketsAreRounded(payments[..n], b);
      BucketIsWhole(payments[..n], b);
      RoundedSum(Get(AddAll(EMPTY, payments[..n]), b), payments[n].amount);
      RoundedMore(before, payments[n].amount);
      assert before + [] == before;
    }
  }

  lemma BucketIsWhole(payments: seq<Payment>, b: Bucket)
    ensures WholeCents(Get(AddAll(EMPTY, payments), b))
  {
    BucketsAreWhole(payments);
    hide WholeCents, AddAll;
  }

  lemma WholeAreRounded(amounts: seq<real>)
    requires AllWhole(amounts)
    ensures Rounded(amounts) == amounts
  {
    forall k | 0 <= k < |amounts|
      ensures RoundMoney(amounts[k]) == amounts[k]
    {
      RoundError(amounts[k]);
    }
  }

  /** With whole-cent payments each bucket holds exactly what was paid into it. */
  lemma BucketsAreExact(payments: seq<Payment>, b: Bucket)
    requires WholePayments(payments)
    ensures Get(AddAll(EMPTY, payments), b) == Total(Into(payments, b))
  {
    BucketsAreRounded(payments, b);
    IntoIsWhole(payments, b);
    WholeAreRounded(Into(payments, b));
  }

  /** The table as a whole drifts from the exact sum by at most half a cent per payment. */
  lemma {:induction false} TableDrift(payments: seq<Payment>)
    ensures var drift := FullSum(AddAll(EMPTY, payments)) - PaidSum(payments);
      -0.005 * |payments| as real <= drift <= 0.005 * |payments| as real
  {
    if |payments| > 0 {
      var n := |payments| - 1;
      var before := AddAll(EMPTY, payments[..n]);
      var b := NormalizeMethodBucket(payments[n].code);
      TableDrift(payments[..n]);
      RoundError(Get(before, b) + payments[n].amount);
    }
  }

  predicate WholeBuckets(a: Amounts) {
    WholeCents(a.cash) && WholeCents(a.nequi) && WholeCents(a.daviplata) && WholeCents(a.transfer) && WholeCents(a.card) &&
    WholeCents(a.other)
  }

  lemma ZeroIsWhole()
    ensures WholeCents(0.0) && WholeBuckets(EMPTY)
  {
  }

  lemma {:induction false} BucketsAreWhole(payments: seq<Payment>)
    ensures WholeBuckets(AddAll(EMPTY, payments))
  {
    hide NormalizeMethodBucket, RoundMoney, WholeCents;
    if |payments| == 0 {
      ZeroIsWhole();
    } else {
      var n := |payments| - 1;
      var before := AddAll(EMPTY, payments[..n]);
      BucketsAreWhole(payments[..n]);
      RoundError(Get(before, NormalizeMethodBucket(payments[n].code)) + payments[n].amount);
    }
  }

  lemma SumsAreWhole(a: Amounts)
    requires WholeBuckets(a)
    ensures WholeCents(DigitalSum(a)) && WholeCents(FullSum(a))
    ensures RoundMoney(DigitalSum(a)) == DigitalSum(a) && RoundMoney(FullSum(a)) == FullSum(a)
  {
    WholeSum(a.nequi, a.daviplata);
    WholeSum(a.nequi + a.daviplata, a.transfer);
    WholeSum(a.nequi + a.daviplata + a.transfer, a.card);
    WholeSum(a.nequi + a.daviplata + a.transfer + a.card, a.other);
    WholeSum(a.cash, DigitalSum(a));
    RoundError(DigitalSum(a));
    RoundError(FullSum(a));
  }

  /** Cash and digital revenue add up to total sales, for every input. */
  lemma RevenueIsSales(session: Option<Session>, sales: seq<Sale>, expenses: seq<Payment>, purchases: seq<Payment>,
                       counted: Option<real>)
    ensures var s := Summarize(session, sales, expenses, purchases, counted);
      s.totalRevenue == s.totalSales == FullSum(s.salesByMethod)
  {
    BucketsAreWhole(AllPayments(sales));
    SumsAreWhole(AddAll(EMPTY, AllPayments(sales)));
  }

  lemma {:induction false} SumByBuckets(payments: seq<Payment>)
    ensures PaidSum(payments) ==
            Total(Into(payments, Cash)) + Total(Into(payments, Nequi)) + Total(Into(payments, Daviplata)) +
            Total(Into(payments, Transfer)) + Total(Into(payments, Card)) + Total(Into(payments, OtherMethod))
  {
    hide NormalizeMethodBucket;
    if |payments| > 0 {
      var n := |payments| - 1;
      SumByBuckets(payments[..n]);
      var b := NormalizeMethodBucket(payments[n].code);
      TotalMore(Into(payments[..n], b), payments[n].amount);
      forall c: Bucket | c != b
        ensures Into(payments, c) == Into(payments[..n], c)
      {
      }
    }
  }

  lemma PaidSumIsBuckets(payments: seq<Payment>)
    requires WholePayments(payments)
    ensures FullSum(AddAll(EMPTY, payments)) == PaidSum(payments)
  {
    hide NormalizeMethodBucket, RoundMoney, WholeCents, AddAll, Into, PaidSum;
    SumByBuckets(payments);
    BucketsAreExact(payments, Cash);
    BucketsAreExact(payments, Nequi);
    BucketsAreExact(payments, Daviplata);
    BucketsAreExact(payments, Transfer);
    BucketsAreExact(payments, Card);
    BucketsAreExact(payments, OtherMethod);
  }

  /** Whole-cent sales are conserved exactly: what was paid is what the summary reports. */
  lemma SalesAreConserved(session: Option<Session>, sales: seq<Sale>, expenses: seq<Payment>, purchases: seq<Payment>,
                          counted: Option<real>)
    requires WholePayments(AllPayments(sales))
    ensures Summarize(session, sales, expenses, purchases, counted).totalSales == PaidSum(AllPayments(sales))
  {
    RevenueIsSales(session, sales, expenses, purchases, counted);
    PaidSumIsBuckets(AllPayments(sales));
  }

  /** The rounded outlay and result of whole-cent tables are exact. */
  lemma OutlayIsExact(byMethod: Amounts, spent: Amounts, bought: Amounts, other: real)
    requires WholeBuckets(byMethod) && WholeBuckets(spent) && WholeBuckets(bought) && WholeCents(other)
    ensures var outlay := FullSum(spent) + FullSum(bought) + other;
      && RoundMoney(spent.cash + RoundMoney(DigitalSum(spent)) + bought.cash + RoundMoney(DigitalSum(bought)) + other) == outlay
      && RoundMoney(RoundMoney(byMethod.cash + RoundMoney(DigitalSum(byMethod))) - outlay) == FullSum(byMethod) - outlay
      && RoundMoney(byMethod.cash + RoundMoney(DigitalSum(byMethod))) == FullSum(byMethod)
  {
    hide RoundMoney, WholeCents, WholeBuckets, DigitalSum;
    SumsAreWhole(spent);
    SumsAreWhole(bought);
    SumsAreWhole(byMethod);
    WholeSum(FullSum(spent), FullSum(bought));
    WholeSum(FullSum(spent) + FullSum(bought), other);
    RoundError(FullSum(spent) + FullSum(bought) + other);
    WholeSum(FullSum(byMethod), FullSum(spent) + FullSum(bought) + other);
    RoundError(FullSum(byMethod) - (FullSum(spent) + FullSum(bought) + other));
  }

  lemma FiguresAreRounded(opening: real, byMethod: Amounts, spent: Amounts, bought: Amounts, fees: Amounts, manual: ManualCash,
                          counted: Option<real>, deliveries: nat, feeSum: real)
    ensures var s := Figures(opening, byMethod, spent, bought, fees, manual, counted, deliveries, feeSum);
      && s.manualCash == manual
      && s.totalRevenue == RoundMoney(byMethod.cash + RoundMoney(DigitalSum(byMethod)))
      && s.totalExpenses ==
         RoundMoney(spent.cash + RoundMoney(DigitalSum(spent)) + bought.cash + RoundMoney(DigitalSum(bought)) + manual.otherExpense)
      && s.operationalResult == RoundMoney(s.totalRevenue - s.totalExpenses)
  {
    hide RoundMoney, DigitalSum, FullSum;
  }

  /** For whole-cent records the outlay is everything spent and bought, with the till's other expenses. */
  lemma ExpensesAreConserved(session: Option<Session>, sales: seq<Sale>, expenses: seq<Payment>, purchases: seq<Payment>,
                             counted: Option<real>)
    requires WholePayments(expenses) && WholePayments(purchases)
    ensures var s := Summarize(session, sales, expenses, purchases, counted);
      && WholeCents(s.manualCash.otherExpense)
      && s.totalExpenses == PaidSum(expenses) + PaidSum(purchases) + s.manualCash.otherExpense
      && s.operationalResult == s.totalRevenue - s.totalExpenses
  {
    hide Figures, RoundMoney, WholeCents, WholeBuckets, AddAll, Manual, PaidSum, AllPayments, AllShares, FullSum, DigitalSum;
    var byMethod, spent, bought := AddAll(EMPTY, AllPayments(sales)), AddAll(EMPTY, expenses), AddAll(EMPTY, purchases);
    var manual := Manual(if session.Some? then session.value.movements else []);
    PaidSumIsBuckets(expenses);
    PaidSumIsBuckets(purchases);
    BucketsAreWhole(expenses);
    BucketsAreWhole(purchases);
    BucketsAreWhole(AllPayments(sales));
    ManualIsWhole(if session.Some? then session.value.movements else []);
    OutlayIsExact(byMethod, spent, bought, manual.otherExpense);
    FiguresAreRounded(if session.Some? then session.value.openingAmount else 0.0, byMethod, spent, bought,
                      AddAll(EMPTY, AllShares(sales)), manual, counted, Deliveries(sales), FeeSum(sales));
  }

  lemma {:induction false} ManualIsWhole(movements: seq<Movement>)
    ensures var m := Manual(movements);
      WholeCents(m.otherIncome) && WholeCents(m.otherExpense) && WholeCents(m.adjustment)
  {
    hide NormalizeMethodBucket, RoundMoney, WholeCents;
    if |movements| == 0 {
      ZeroIsWhole();
    } else {
      var n := |movements| - 1;
      ManualIsWhole(movements[..n]);
      var m := Manual(movements[..n]);
      RoundError(m.otherIncome + movements[n].amount);
      RoundError(m.otherExpense + movements[n].amount);
      RoundError(m.adjustment + movements[n].amount);
    }
  }

  // Order

  lemma {:induction false} TotalWithout(amounts: seq<real>, k: nat)
    requires k < |amounts|
    ensures Total(amounts) == Total(amounts[..k] + amounts[k + 1..]) + amounts[k]
  {
    var n := |amounts| - 1;
    if k == n {
      assert amounts[..k] + amounts[k + 1..] == amounts[..n];
    } else {
      TotalWithout(amounts[..n], k);
      assert amounts[..n][..k] + amounts[..n][k + 1..] == (amounts[..k] + amounts[k + 1..])[..n - 1];
    }
  }

  lemma {:induction false} TotalIsUnordered(a: seq<real>, b: seq<real>)
    requires multiset(a) == multiset(b)
    ensures Total(a) == Total(b)
  {
    SameSize(a, b);
    if |a| > 0 {
      var k := Partner(a, b);
      TotalIsUnordered(a[..|a| - 1], b[..k] + b[k + 1..]);
      TotalWithout(b, k);
    }
  }

  lemma {:induction false} IntoConcat(s: seq<Payment>, t: seq<Payment>, b: Bucket)
    ensures Into(s + t, b) == Into(s, b) + Into(t, b)
  {
    hide NormalizeMethodBucket;
    if |t| == 0 {
      assert s + t == s && Into(s, b) + [] == Into(s, b);
    } else {
      IntoConcat(s, t[..|t| - 1], b);
      assert (s + t)[..|s + t| - 1] == s + t[..|t| - 1];
    }
  }

  lemma IntoWithout(t: seq<Payment>, k: nat, b: Bucket)
    requires k < |t|
    ensures multiset(Into(t, b)) == multiset(Into(t[..k] + t[k + 1..], b)) + multiset(Into([t[k]], b))
  {
    hide Into;
    assert t == t[..k] + [t[k]] + t[k + 1..];
    IntoConcat(t[..k], t[k + 1..], b);
    IntoConcat(t[..k] + [t[k]], t[k + 1..], b);
    IntoConcat(t[..k], [t[k]], b);
  }

  lemma {:induction false} IntoIsUnordered(s: seq<Payment>, t: seq<Payment>, b: Bucket)
    requires multiset(s) == multiset(t)
    ensures multiset(Into(s, b)) == multiset(Into(t, b))
  {
    SameSize(s, t);
    if |s| > 0 {
      hide Into;
      var n := |s| - 1;
      var k := Partner(s, t);
      IntoIsUnordered(s[..n], t[..k] + t[k + 1..], b);
      IntoWithout(t, k, b);
      IntoWithout(s, n, b);
      assert s[..n] + s[n + 1..] == s[..n];
    }
  }

  lemma {:induction false} RoundedIsUnordered(a: seq<real>, b: seq<real>)
    requires multiset(a) == multiset(b)
    ensures Total(Rounded(a)) == Total(Rounded(b))
  {
    hide RoundMoney;
    SameSize(a, b);
    if |a| > 0 {
      var n := |a| - 1;
      var k := Partner(a, b);
      RoundedIsUnordered(a[..n], b[..k] + b[k + 1..]);
      assert Rounded(b)[..k] + Rounded(b)[k + 1..] == Rounded(b[..k] + b[k + 1..]);
      assert Rounded(a)[..n] == Rounded(a[..n]);
      TotalWithout(Rounded(b), k);
    }
  }

  /** The order of payments makes no difference to any bucket, whatever the amounts. */
  lemma OrderDoesNotMatter(s: seq<Payment>, t: seq<Payment>)
    requires multiset(s) == multiset(t)
    ensures AddAll(EMPTY, s) == AddAll(EMPTY, t)
  {
    hide AddAll, Into, Rounded;
    forall b: Bucket
      ensures Get(AddAll(EMPTY, s), b) == Get(AddAll(EMPTY, t), b)
    {
      BucketsAreRounded(s, b);
      BucketsAreRounded(t, b);
      IntoIsUnordered(s, t, b);
      RoundedIsUnordered(Into(s, b), Into(t, b));
    }
    var x, y := AddAll(EMPTY, s), AddAll(EMPTY, t);
    assert Get(x, Cash) == Get(y, Cash) && Get(x, Nequi) == Get(y, Nequi) && Get(x, Daviplata) == Get(y, Daviplata);
    assert Get(x, Transfer) == Get(y, Transfer) && Get(x, Card) == Get(y, Card) && Get(x, OtherMethod) == Get(y, OtherMethod);
  }

  // Delivery fees

  /** A fee is carried by paid deliveries only, and its sale's payments add up to its total. */
  predicate FeeSettled(sale: Sale) {
    if CarriesFee(sale) then sale.total > 0.0 && PaidSum(sale.payments) == sale.total else sale.deliveryFee == 0.0
  }

  lemma {:induction false} PaidConcat(s: seq<Payment>, t: seq<Payment>)
    ensures PaidSum(s + t) == PaidSum(s) + PaidSum(t)
  {
    if |t| == 0 {
      assert s + t == s;
    } else {
      PaidConcat(s, t[..|t| - 1]);
      assert (s + t)[..|s + t| - 1] == s + t[..|t| - 1];
    }
  }

  lemma {:induction false} SharesAddUp(sale: Sale, n: nat)
    requires sale.total > 0.0 && n <= |sale.payments|
    ensures PaidSum(Shares(sale)[..n]) == sale.deliveryFee * PaidSum(sale.payments[..n]) / sale.total
  {
    if n > 0 {
      SharesAddUp(sale, n - 1);
      assert Shares(sale)[..n][..n - 1] == Shares(sale)[..n - 1];
      assert sale.payments[..n][..n - 1] == sale.payments[..n - 1];
      Distribute(sale.deliveryFee, PaidSum(sale.payments[..n - 1]), sale.payments[n - 1].amount, sale.total);
    }
  }

  lemma Distribute(f: real, x: real, y: real, t: real)
    requires t > 0.0
    ensures f * x / t + f * y / t == f * (x + y) / t
  {
  }

  lemma {:induction false} FeesAddUp(sales: seq<Sale>)
    requires forall sale :: sale in sales ==> FeeSettled(sale)
    ensures PaidSum(AllShares(sales)) == FeeSum(sales)
  {
    if |sales| > 0 {
      var n := |sales| - 1;
      var sale := sales[n];
      FeesAddUp(sales[..n]);
      assert sale in sales;
      if CarriesFee(sale) {
        PaidConcat(AllShares(sales[..n]), Shares(sale));
        SharesAddUp(sale, |sale.payments|);
        assert Shares(sale)[..|sale.payments|] == Shares(sale);
        assert sale.payments[..|sale.payments|] == sale.payments;
        Whole(sale.deliveryFee, sale.total);
      } else {
        assert AllShares(sales) == AllShares(sales[..n]);
      }
    }
  }

  lemma Whole(f: real, t: real)
    requires t > 0.0
    ensures f * t / t == f
  {
  }

  /** The fees allocated over the buckets differ from the total fee by at most half a cent per payment. */
  lemma FeesAreAllocated(session: Option<Session>, sales: seq<Sale>, expenses: seq<Payment>, purchases: seq<Payment>,
                         counted: Option<real>)
    requires forall sale :: sale in sales ==> FeeSettled(sale)
    requires WholeCents(FeeSum(sales))
    ensures var s := Summarize(session, sales, expenses, purchases, counted);
      var bound := 0.005 * |AllShares(sales)| as real;
      s.totalFee - bound <= FullSum(s.feeByMethod) <= s.totalFee + bound
  {
    FeesAddUp(sales);
    TableDrift(AllShares(sales));
    RoundError(FeeSum(sales));
  }

  /** A one-cent fee over three equal payments is allocated to no bucket at all. */
  lemma FeeMayVanish()
    ensures var sale := Sale(true, 0.01, 0.03, [Payment(0.01, None), Payment(0.01, None), Payment(0.01, None)]);
      && FeeSettled(sale)
      && FeeSum([sale]) == 0.01
      && AddAll(EMPTY, AllShares([sale])) == EMPTY
  {
    var cent := Payment(0.01, None);
    var sale := Sale(true, 0.01, 0.03, [cent, cent, cent]);
    assert sale.payments[..2] == [cent, cent] && [cent, cent][..1] == [cent] && [cent][..0] == [];
    assert PaidSum([cent]) == 0.01 && PaidSum([cent, cent]) == 0.02;
    assert [sale][..0] == [];
    var share := Share(sale, cent);
    var rounded := RoundMoney(share.amount);
    assert share.amount * 0.03 == 0.0001;
    assert rounded == 0.0 by {
      assert (share.amount * 100.0 + 0.5).Floor == 0;
    }
    assert Added(EMPTY, share) == EMPTY;
    assert AllShares([sale]) == [share, share, share];
    assert [share, share, share][..2] == [share, share] && [share, share][..1] == [share] && [share][..0] == [];
    assert AddAll(EMPTY, [share]) == EMPTY && AddAll(EMPTY, [share, share]) == EMPTY;
  }

  predicate NotNegative(payments: seq<Payment>) {
    forall k | 0 <= k < |payments| :: payments[k].amount >= 0.0
  }

  predicate SmallerThanHalfACent(payments: seq<Payment>) {
    forall k | 0 <= k < |payments| :: payments[k].amount < 0.005
  }

  /** Adding to a whole-cent bucket changes it exactly when the amount is half a cent or more. */
  lemma AddedVanishes(a: Amounts, p: Payment)
    requires WholeBuckets(a) && p.amount >= 0.0
    ensures WholeBuckets(Added(a, p)) && FullSum(Added(a, p)) >= FullSum(a)
    ensures p.amount < 0.005 ==> Added(a, p) == a
    ensures p.amount >= 0.005 ==> FullSum(Added(a, p)) > FullSum(a)
  {
    var x := Get(a, NormalizeMethodBucket(p.code));
    RoundError(x + p.amount);
    RoundedUp(x, p.amount);
    hide NormalizeMethodBucket, RoundMoney, WholeCents;
  }

  lemma RoundedUp(x: real, amount: real)
    requires WholeCents(x) && amount >= 0.0
    ensures amount < 0.005 ==> RoundMoney(x + amount) == x
    ensures amount >= 0.005 ==> RoundMoney(x + amount) > x
  {
    var n := (x * 100.0).Floor;
    assert x * 100.0 == n as real;
    assert (x + amount) * 100.0 + 0.5 == n as real + (amount * 100.0 + 0.5);
    if amount < 0.005 {
      assert ((x + amount) * 100.0 + 0.5).Floor == n;
    } else {
      assert ((x + amount) * 100.0 + 0.5).Floor >= n + 1;
    }
  }

  lemma {:induction false} SharesVanish(payments: seq<Payment>)
    requires NotNegative(payments)
    ensures var table := AddAll(EMPTY, payments);
      if SmallerThanHalfACent(payments) then table == EMPTY else FullSum(table) > 0.0
  {
    if |payments| > 0 {
      var n := |payments| - 1;
      SharesVanish(payments[..n]);
      BucketsAreWhole(payments[..n]);
      assert forall k :: 0 <= k < n ==> payments[..n][k] == payments[k];
      hide WholeBuckets, Added;
      AddedVanishes(AddAll(EMPTY, payments[..n]), payments[n]);
    }
  }

  /** Every payment's share of a fee is under half a cent, in the sale's own figures. */
  predicate SharesTooSmall(sale: Sale) {
    CarriesFee(sale) && sale.total > 0.0 ==>
      forall p | p in sale.payments :: sale.deliveryFee * p.amount < 0.005 * sale.total
  }

  lemma ShareIsSmall(sale: Sale, p: Payment)
    requires sale.total > 0.0
    ensures Share(sale, p).amount < 0.005 <==> sale.deliveryFee * p.amount < 0.005 * sale.total
    ensures sale.deliveryFee >= 0.0 && p.amount >= 0.0 ==> Share(sale, p).amount >= 0.0
  {
    var x, t := sale.deliveryFee * p.amount, sale.total;
    assert Share(sale, p).amount == x / t;
    Below(x, 0.005, t);
    Below(x, 0.0, t);
    if sale.deliveryFee >= 0.0 && p.amount >= 0.0 {
      assert x >= 0.0;
    }
  }

  lemma Below(x: real, y: real, t: real)
    requires t > 0.0
    ensures x / t < y <==> x < y * t
  {
    Scaled(x / t, y, t);
    assert x / t * t == x;
  }

  lemma Scaled(x: real, y: real, t: real)
    requires t > 0.0
    ensures x < y <==> x * t < y * t
  {
    if x < y {
      assert (y - x) * t > 0.0;
    } else {
      assert (x - y) * t >= 0.0;
    }
  }

  lemma SharesOfOne(sale: Sale)
    requires CarriesFee(sale) && NotNegative(sale.payments)
    ensures NotNegative(Shares(sale)) && (SmallerThanHalfACent(Shares(sale)) <==> SharesTooSmall(sale))
  {
    assert sale.deliveryFee > 0.0;
    hide CarriesFee;
    if sale.total > 0.0 {
      forall k | 0 <= k < |sale.payments|
        ensures Share(sale, sale.payments[k]).amount >= 0.0
        ensures Share(sale, sale.payments[k]).amount < 0.005 <==> sale.deliveryFee * sale.payments[k].amount < 0.005 * sale.total
      {
        ShareIsSmall(sale, sale.payments[k]);
      }
      hide Share;
      if SmallerThanHalfACent(Shares(sale)) {
        forall p | p in sale.payments
          ensures sale.deliveryFee * p.amount < 0.005 * sale.total
        {
          var k :| 0 <= k < |sale.payments| && sale.payments[k] == p;
          assert Shares(sale)[k] == Share(sale, sale.payments[k]);
        }
      } else {
        var k :| 0 <= k < |Shares(sale)| && !(Shares(sale)[k].amount < 0.005);
        assert sale.payments[k] in sale.payments;
      }
    }
  }

  lemma {:induction false} SharesOfAll(sales: seq<Sale>)
    requires forall sale :: sale in sales ==> NotNegative(sale.payments)
    ensures NotNegative(AllShares(sales))
    ensures SmallerThanHalfACent(AllShares(sales)) <==> forall sale :: sale in sales && CarriesFee(sale) ==> SharesTooSmall(sale)
  {
    if |sales| > 0 {
      var n := |sales| - 1;
      SharesOfAll(sales[..n]);
      assert sales == sales[..n] + [sales[n]];
      hide CarriesFee, SharesTooSmall, Shares;
      if CarriesFee(sales[n]) {
        SharesOfOne(sales[n]);
        SmallInBoth(AllShares(sales[..n]), Shares(sales[n]));
      } else {
        assert AllShares(sales[..n]) + [] == AllShares(sales[..n]);
      }
    }
  }

  lemma SmallInBoth(s: seq<Payment>, t: seq<Payment>)
    ensures SmallerThanHalfACent(s + t) <==> SmallerThanHalfACent(s) && SmallerThanHalfACent(t)
    ensures NotNegative(s) && NotNegative(t) ==> NotNegative(s + t)
  {
    if SmallerThanHalfACent(s + t) {
      forall k | 0 <= k < |t|
        ensures t[k].amount < 0.005
      {
        assert (s + t)[|s| + k] == t[k];
      }
      forall k | 0 <= k < |s|
        ensures s[k].amount < 0.005
      {
        assert (s + t)[k] == s[k];
      }
    }
  }

  /** No bucket gets anything of any fee exactly when every share of every fee is under half a cent. */
  lemma FeesVanishExactly(session: Option<Session>, sales: seq<Sale>, expenses: seq<Payment>, purchases: seq<Payment>,
                          counted: Option<real>)
    requires forall sale :: sale in sales ==> NotNegative(sale.payments)
    ensures Summarize(session, sales, expenses, purchases, counted).feeByMethod == EMPTY <==>
            forall sale :: sale in sales && CarriesFee(sale) ==> SharesTooSmall(sale)
  {
    SharesOfAll(sales);
    SharesVanish(AllShares(sales));
  }

  // The drawer

  /** What a movement does to the drawer's cash, in the drawer's own terms. */
  function Effect(m: Movement): real {
    if NormalizeMethodBucket(m.code) != Cash then 0.0
    else
      match m.kind
      case SaleIn => m.amount
      case ExpenseOut => -m.amount
      case OtherIncome => m.amount
      case OtherExpense => -m.amount
      case Adjustment => m.amount
      case Opening => 0.0
      case Closing => 0.0
  }

  function Fold(movements: seq<Movement>): real {
    if |movements| == 0 then 0.0 else Fold(movements[..|movements| - 1]) + Effect(movements[|movements| - 1])
  }

  /** The cash amounts of movements of one kind and link. */
  function Cashed(movements: seq<Movement>, kind: MovementType, reference: Reference): seq<real> {
    if |movements| == 0 then []
    else
      var last := movements[|movements| - 1];
      Cashed(movements[..|movements| - 1], kind, reference) +
      if NormalizeMethodBucket(last.code) == Cash && last.kind == kind && last.reference == reference then [last.amount] else []
  }

  /** What cash SALE and EXPENSE movements without their own kind of record did to the drawer. */
  function Unlinked(movements: seq<Movement>): real {
    if |movements| == 0 then 0.0
    else
      var last := movements[|movements| - 1];
      Unlinked(movements[..|movements| - 1]) +
      if (last.kind == SaleIn || last.kind == ExpenseOut) && !Linked(last) then Effect(last) else 0.0
  }

  predicate WholeMovements(movements: seq<Movement>) {
    forall k | 0 <= k < |movements| :: WholeCents(movements[k].amount)
  }

  lemma {:induction false} ManualIsTheRest(movements: seq<Movement>)
    requires WholeMovements(movements)
    ensures var m := Manual(movements);
      && WholeCents(m.otherIncome) && WholeCents(m.otherExpense) && WholeCents(m.adjustment)
      && m.otherIncome + m.adjustment - m.otherExpense ==
         Fold(movements) - Unlinked(movements) - Total(Cashed(movements, SaleIn, ToSale)) +
         Total(Cashed(movements, ExpenseOut, ToExpense)) + Total(Cashed(movements, ExpenseOut, ToPurchase))
  {
    if |movements| == 0 {
      ZeroIsWhole();
    } else {
      var n := |movements| - 1;
      var m := movements[n];
      ManualIsTheRest(movements[..n]);
      CashedMore(movements, SaleIn, ToSale);
      CashedMore(movements, ExpenseOut, ToExpense);
      CashedMore(movements, ExpenseOut, ToPurchase);
      CountedExactly(Manual(movements[..n]), m);
    }
  }

  lemma CashedMore(movements: seq<Movement>, kind: MovementType, reference: Reference)
    requires |movements| > 0
    ensures var n := |movements| - 1;
      Total(Cashed(movements, kind, reference)) == Total(Cashed(movements[..n], kind, reference)) +
      if NormalizeMethodBucket(movements[n].code) == Cash && movements[n].kind == kind && movements[n].reference == reference
      then movements[n].amount else 0.0
  {
    var n := |movements| - 1;
    var before := Cashed(movements[..n], kind, reference);
    TotalMore(before, movements[n].amount);
    assert before + [] == before;
  }

  lemma CountedExactly(totals: ManualCash, m: Movement)
    requires WholeCents(totals.otherIncome) && WholeCents(totals.otherExpense) && WholeCents(totals.adjustment)
    requires WholeCents(m.amount)
    ensures var after := Counted(totals, m);
      && WholeCents(after.otherIncome) && WholeCents(after.otherExpense) && WholeCents(after.adjustment)
      && after.otherIncome + after.adjustment - after.otherExpense ==
         totals.otherIncome + totals.adjustment - totals.otherExpense +
         if m.kind in {OtherIncome, OtherExpense, Adjustment} then Effect(m) else 0.0
  {
    hide NormalizeMethodBucket, RoundMoney, WholeCents;
    WholeSum(totals.otherIncome, m.amount);
    WholeSum(totals.otherExpense, m.amount);
    WholeSum(totals.adjustment, m.amount);
    RoundError(totals.otherIncome + m.amount);
    RoundError(totals.otherExpense + m.amount);
    RoundError(totals.adjustment + m.amount);
  }

  /** How far the records and their linked movements are apart, with the unlinked movements. */
  function Gap(movements: seq<Movement>, sales: seq<Sale>, expenses: seq<Payment>, purchases: seq<Payment>): real {
    (Total(Into(AllPayments(sales), Cash)) - Total(Cashed(movements, SaleIn, ToSale)))
    - (Total(Into(expenses, Cash)) - Total(Cashed(movements, ExpenseOut, ToExpense)))
    - (Total(Into(purchases, Cash)) - Total(Cashed(movements, ExpenseOut, ToPurchase)))
    - Unlinked(movements)
  }

  predicate WholeRecords(session: Session, sales: seq<Sale>, expenses: seq<Payment>, purchases: seq<Payment>) {
    WholeCents(session.openingAmount) && WholeMovements(session.movements) &&
    WholePayments(AllPayments(sales)) && WholePayments(expenses) && WholePayments(purchases)
  }

  /** The expected cash is the opening amount and the drawer's own movements, up to the gap, for all whole-cent records. */
  lemma ExpectedCash(session: Session, sales: seq<Sale>, expenses: seq<Payment>, purchases: seq<Payment>, counted: Option<real>)
    requires WholeRecords(session, sales, expenses, purchases)
    ensures Summarize(Some(session), sales, expenses, purchases, counted).expectedPhysicalCash ==
            session.openingAmount + Fold(session.movements) + Gap(session.movements, sales, expenses, purchases)
  {
    hide NormalizeMethodBucket, RoundMoney, WholeCents, AddAll, Manual, Fold, Unlinked, Cashed, Into, AllPayments;
    var manual := Manual(session.movements);
    var cashIn, spent, bought := AddAll(EMPTY, AllPayments(sales)).cash, AddAll(EMPTY, expenses).cash, AddAll(EMPTY, purchases).cash;
    ManualIsTheRest(session.movements);
    BucketsAreExact(AllPayments(sales), Cash);
    BucketsAreExact(expenses, Cash);
    BucketsAreExact(purchases, Cash);
    BucketsAreWhole(AllPayments(sales));
    BucketsAreWhole(expenses);
    BucketsAreWhole(purchases);
    WholeSum(session.openingAmount, cashIn);
    WholeSum(session.openingAmount + cashIn, manual.otherIncome);
    WholeSum(session.openingAmount + cashIn + manual.otherIncome, manual.adjustment);
    WholeSum(session.openingAmount + cashIn + manual.otherIncome + manual.adjustment, spent);
    WholeSum(session.openingAmount + cashIn + manual.otherIncome + manual.adjustment - spent, bought);
    WholeSum(session.openingAmount + cashIn + manual.otherIncome + manual.adjustment - spent - bought, manual.otherExpense);
    RoundError(session.openingAmount + cashIn + manual.otherIncome + manual.adjustment - spent - bought - manual.otherExpense);
  }

  /** The two views of the drawer agree exactly when the gap is zero. */
  lemma DrawerAgreesExactly(session: Session, sales: seq<Sale>, expenses: seq<Payment>, purchases: seq<Payment>,
                            counted: Option<real>)
    requires WholeRecords(session, sales, expenses, purchases)
    ensures Summarize(Some(session), sales, expenses, purchases, counted).expectedPhysicalCash ==
            session.openingAmount + Fold(session.movements) <==>
            Gap(session.movements, sales, expenses, purchases) == 0.0
  {
    hide Summarize, Gap, Fold, WholeRecords;
    ExpectedCash(session, sales, expenses, purchases, counted);
  }

  /** Each cash record has exactly one linked movement of its amount, and no cash SALE or EXPENSE movement is unlinked. */
  ghost predicate OneMovementEach(session: Session, sales: seq<Sale>, expenses: seq<Payment>, purchases: seq<Payment>) {
    && multiset(Into(AllPayments(sales), Cash)) == multiset(Cashed(session.movements, SaleIn, ToSale))
    && multiset(Into(expenses, Cash)) == multiset(Cashed(session.movements, ExpenseOut, ToExpense))
    && multiset(Into(purchases, Cash)) == multiset(Cashed(session.movements, ExpenseOut, ToPurchase))
    && (forall m | m in session.movements && NormalizeMethodBucket(m.code) == Cash ::
          m.kind == SaleIn || m.kind == ExpenseOut ==> Linked(m))
  }

  lemma {:induction false} AllLinked(movements: seq<Movement>)
    requires forall m | m in movements && NormalizeMethodBucket(m.code) == Cash ::
      m.kind == SaleIn || m.kind == ExpenseOut ==> Linked(m)
    ensures Unlinked(movements) == 0.0
  {
    if |movements| > 0 {
      AllLinked(movements[..|movements| - 1]);
      assert movements[|movements| - 1] in movements;
    }
  }

  /** Then the two views of the drawer agree to the cent. */
  lemma DrawerAgrees(session: Session, sales: seq<Sale>, expenses: seq<Payment>, purchases: seq<Payment>, counted: Option<real>)
    requires WholeRecords(session, sales, expenses, purchases) && OneMovementEach(session, sales, expenses, purchases)
    ensures Summarize(Some(session), sales, expenses, purchases, counted).expectedPhysicalCash ==
            session.openingAmount + Fold(session.movements)
  {
    ExpectedCash(session, sales, expenses, purchases, counted);
    AllLinked(session.movements);
    TotalIsUnordered(Into(AllPayments(sales), Cash), Cashed(session.movements, SaleIn, ToSale));
    TotalIsUnordered(Into(expenses, Cash), Cashed(session.movements, ExpenseOut, ToExpense));
    TotalIsUnordered(Into(purchases, Cash), Cashed(session.movements, ExpenseOut, ToPurchase));
  }
}
