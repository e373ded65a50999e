/** Money in a till: method buckets, rounding to cents, and the records of one cash session. */
module CashRecords {
  import opened Strings
  import opened Wrappers

  datatype Bucket = Cash | Nequi | Daviplata | Transfer | Card | OtherMethod

  /** One amount per bucket. */
  datatype Amounts = Amounts(cash: real, nequi: real, daviplata: real, transfer: real, card: real, other: real)

  const EMPTY: Amounts := Amounts(0.0, 0.0, 0.0, 0.0, 0.0, 0.0)

  function Get(a: Amounts, b: Bucket): real {
    match b
    case Cash => a.cash
    case Nequi => a.nequi
    case Daviplata => a.daviplata
    case Transfer => a.transfer
    case Card => a.card
    case OtherMethod => a.other
  }

  function Put(a: Amounts, b: Bucket, x: real): Amounts {
    match b
    case Cash => a.(cash := x)
    case Nequi => a.(nequi := x)
    case Daviplata => a.(daviplata := x)
    case Transfer => a.(transfer := x)
    case Card => a.(card := x)
    case OtherMethod => a.(other := x)
  }

  function DigitalSum(a: Amounts): real {
    a.nequi + a.daviplata + a.transfer + a.card + a.other
  }

  function FullSum(a: Amounts): real {
    a.cash + DigitalSum(a)
  }

  /** To whole cents, halves upwards. */
  function RoundMoney(value: real): real {
    (value * 100.0 + 0.5).Floor as real / 100.0
  }

  predicate WholeCents(x: real) {
    (x * 100.0).Floor as real == x * 100.0
  }

  lemma RoundError(v: real)
    ensures WholeCents(RoundMoney(v))
    ensures v - 0.005 < RoundMoney(v) <= v + 0.005
    ensures WholeCents(v) ==> RoundMoney(v) == v
  {
    var n := (v * 100.0 + 0.5).Floor;
    assert RoundMoney(v) * 100.0 == n as real;
    if WholeCents(v) {
      assert n == (v * 100.0).Floor;
    }
  }

  lemma WholeCentsOf(x: real, n: int)
    requires x * 100.0 == n as real
    ensures WholeCents(x)
  {
  }

  lemma WholeSum(x: real, y: real)
    requires WholeCents(x) && WholeCents(y)
    ensures WholeCents(x + y) && WholeCents(x - y)
  {
    var m, n := (x * 100.0).Floor, (y * 100.0).Floor;
    assert (m + n) as real == m as real + n as real && (m - n) as real == m as real - n as real;
    WholeCentsOf(x + y, m + n);
    WholeCentsOf(x - y, m - n);
  }

  /** Onto whole cents every amount adds its own rounded value, whatever it is. */
  lemma RoundedSum(x: real, y: real)
    requires WholeCents(x)
    ensures RoundMoney(x + y) == x + RoundMoney(y)
  {
    var n := (x * 100.0).Floor;
    assert (x + y) * 100.0 + 0.5 == n as real + (y * 100.0 + 0.5);
    assert ((x + y) * 100.0 + 0.5).Floor == n + (y * 100.0 + 0.5).Floor;
  }

  // Payment methods

  /** A payment without a method counts as cash; an unknown code as other. */
  function NormalizeMethodBucket(code: Option<string>): Bucket {
    var name := if code.Some? then Trim(Lower(code.value)) else "";
    if name in ["", "cash", "efectivo"] then Cash
    else if name == "nequi" then Nequi
    else if name == "daviplata" then Daviplata
    else if name in ["transfer", "transferencia", "bank_transfer"] then Transfer
    else if name in ["card", "tarjeta", "credit_card", "debit_card"] then Card
    else OtherMethod
  }

  // Records

  datatype Payment = Payment(amount: real, code: Option<string>)

  datatype Sale = Sale(delivery: bool, deliveryFee: real, total: real, payments: seq<Payment>)

  datatype MovementType = Opening | SaleIn | ExpenseOut | OtherIncome | OtherExpense | Adjustment | Closing

  datatype Reference = ToSale | ToExpense | ToPurchase | ToNothing

  datatype Movement = Movement(kind: MovementType, amount: real, reference: Reference, code: Option<string>)

  datatype Session = Session(openingAmount: real, movements: seq<Movement>)

  datatype ManualCash = ManualCash(otherIncome: real, otherExpense: real, adjustment: real)

  datatype Summary = Summary(
    openingCash: real,
    salesByMethod: Amounts,
    expensesByMethod: Amounts,
    purchasesByMethod: Amounts,
    feeByMethod: Amounts,
    manualCash: ManualCash,
    totalSales: real,
    totalRevenue: real,
    totalExpenses: real,
    expectedPhysicalCash: real,
    cashDifference: Option<real>,
    operationalResult: real,
    deliveryCount: nat,
    totalFee: real)

  // What the loops compute

  function Added(a: Amounts, p: Payment): Amounts {
    var b := NormalizeMethodBucket(p.code);
    Put(a, b, RoundMoney(Get(a, b) + p.amount))
  }

  function AddAll(a: Amounts, payments: seq<Payment>): Amounts {
    if |payments| == 0 then a else Added(AddAll(a, payments[..|payments| - 1]), payments[|payments| - 1])
  }

  function AllPayments(sales: seq<Sale>): seq<Payment> {
    if |sales| == 0 then [] else AllPayments(sales[..|sales| - 1]) + sales[|sales| - 1].payments
  }

  predicate CarriesFee(sale: Sale) {
    sale.delivery && sale.deliveryFee > 0.0
  }

  function Share(sale: Sale, p: Payment): Payment {
    p.(amount := if sale.total > 0.0 then sale.deliveryFee * p.amount / sale.total else 0.0)
  }

  function Shares(sale: Sale): (r: seq<Payment>)
    ensures |r| == |sale.payments| && forall k :: 0 <= k < |r| ==> r[k] == Share(sale, sale.payments[k])
  {
    seq(|sale.payments|, k requires 0 <= k < |sale.payments| => Share(sale, sale.payments[k]))
  }

  /** Each delivery fee, spread over its sale's payments in proportion. */
  function AllShares(sales: seq<Sale>): seq<Payment> {
    if |sales| == 0 then []
    else
      var last := sales[|sales| - 1];
      AllShares(sales[..|sales| - 1]) + if CarriesFee(last) then Shares(last) else []
  }

  predicate Linked(m: Movement) {
    (m.kind == SaleIn && m.reference == ToSale) ||
    (m.kind == ExpenseOut && m.reference == ToExpense) ||
    (m.kind == ExpenseOut && m.reference == ToPurchase)
  }

  function Counted(totals: ManualCash, m: Movement): ManualCash {
    if NormalizeMethodBucket(m.code) != Cash || Linked(m) then totals
    else if m.kind == OtherIncome then totals.(otherIncome := RoundMoney(totals.otherIncome + m.amount))
    else if m.kind == OtherExpense then totals.(otherExpense := RoundMoney(totals.otherExpense + m.amount))
    else if m.kind == Adjustment then totals.(adjustment := RoundMoney(totals.adjustment + m.amount))
    else totals
  }

  function Manual(movements: seq<Movement>): ManualCash {
    if |movements| == 0 then ManualCash(0.0, 0.0, 0.0)
    else Counted(Manual(movements[..|movements| - 1]), movements[|movements| - 1])
  }

  function FeeSum(sales: seq<Sale>): real {
    if |sales| == 0 then 0.0 else FeeSum(sales[..|sales| - 1]) + sales[|sales| - 1].deliveryFee
  }

  function Deliveries(sales: seq<Sale>): nat {
    if |sales| == 0 then 0 else Deliveries(sales[..|sales| - 1]) + if sales[|sales| - 1].delivery then 1 else 0
  }

  /** The figures of a summary, from the bucket totals. */
  function Figures(opening: real, byMethod: Amounts, spent: Amounts, bought: Amounts, fees: Amounts, manual: ManualCash,
                   counted: Option<real>, deliveries: nat, feeSum: real): Summary
  {
    var revenue := RoundMoney(byMethod.cash + RoundMoney(DigitalSum(byMethod)));
    var outlay := RoundMoney(spent.cash + RoundMoney(DigitalSum(spent)) + bought.cash + RoundMoney(DigitalSum(bought)) +
                             manual.otherExpense);
    var expected := RoundMoney(opening + byMethod.cash + manual.otherIncome + manual.adjustment - spent.cash - bought.cash -
                               manual.otherExpense);
    var difference := if counted.Some? then Some(RoundMoney(counted.value - expected)) else None;
    Summary(opening, byMethod, spent, bought, fees, manual, RoundMoney(FullSum(byMethod)), revenue, outlay, expected,
            difference, RoundMoney(revenue - outlay), deliveries, RoundMoney(feeSum))
  }

  function Summarize(session: Option<Session>, sales: seq<Sale>, expenses: seq<Payment>, purchases: seq<Payment>,
                     counted: Option<real>): Summary
  {
    Figures(if session.Some? then session.value.openingAmount else 0.0,
            AddAll(EMPTY, AllPayments(sales)), AddAll(EMPTY, expenses), AddAll(EMPTY, purchases), AddAll(EMPTY, AllShares(sales)),
            Manual(if session.Some? then session.value.movements else []), counted, Deliveries(sales), FeeSum(sales))
  }
}
