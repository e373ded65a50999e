/** The lines of one purchase run concurrently inside one transaction: every line reads, writes, then records. */
module PurchaseLines {
  import opened Sequences
  import opened Wrappers
  import opened StockLedger

  datatype Line = Line(item: ItemId, quantity: real, unitCost: real)

  /** What a committed purchase leaves: the ledger and the amount it is paid with. */
  datatype Received = Received(ledger: Ledger, subtotal: real)

  datatype Task = Waiting | HasRead(seen: real) | HasWritten(balance: real) | Done

  datatype Receiving = Receiving(ledger: Ledger, tasks: seq<Task>)

  predicate Known(ledger: Ledger, lines: seq<Line>) {
    forall k | 0 <= k < |lines| :: lines[k].item in ledger.stock
  }

  predicate Running(s: Receiving, lines: seq<Line>) {
    |s.tasks| == |lines| && Known(s.ledger, lines)
  }

  /** One line makes one move; moves of different lines may come in any order. */
  function Move(s: Receiving, lines: seq<Line>, k: nat): (r: Receiving)
    requires Running(s, lines)
    ensures Running(r, lines)
  {
    if k >= |lines| then s
    else
      var Line(item, quantity, _) := lines[k];
      match s.tasks[k]
      case Waiting => s.(tasks := s.tasks[k := HasRead(s.ledger.stock[item])])
      case HasRead(seen) =>
        Receiving(s.ledger.(stock := s.ledger.stock[item := seen + quantity]), s.tasks[k := HasWritten(seen + quantity)])
      case HasWritten(balance) =>
        Receiving(s.ledger.(movements := s.ledger.movements + [StockMovement(item, quantity, balance)]), s.tasks[k := Done])
      case Done => s
  }

  function Moves(s: Receiving, lines: seq<Line>, schedule: seq<nat>): (r: Receiving)
    requires Running(s, lines)
    ensures Running(r, lines)
  {
    if |schedule| == 0 then s else Move(Moves(s, lines, schedule[..|schedule| - 1]), lines, schedule[|schedule| - 1])
  }

  function Begin(ledger: Ledger, lines: seq<Line>): Receiving {
    Receiving(ledger, seq(|lines|, _ => Waiting))
  }

  predicate Finished(s: Receiving) {
    forall k | 0 <= k < |s.tasks| :: s.tasks[k] == Done
  }

  predicate DistinctItems(lines: seq<Line>) {
    forall j, k | 0 <= j < k < |lines| :: lines[j].item != lines[k].item
  }

  function CostOf(line: Line): real {
    line.quantity * line.unitCost
  }

  function Subtotal(lines: seq<Line>): real {
    if |lines| == 0 then 0.0 else Subtotal(lines[..|lines| - 1]) + CostOf(lines[|lines| - 1])
  }

  /** The purchase commits the final ledger, or fails before anything is kept. */
  function Receive(ledger: Ledger, lines: seq<Line>, schedule: seq<nat>): Result<Received, StockError> {
    if !Known(ledger, lines) then Failure(ItemNotFound)
    else Success(Received(Moves(Begin(ledger, lines), lines, schedule).ledger, Subtotal(lines)))
  }

  /** One line costs its quantity at its unit cost, and costs add up. */
  lemma {:induction false} SubtotalAddsUp(a: seq<Line>, b: seq<Line>, line: Line)
    ensures Subtotal([line]) == line.quantity * line.unitCost
    ensures Subtotal(a + b) == Subtotal(a) + Subtotal(b)
  {
    assert [line][..0] == [];
    hide CostOf;
    if |b| == 0 {
      assert a + b == a;
    } else {
      SubtotalAddsUp(a, b[..|b| - 1], line);
      assert (a + b)[..|a + b| - 1] == a + b[..|b| - 1];
    }
  }

  lemma {:induction false} SubtotalWithout(lines: seq<Line>, k: nat)
    requires k < |lines|
    ensures Subtotal(lines) == Subtotal(lines[..k] + lines[k + 1..]) + CostOf(lines[k])
  {
    hide CostOf;
    var n := |lines| - 1;
    if k == n {
      assert lines[..k] + lines[k + 1..] == lines[..n];
    } else {
      SubtotalWithout(lines[..n], k);
      assert lines[..n][..k] + lines[..n][k + 1..] == (lines[..k] + lines[k + 1..])[..n - 1];
    }
  }

  /** The subtotal does not depend on the order of the lines. */
  lemma {:induction false} SubtotalIsUnordered(a: seq<Line>, b: seq<Line>)
    requires multiset(a) == multiset(b)
    ensures Subtotal(a) == Subtotal(b)
  {
    SameSize(a, b);
    if |a| > 0 {
      var k := Partner(a, b);
      SubtotalIsUnordered(a[..|a| - 1], b[..k] + b[k + 1..]);
      SubtotalWithout(b, k);
    }
  }

  /** The reduction over the lines. */
  method ComputeSubtotal(lines: seq<Line>) returns (subtotal: real)
    ensures subtotal == Subtotal(lines)
  {
    subtotal := 0.0;
    for n := 0 to |lines|
      invariant subtotal == Subtotal(lines[..n])
    {
      assert lines[..n + 1][..n] == lines[..n];
      subtotal := subtotal + lines[n].quantity * lines[n].unitCost;
    }
    assert lines[..|lines|] == lines;
  }

  // Distinct items

  /** Where one line is, while no other line touches its item. */
  ghost predicate OnItsOwn(before: Ledger, s: Receiving, line: Line, task: Task)
    requires line.item in before.stock && line.item in s.ledger.stock
  {
    var x, q := line.item, line.quantity;
    var initial, ms := before.stock[x], Of(s.ledger.movements, x);
    match task
    case Waiting => s.ledger.stock[x] == initial && ms == Of(before.movements, x)
    case HasRead(seen) => seen == initial && s.ledger.stock[x] == initial && ms == Of(before.movements, x)
    case HasWritten(balance) => balance == initial + q && s.ledger.stock[x] == initial + q && ms == Of(before.movements, x)
    case Done => s.ledger.stock[x] == initial + q && ms == Of(before.movements, x) + [StockMovement(x, q, initial + q)]
  }

  ghost predicate Separate(before: Ledger, s: Receiving, lines: seq<Line>)
    requires Known(before, lines) && Running(s, lines)
  {
    && s.ledger.stock.Keys == before.stock.Keys
    && (forall k :: 0 <= k < |lines| ==> OnItsOwn(before, s, lines[k], s.tasks[k]))
    && (forall x :: x in before.stock && (forall k :: 0 <= k < |lines| ==> lines[k].item != x) ==>
          s.ledger.stock[x] == before.stock[x] && Of(s.ledger.movements, x) == Of(before.movements, x))
  }

  /** A move of line `k` touches no other line's task and no other item. */
  lemma MoveElsewhere(s: Receiving, lines: seq<Line>, k: nat, x: ItemId)
    requires Running(s, lines) && k < |lines| && x != lines[k].item
    ensures var r := Move(s, lines, k);
      && r.ledger.stock.Keys == s.ledger.stock.Keys
      && (forall j :: 0 <= j < |lines| && j != k ==> r.tasks[j] == s.tasks[j])
      && (x in s.ledger.stock ==> r.ledger.stock[x] == s.ledger.stock[x])
      && Of(r.ledger.movements, x) == Of(s.ledger.movements, x)
  {
    hide Of;
    if s.tasks[k].HasWritten? {
      OfMore(s.ledger.movements, StockMovement(lines[k].item, lines[k].quantity, s.tasks[k].balance), x);
      assert Of(s.ledger.movements, x) + [] == Of(s.ledger.movements, x);
    }
  }

  lemma MoveOfItsOwn(before: Ledger, s: Receiving, lines: seq<Line>, k: nat)
    requires Known(before, lines) && Running(s, lines) && k < |lines| && OnItsOwn(before, s, lines[k], s.tasks[k])
    ensures var r := Move(s, lines, k);
      r.ledger.stock.Keys == s.ledger.stock.Keys && OnItsOwn(before, r, lines[k], r.tasks[k])
  {
    hide Of;
    if s.tasks[k].HasWritten? {
      OfMore(s.ledger.movements, StockMovement(lines[k].item, lines[k].quantity, s.tasks[k].balance), lines[k].item);
    }
  }

  lemma OwnKept(before: Ledger, s: Receiving, r: Receiving, line: Line, task: Task)
    requires line.item in before.stock && line.item in s.ledger.stock && line.item in r.ledger.stock
    requires OnItsOwn(before, s, line, task)
    requires r.ledger.stock[line.item] == s.ledger.stock[line.item]
    requires Of(r.ledger.movements, line.item) == Of(s.ledger.movements, line.item)
    ensures OnItsOwn(before, r, line, task)
  {
    hide Of;
  }

  lemma LineStaysSeparate(before: Ledger, s: Receiving, lines: seq<Line>, k: nat, j: nat)
    requires Known(before, lines) && Running(s, lines) && DistinctItems(lines)
    requires k < |lines| && j < |lines| && OnItsOwn(before, s, lines[j], s.tasks[j])
    ensures OnItsOwn(before, Move(s, lines, k), lines[j], Move(s, lines, k).tasks[j])
  {
    hide Move, Of, OnItsOwn;
    if j == k {
      MoveOfItsOwn(before, s, lines, k);
    } else {
      assert lines[if j < k then j else k].item != lines[if j < k then k else j].item;
      MoveElsewhere(s, lines, k, lines[j].item);
      OwnKept(before, s, Move(s, lines, k), lines[j], s.tasks[j]);
    }
  }

  lemma MoveStaysSeparate(before: Ledger, s: Receiving, lines: seq<Line>, k: nat)
    requires Known(before, lines) && Running(s, lines) && DistinctItems(lines) && Separate(before, s, lines)
    ensures Separate(before, Move(s, lines, k), lines)
  {
    hide Of, OnItsOwn, DistinctItems;
    if k < |lines| {
      hide Move, Known;
      var r := Move(s, lines, k);
      MoveOfItsOwn(before, s, lines, k);
      forall j | 0 <= j < |lines|
        ensures OnItsOwn(before, r, lines[j], r.tasks[j])
      {
        LineStaysSeparate(before, s, lines, k, j);
      }
      forall x | x in before.stock && (forall j :: 0 <= j < |lines| ==> lines[j].item != x)
        ensures r.ledger.stock[x] == before.stock[x] && Of(r.ledger.movements, x) == Of(before.movements, x)
      {
        MoveElsewhere(s, lines, k, x);
      }
    }
  }

  lemma {:induction false} MovesStaySeparate(before: Ledger, lines: seq<Line>, schedule: seq<nat>)
    requires Known(before, lines) && DistinctItems(lines)
    ensures Separate(before, Moves(Begin(before, lines), lines, schedule), lines)
  {
    if |schedule| > 0 {
      MovesStaySeparate(before, lines, schedule[..|schedule| - 1]);
      MoveStaysSeparate(before, Moves(Begin(before, lines), lines, schedule[..|schedule| - 1]), lines, schedule[|schedule| - 1]);
    }
  }

  lemma ReceivedExplains(ledger: Ledger, opening: map<ItemId, real>, s: Receiving, line: Line)
    requires line.item in ledger.stock && line.item in opening && line.item in s.ledger.stock && line.quantity > 0.0
    requires Explained(ledger, opening, line.item) && OnItsOwn(ledger, s, line, Done)
    ensures Explained(s.ledger, opening, line.item)
  {
    hide Of, Chain, Closing;
    var x := line.item;
    ChainMore(opening[x], Of(ledger.movements, x), StockMovement(x, line.quantity, ledger.stock[x] + line.quantity));
  }

  lemma ItemReceived(ledger: Ledger, opening: map<ItemId, real>, lines: seq<Line>, s: Receiving, x: ItemId)
    requires Consistent(ledger, opening) && Known(ledger, lines) && Running(s, lines) && Separate(ledger, s, lines) && Finished(s)
    requires forall k :: 0 <= k < |lines| ==> lines[k].quantity > 0.0
    requires x in ledger.stock
    ensures Explained(s.ledger, opening, x)
  {
    assert Explained(ledger, opening, x);
    hide Of, Chain, Closing, Known;
    if k :| 0 <= k < |lines| && lines[k].item == x {
      assert OnItsOwn(ledger, s, lines[k], s.tasks[k]);
      ReceivedExplains(ledger, opening, s, lines[k]);
    }
  }

  /** With distinct items, every interleaving of the lines leaves the ledger consistent and adds every quantity. */
  lemma DistinctPurchaseKeeps(ledger: Ledger, opening: map<ItemId, real>, lines: seq<Line>, schedule: seq<nat>)
    requires Consistent(ledger, opening) && Known(ledger, lines) && DistinctItems(lines)
    requires forall k :: 0 <= k < |lines| ==> lines[k].quantity > 0.0
    requires Finished(Moves(Begin(ledger, lines), lines, schedule))
    ensures var after := Moves(Begin(ledger, lines), lines, schedule).ledger;
      && Consistent(after, opening)
      && (forall k :: 0 <= k < |lines| ==> after.stock[lines[k].item] == ledger.stock[lines[k].item] + lines[k].quantity)
      && (forall x :: x in ledger.stock && (forall k :: 0 <= k < |lines| ==> lines[k].item != x) ==>
            after.stock[x] == ledger.stock[x])
  {
    var s := Moves(Begin(ledger, lines), lines, schedule);
    MovesStaySeparate(ledger, lines, schedule);
    hide Moves, Begin, Of, Explained;
    forall x | x in s.ledger.stock
      ensures Explained(s.ledger, opening, x)
    {
      ItemReceived(ledger, opening, lines, s, x);
    }
    forall k | 0 <= k < |lines|
      ensures s.ledger.stock[lines[k].item] == ledger.stock[lines[k].item] + lines[k].quantity
    {
      assert OnItsOwn(ledger, s, lines[k], s.tasks[k]);
    }
  }

  // Repeated items

  /** All lines move once, in order. */
  function Round(n: nat): seq<nat> {
    if n == 0 then [] else Round(n - 1) + [n - 1]
  }

  /** Every line reads before any line writes. */
  function ReadsFirst(n: nat): seq<nat> {
    Round(n) + Round(n) + Round(n)
  }

  lemma {:induction false} MovesConcat(s: Receiving, lines: seq<Line>, a: seq<nat>, b: seq<nat>)
    requires Running(s, lines)
    ensures Moves(s, lines, a + b) == Moves(Moves(s, lines, a), lines, b)
  {
    if |b| == 0 {
      assert a + b == a;
    } else {
      MovesConcat(s, lines, a, b[..|b| - 1]);
      assert (a + b)[..|a + b| - 1] == a + b[..|b| - 1];
    }
  }

  lemma RoundMore(n: nat)
    requires n > 0
    ensures Round(n)[..|Round(n)| - 1] == Round(n - 1) && Round(n)[|Round(n)| - 1] == n - 1
  {
  }

  lemma {:induction false} ReadRound(s: Receiving, lines: seq<Line>, n: nat)
    requires Running(s, lines) && n <= |lines| && forall k :: 0 <= k < |lines| ==> s.tasks[k] == Waiting
    ensures var r := Moves(s, lines, Round(n));
      && r.ledger == s.ledger
      && (forall k :: 0 <= k < n ==> r.tasks[k] == HasRead(s.ledger.stock[lines[k].item]))
      && (forall k :: n <= k < |lines| ==> r.tasks[k] == Waiting)
  {
    if n > 0 {
      RoundMore(n);
      ReadRound(s, lines, n - 1);
    }
  }

  lemma WriteOne(s: Receiving, lines: seq<Line>, k: nat)
    requires Running(s, lines) && k < |lines| && s.tasks[k].HasRead?
    ensures var balance := s.tasks[k].seen + lines[k].quantity;
      Move(s, lines, k) ==
      Receiving(Ledger(s.ledger.stock[lines[k].item := balance], s.ledger.movements), s.tasks[k := HasWritten(balance)])
  {
  }

  /** After the writes an item holds what its last line wrote. */
  lemma {:induction false} WriteRound(before: Ledger, s: Receiving, lines: seq<Line>, n: nat)
    requires Running(s, lines) && Known(before, lines) && n <= |lines| && s.ledger == before
    requires forall k :: 0 <= k < |lines| ==> s.tasks[k] == HasRead(before.stock[lines[k].item])
    ensures var r := Moves(s, lines, Round(n));
      && r.ledger.movements == before.movements
      && (forall k :: 0 <= k < n ==> r.tasks[k] == HasWritten(before.stock[lines[k].item] + lines[k].quantity))
      && (forall k :: n <= k < |lines| ==> r.tasks[k] == s.tasks[k])
      && (forall k :: 0 <= k < n && (forall j :: k < j < n ==> lines[j].item != lines[k].item) ==>
            r.ledger.stock[lines[k].item] == before.stock[lines[k].item] + lines[k].quantity)
  {
    hide Move;
    if n > 0 {
      RoundMore(n);
      WriteRound(before, s, lines, n - 1);
      var w := Moves(s, lines, Round(n - 1));
      WriteOne(w, lines, n - 1);
      forall k | 0 <= k < n - 1 && (forall j :: k < j < n ==> lines[j].item != lines[k].item)
        ensures w.ledger.stock[lines[k].item] == before.stock[lines[k].item] + lines[k].quantity
      {
        assert lines[n - 1].item != lines[k].item;
      }
    }
  }

  /** What the first `n` lines bought of an item. */
  function Bought(lines: seq<Line>, n: nat, x: ItemId): real
    requires n <= |lines|
  {
    if n == 0 then 0.0 else Bought(lines, n - 1, x) + if lines[n - 1].item == x then lines[n - 1].quantity else 0.0
  }

  lemma SumMore(ms: seq<StockMovement>, m: StockMovement)
    ensures QuantitySum(ms + [m]) == QuantitySum(ms) + m.quantity
  {
    assert (ms + [m])[..|ms|] == ms;
  }

  lemma RecordOne(s: Receiving, lines: seq<Line>, k: nat, x: ItemId)
    requires Running(s, lines) && k < |lines| && s.tasks[k].HasWritten?
    ensures var r := Move(s, lines, k);
      && r.ledger.stock == s.ledger.stock && r.tasks == s.tasks[k := Done]
      && QuantitySum(Of(r.ledger.movements, x)) ==
         QuantitySum(Of(s.ledger.movements, x)) + if lines[k].item == x then lines[k].quantity else 0.0
  {
    hide QuantitySum, Of;
    var m := StockMovement(lines[k].item, lines[k].quantity, s.tasks[k].balance);
    OfMore(s.ledger.movements, m, x);
    SumMore(Of(s.ledger.movements, x), m);
    assert Of(s.ledger.movements, x) + [] == Of(s.ledger.movements, x);
  }

  lemma {:induction false} RecordRound(s: Receiving, lines: seq<Line>, n: nat, x: ItemId)
    requires Running(s, lines) && n <= |lines| && forall k :: 0 <= k < |lines| ==> s.tasks[k].HasWritten?
    ensures var r := Moves(s, lines, Round(n));
      && r.ledger.stock == s.ledger.stock
      && QuantitySum(Of(r.ledger.movements, x)) == QuantitySum(Of(s.ledger.movements, x)) + Bought(lines, n, x)
      && (forall k :: 0 <= k < n ==> r.tasks[k] == Done)
      && (forall k :: n <= k < |lines| ==> r.tasks[k] == s.tasks[k])
  {
    hide QuantitySum, Of, Move;
    if n > 0 {
      RoundMore(n);
      RecordRound(s, lines, n - 1, x);
      RecordOne(Moves(s, lines, Round(n - 1)), lines, n - 1, x);
    }
  }

  lemma {:induction false} BoughtAtLeast(lines: seq<Line>, n: nat, x: ItemId, k: nat)
    requires n <= |lines| && k < n && lines[k].item == x
    requires forall j :: 0 <= j < |lines| ==> lines[j].quantity > 0.0
    ensures Bought(lines, n, x) >= lines[k].quantity
  {
    if k < n - 1 {
      BoughtAtLeast(lines, n - 1, x, k);
    } else {
      BoughtNotNegative(lines, n - 1, x);
    }
  }

  lemma {:induction false} BoughtNotNegative(lines: seq<Line>, n: nat, x: ItemId)
    requires n <= |lines| && forall j :: 0 <= j < |lines| ==> lines[j].quantity > 0.0
    ensures Bought(lines, n, x) >= 0.0
  {
    if n > 0 {
      BoughtNotNegative(lines, n - 1, x);
    }
  }

  lemma {:induction false} BoughtTwice(lines: seq<Line>, n: nat, x: ItemId, j: nat, k: nat)
    requires n <= |lines| && j < k < n && lines[j].item == x && lines[k].item == x
    requires forall i :: 0 <= i < |lines| ==> lines[i].quantity > 0.0
    ensures Bought(lines, n, x) > lines[k].quantity
  {
    if k < n - 1 {
      BoughtTwice(lines, n - 1, x, j, k);
    } else {
      BoughtAtLeast(lines, n - 1, x, j);
    }
  }

  /** All lines have read, then all have written. */
  lemma AfterWrites(ledger: Ledger, lines: seq<Line>, k: nat) returns (written: Receiving)
    requires Known(ledger, lines) && k < |lines|
    requires forall j :: k < j < |lines| ==> lines[j].item != lines[k].item
    ensures Running(written, lines) && written == Moves(Begin(ledger, lines), lines, Round(|lines|) + Round(|lines|))
    ensures written.ledger.movements == ledger.movements
    ensures written.ledger.stock[lines[k].item] == ledger.stock[lines[k].item] + lines[k].quantity
    ensures forall j :: 0 <= j < |lines| ==> written.tasks[j].HasWritten?
  {
    var read := Moves(Begin(ledger, lines), lines, Round(|lines|));
    ReadRound(Begin(ledger, lines), lines, |lines|);
    WriteRound(ledger, read, lines, |lines|);
    MovesConcat(Begin(ledger, lines), lines, Round(|lines|), Round(|lines|));
    written := Moves(read, lines, Round(|lines|));
  }

  /** When every line reads first, an item bought twice gains only what its last line bought. */
  lemma ReadsFirstLoses(ledger: Ledger, lines: seq<Line>, k: nat)
    requires Known(ledger, lines) && k < |lines|
    requires forall j :: k < j < |lines| ==> lines[j].item != lines[k].item
    ensures var s := Moves(Begin(ledger, lines), lines, ReadsFirst(|lines|));
      var x := lines[k].item;
      && Finished(s)
      && s.ledger.stock[x] == ledger.stock[x] + lines[k].quantity
      && QuantitySum(Of(s.ledger.movements, x)) == QuantitySum(Of(ledger.movements, x)) + Bought(lines, |lines|, x)
  {
    hide Moves, Round, Of, QuantitySum, Bought;
    var written := AfterWrites(ledger, lines, k);
    RecordRound(written, lines, |lines|, lines[k].item);
    MovesConcat(Begin(ledger, lines), lines, Round(|lines|) + Round(|lines|), Round(|lines|));
  }

  /** The last line of an item. */
  lemma LastLine(lines: seq<Line>, k: nat) returns (l: nat)
    requires k < |lines|
    ensures k <= l < |lines| && lines[l].item == lines[k].item
    ensures forall j :: l < j < |lines| ==> lines[j].item != lines[k].item
    decreases |lines| - k
  {
    if j :| k < j < |lines| && lines[j].item == lines[k].item {
      l := LastLine(lines, j);
    } else {
      l := k;
    }
  }

  /** An item bought on two lines can lose a quantity: some interleaving leaves the ledger unexplained. */
  lemma RepeatedItemLosesUpdate(ledger: Ledger, opening: map<ItemId, real>, lines: seq<Line>)
    requires Consistent(ledger, opening) && Known(ledger, lines) && !DistinctItems(lines)
    requires forall k :: 0 <= k < |lines| ==> lines[k].quantity > 0.0
    ensures var s := Moves(Begin(ledger, lines), lines, ReadsFirst(|lines|));
      Finished(s) && !Consistent(s.ledger, opening)
  {
    var j, i :| 0 <= j < i < |lines| && lines[j].item == lines[i].item;
    var k := LastLine(lines, i);
    var x := lines[k].item;
    var s := Moves(Begin(ledger, lines), lines, ReadsFirst(|lines|));
    ReadsFirstLoses(ledger, lines, k);
    BoughtTwice(lines, |lines|, x, j, k);
    assert Explained(ledger, opening, x);
    ChainSums(opening[x], Of(ledger.movements, x));
    if Consistent(s.ledger, opening) {
      assert Explained(s.ledger, opening, x);
      ChainSums(opening[x], Of(s.ledger.movements, x));
    }
  }

  /** So a purchase is safe under every interleaving exactly when no item is on two of its lines. */
  lemma SafeExactlyWhenDistinct(ledger: Ledger, opening: map<ItemId, real>, lines: seq<Line>)
    requires Consistent(ledger, opening) && Known(ledger, lines)
    requires forall k :: 0 <= k < |lines| ==> lines[k].quantity > 0.0
    ensures DistinctItems(lines) <==>
            forall schedule :: Finished(Moves(Begin(ledger, lines), lines, schedule)) ==>
              Consistent(Moves(Begin(ledger, lines), lines, schedule).ledger, opening)
  {
    if DistinctItems(lines) {
      forall schedule | Finished(Moves(Begin(ledger, lines), lines, schedule))
        ensures Consistent(Moves(Begin(ledger, lines), lines, schedule).ledger, opening)
      {
        DistinctPurchaseKeeps(ledger, opening, lines, schedule);
      }
    } else {
      RepeatedItemLosesUpdate(ledger, opening, lines);
    }
  }

  // Whole runs

  datatype Operation =
    | Adjusting(product: Option<string>, ingredient: Option<string>, quantity: real)
    | Counting(counts: seq<CountLine>)
    | Purchasing(lines: seq<Line>, schedule: seq<nat>)

  /** What input validation and the callers guarantee: counts are not negative, purchases are positive, complete and distinct. */
  ghost predicate Sound(ledger: Ledger, op: Operation) {
    match op
    case Adjusting(_, _, _) => true
    case Counting(counts) => forall k :: 0 <= k < |counts| ==> counts[k].counted >= 0.0
    case Purchasing(lines, schedule) =>
      && DistinctItems(lines)
      && (forall k :: 0 <= k < |lines| ==> lines[k].quantity > 0.0)
      && (Known(ledger, lines) ==> Finished(Moves(Begin(ledger, lines), lines, schedule)))
  }

  function OrUnchanged(ledger: Ledger, result: Result<Ledger, StockError>): Ledger {
    if result.Success? then result.value else ledger
  }

  function Perform(ledger: Ledger, op: Operation): Ledger {
    match op
    case Adjusting(product, ingredient, quantity) => OrUnchanged(ledger, Adjust(ledger, product, ingredient, quantity))
    case Counting(counts) => OrUnchanged(ledger, Count(ledger, counts))
    case Purchasing(lines, schedule) =>
      var result := Receive(ledger, lines, schedule);
      if result.Success? then result.value.ledger else ledger
  }

  function PerformAll(ledger: Ledger, ops: seq<Operation>): Ledger {
    if |ops| == 0 then ledger else Perform(PerformAll(ledger, ops[..|ops| - 1]), ops[|ops| - 1])
  }

  /** A purchase fails exactly for an unknown item, and then nothing is kept; a committed one is paid with its subtotal. */
  lemma ReceiveMeans(ledger: Ledger, lines: seq<Line>, schedule: seq<nat>)
    ensures var r := Receive(ledger, lines, schedule);
      && (r.Success? <==> forall k :: 0 <= k < |lines| ==> lines[k].item in ledger.stock)
      && (r.Failure? ==> r.error == ItemNotFound)
      && (r.Success? && DistinctItems(lines) && Finished(Moves(Begin(ledger, lines), lines, schedule)) ==>
            && r.value.subtotal == Subtotal(lines)
            && r.value.ledger.stock.Keys == ledger.stock.Keys
            && (forall k :: 0 <= k < |lines| ==>
                  r.value.ledger.stock[lines[k].item] == ledger.stock[lines[k].item] + lines[k].quantity)
            && (forall x :: x in ledger.stock && (forall k :: 0 <= k < |lines| ==> lines[k].item != x) ==>
                  r.value.ledger.stock[x] == ledger.stock[x]))
  {
    if Known(ledger, lines) && DistinctItems(lines) && Finished(Moves(Begin(ledger, lines), lines, schedule)) {
      var s := Moves(Begin(ledger, lines), lines, schedule);
      MovesStaySeparate(ledger, lines, schedule);
      hide Moves, Begin, Of, DistinctItems;
      forall k | 0 <= k < |lines|
        ensures s.ledger.stock[lines[k].item] == ledger.stock[lines[k].item] + lines[k].quantity
      {
        assert OnItsOwn(ledger, s, lines[k], s.tasks[k]);
      }
    }
  }

  /** What one operation makes of each item's stock. */
  ghost predicate Changes(ledger: Ledger, op: Operation, after: Ledger) {
    after.stock.Keys == ledger.stock.Keys &&
    match op
    case Adjusting(product, ingredient, quantity) =>
      var target := Target(product, ingredient);
      if target.Some? && target.value in ledger.stock && ledger.stock[target.value] + quantity >= 0.0 then
        after.stock == ledger.stock[target.value := ledger.stock[target.value] + quantity]
      else after == ledger
    case Counting(counts) =>
      if counts != [] && forall k :: 0 <= k < |counts| ==> counts[k].item in ledger.stock then
        after.stock == SetAll(ledger.stock, counts)
      else after == ledger
    case Purchasing(lines, _) =>
      if forall k :: 0 <= k < |lines| ==> lines[k].item in ledger.stock then
        && (forall k :: 0 <= k < |lines| ==> after.stock[lines[k].item] == ledger.stock[lines[k].item] + lines[k].quantity)
        && (forall x :: x in ledger.stock && (forall k :: 0 <= k < |lines| ==> lines[k].item != x) ==>
              after.stock[x] == ledger.stock[x])
      else after == ledger
  }

  /** Each operation takes effect exactly when everything it names is known and no stock would turn negative by an adjustment. */
  lemma PerformChanges(ledger: Ledger, op: Operation)
    requires Sound(ledger, op)
    ensures Changes(ledger, op, Perform(ledger, op))
  {
    match op
    case Adjusting(product, ingredient, quantity) =>
    case Counting(counts) =>
      CountMeans(ledger, counts);
      CountLinesSucceed(ledger, counts);
      if Count(ledger, counts).Success? {
        CountSets(ledger, counts);
      }
    case Purchasing(lines, schedule) =>
      ReceiveMeans(ledger, lines, schedule);
  }

  lemma PerformKeeps(ledger: Ledger, opening: map<ItemId, real>, op: Operation)
    requires Consistent(ledger, opening) && Sound(ledger, op)
    ensures Consistent(Perform(ledger, op), opening)
  {
    match op
    case Adjusting(product, ingredient, quantity) =>
      if Adjust(ledger, product, ingredient, quantity).Success? {
        AdjustKeeps(ledger, opening, product, ingredient, quantity);
      }
    case Counting(counts) =>
      if Count(ledger, counts).Success? {
        CountKeeps(ledger, opening, counts);
      }
    case Purchasing(lines, schedule) =>
      if Known(ledger, lines) {
        DistinctPurchaseKeeps(ledger, opening, lines, schedule);
      }
  }

  /** Over any run, every item's stock is nonnegative, its balances chain, and the last balance is the stock. */
  lemma {:induction false} RunIsConsistent(stock: map<ItemId, real>, ops: seq<Operation>)
    requires forall x :: x in stock ==> stock[x] >= 0.0
    requires forall n :: 0 <= n < |ops| ==> Sound(PerformAll(Ledger(stock, []), ops[..n]), ops[n])
    ensures Consistent(PerformAll(Ledger(stock, []), ops), stock)
    ensures forall x :: x in PerformAll(Ledger(stock, []), ops).stock ==>
      x in stock &&
      PerformAll(Ledger(stock, []), ops).stock[x] == stock[x] + QuantitySum(Of(PerformAll(Ledger(stock, []), ops).movements, x))
  {
    var start := Ledger(stock, []);
    if |ops| > 0 {
      var n := |ops| - 1;
      forall m | 0 <= m < n
        ensures Sound(PerformAll(start, ops[..n][..m]), ops[..n][m])
      {
        assert ops[..n][..m] == ops[..m];
      }
      RunIsConsistent(stock, ops[..n]);
      PerformKeeps(PerformAll(start, ops[..n]), stock, ops[n]);
    }
    var end := PerformAll(start, ops);
    forall x | x in end.stock
      ensures end.stock[x] == stock[x] + QuantitySum(Of(end.movements, x))
    {
      assert Explained(end, stock, x);
      ChainSums(stock[x], Of(end.movements, x));
    }
  }
}
