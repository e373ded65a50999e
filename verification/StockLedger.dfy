/** Running stock balances, and the ledger of movements that must explain them. Quantities are exact decimals. */
module StockLedger {
  import opened Wrappers

  datatype ItemId = Product(productId: string) | Ingredient(ingredientId: string)

  datatype StockMovement = StockMovement(item: ItemId, quantity: real, balanceAfter: real)

  datatype Ledger = Ledger(stock: map<ItemId, real>, movements: seq<StockMovement>)

  datatype StockError = TargetMissing | TargetAmbiguous | ItemNotFound | NegativeStock | NoItems

  datatype CountLine = CountLine(item: ItemId, counted: real)

  /** The movements of one item, oldest first. */
  function Of(movements: seq<StockMovement>, item: ItemId): seq<StockMovement> {
    if |movements| == 0 then []
    else
      var last := movements[|movements| - 1];
      Of(movements[..|movements| - 1], item) + if last.item == item then [last] else []
  }

  /** Every balance is the previous balance plus the movement's quantity. */
  ghost predicate Chain(opening: real, ms: seq<StockMovement>) {
    forall k :: 0 <= k < |ms| ==> ms[k].balanceAfter == Closing(opening, ms[..k]) + ms[k].quantity
  }

  function Closing(opening: real, ms: seq<StockMovement>): real {
    if |ms| == 0 then opening else ms[|ms| - 1].balanceAfter
  }

  function QuantitySum(ms: seq<StockMovement>): real {
    if |ms| == 0 then 0.0 else QuantitySum(ms[..|ms| - 1]) + ms[|ms| - 1].quantity
  }

  /** One item's stock is not negative, its balances chain from the opening stock, and the last one is its stock. */
  ghost predicate Explained(ledger: Ledger, opening: map<ItemId, real>, item: ItemId)
    requires item in ledger.stock && item in opening
  {
    var ms := Of(ledger.movements, item);
    ledger.stock[item] >= 0.0 && Chain(opening[item], ms) && Closing(opening[item], ms) == ledger.stock[item]
  }

  ghost predicate Consistent(ledger: Ledger, opening: map<ItemId, real>) {
    ledger.stock.Keys == opening.Keys && forall item :: item in ledger.stock ==> Explained(ledger, opening, item)
  }

  lemma ChainPrefix(opening: real, ms: seq<StockMovement>)
    requires Chain(opening, ms) && |ms| > 0
    ensures Chain(opening, ms[..|ms| - 1])
  {
    var init := ms[..|ms| - 1];
    forall k | 0 <= k < |init|
      ensures init[k].balanceAfter == Closing(opening, init[..k]) + init[k].quantity
    {
      assert init[..k] == ms[..k];
    }
  }

  lemma ChainMore(opening: real, ms: seq<StockMovement>, m: StockMovement)
    requires Chain(opening, ms) && m.balanceAfter == Closing(opening, ms) + m.quantity
    ensures Chain(opening, ms + [m]) && Closing(opening, ms + [m]) == m.balanceAfter
  {
    var more := ms + [m];
    forall k | 0 <= k < |more|
      ensures more[k].balanceAfter == Closing(opening, more[..k]) + more[k].quantity
    {
      assert more[..k] == ms[..k];
      assert ms[..|ms|] == ms;
    }
  }

  /** Then the quantities sum to the net change of the stock. */
  lemma {:induction false} ChainSums(opening: real, ms: seq<StockMovement>)
    requires Chain(opening, ms)
    ensures Closing(opening, ms) == opening + QuantitySum(ms)
  {
    if |ms| > 0 {
      var init := ms[..|ms| - 1];
      ChainPrefix(opening, ms);
      ChainSums(opening, init);
    }
  }

  function Post(ledger: Ledger, item: ItemId, quantity: real, balance: real): Ledger {
    Ledger(ledger.stock[item := balance], ledger.movements + [StockMovement(item, quantity, balance)])
  }

  lemma OfMore(movements: seq<StockMovement>, m: StockMovement, item: ItemId)
    ensures Of(movements + [m], item) == Of(movements, item) + if m.item == item then [m] else []
  {
    assert (movements + [m])[..|movements|] == movements;
  }

  lemma PostExplains(ledger: Ledger, opening: map<ItemId, real>, item: ItemId, quantity: real, x: ItemId)
    requires item in ledger.stock && ledger.stock[item] + quantity >= 0.0
    requires x in ledger.stock && x in opening && Explained(ledger, opening, x)
    ensures Explained(Post(ledger, item, quantity, ledger.stock[item] + quantity), opening, x)
  {
    hide Chain, Closing, Of;
    var m := StockMovement(item, quantity, ledger.stock[item] + quantity);
    OfMore(ledger.movements, m, x);
    if x == item {
      ChainMore(opening[x], Of(ledger.movements, x), m);
    } else {
      assert Of(ledger.movements, x) + [] == Of(ledger.movements, x);
    }
  }

  /** Posting one movement whose balance follows from the stock keeps the ledger consistent. */
  lemma PostKeeps(ledger: Ledger, opening: map<ItemId, real>, item: ItemId, quantity: real)
    requires Consistent(ledger, opening) && item in ledger.stock && ledger.stock[item] + quantity >= 0.0
    ensures Consistent(Post(ledger, item, quantity, ledger.stock[item] + quantity), opening)
  {
    hide Explained;
    var after := Post(ledger, item, quantity, ledger.stock[item] + quantity);
    forall x | x in after.stock
      ensures Explained(after, opening, x)
    {
      PostExplains(ledger, opening, item, quantity, x);
    }
  }

  // Adjustments

  /** The one item a request names. */
  function Target(product: Option<string>, ingredient: Option<string>): Option<ItemId> {
    match (product, ingredient)
    case (Some(id), None) => Some(Product(id))
    case (None, Some(id)) => Some(Ingredient(id))
    case _ => None
  }

  function Adjust(ledger: Ledger, product: Option<string>, ingredient: Option<string>, quantity: real): Result<Ledger, StockError> {
    if product.None? && ingredient.None? then Failure(TargetMissing)
    else if product.Some? && ingredient.Some? then Failure(TargetAmbiguous)
    else
      var item := if product.Some? then Product(product.value) else Ingredient(ingredient.value);
      if item !in ledger.stock then Failure(ItemNotFound)
      else if ledger.stock[item] + quantity < 0.0 then Failure(NegativeStock)
      else Success(Post(ledger, item, quantity, ledger.stock[item] + quantity))
  }

  lemma AdjustKeeps(ledger: Ledger, opening: map<ItemId, real>, product: Option<string>, ingredient: Option<string>, quantity: real)
    requires Consistent(ledger, opening) && Adjust(ledger, product, ingredient, quantity).Success?
    ensures Consistent(Adjust(ledger, product, ingredient, quantity).value, opening)
  {
    hide Consistent;
    PostKeeps(ledger, opening, if product.Some? then Product(product.value) else Ingredient(ingredient.value), quantity);
  }

  // Physical counts

  function CountOne(ledger: Ledger, line: CountLine): Ledger
    requires line.item in ledger.stock
  {
    var difference := line.counted - ledger.stock[line.item];
    if difference == 0.0 then ledger else Post(ledger, line.item, difference, line.counted)
  }

  /** All lines in order, or none. */
  function CountLines(ledger: Ledger, lines: seq<CountLine>): Result<Ledger, StockError> {
    if |lines| == 0 then Success(ledger)
    else
      match CountLines(ledger, lines[..|lines| - 1])
      case Failure(error) => Failure(error)
      case Success(before) =>
        if lines[|lines| - 1].item !in before.stock then Failure(ItemNotFound) else Success(CountOne(before, lines[|lines| - 1]))
  }

  function Count(ledger: Ledger, lines: seq<CountLine>): Result<Ledger, StockError> {
    if |lines| == 0 then Failure(NoItems) else CountLines(ledger, lines)
  }

  lemma CountOneKeeps(ledger: Ledger, opening: map<ItemId, real>, line: CountLine)
    requires Consistent(ledger, opening) && line.item in ledger.stock && line.counted >= 0.0
    ensures Consistent(CountOne(ledger, line), opening)
    ensures CountOne(ledger, line).stock == ledger.stock[line.item := line.counted]
  {
    hide Consistent;
    PostKeeps(ledger, opening, line.item, line.counted - ledger.stock[line.item]);
    assert ledger.stock[line.item] + (line.counted - ledger.stock[line.item]) == line.counted;
  }

  lemma {:induction false} CountKeeps(ledger: Ledger, opening: map<ItemId, real>, lines: seq<CountLine>)
    requires Consistent(ledger, opening) && CountLines(ledger, lines).Success?
    requires forall k :: 0 <= k < |lines| ==> lines[k].counted >= 0.0
    ensures Consistent(CountLines(ledger, lines).value, opening)
  {
    hide Consistent, CountOne;
    if |lines| > 0 {
      var n := |lines| - 1;
      CountKeeps(ledger, opening, lines[..n]);
      CountOneKeeps(CountLines(ledger, lines[..n]).value, opening, lines[n]);
    }
  }

  /** A count leaves each counted item at the last figure counted for it, and every other item alone. */
  lemma {:induction false} CountSets(ledger: Ledger, lines: seq<CountLine>)
    requires CountLines(ledger, lines).Success?
    ensures CountLines(ledger, lines).value.stock == SetAll(ledger.stock, lines)
  {
    if |lines| > 0 {
      CountSets(ledger, lines[..|lines| - 1]);
    }
  }

  function SetAll(stock: map<ItemId, real>, lines: seq<CountLine>): map<ItemId, real> {
    if |lines| == 0 then stock else SetAll(stock, lines[..|lines| - 1])[lines[|lines| - 1].item := lines[|lines| - 1].counted]
  }

  /** An item holds the figure of its last line, and an item on no line is left alone. */
  lemma {:induction false} LastFigure(stock: map<ItemId, real>, lines: seq<CountLine>, x: ItemId)
    ensures SetAll(stock, lines).Keys == stock.Keys + set k | 0 <= k < |lines| :: lines[k].item
    ensures forall k :: 0 <= k < |lines| && lines[k].item == x && (forall j :: k < j < |lines| ==> lines[j].item != x) ==>
      SetAll(stock, lines)[x] == lines[k].counted
    ensures x in stock && (forall k :: 0 <= k < |lines| ==> lines[k].item != x) ==> SetAll(stock, lines)[x] == stock[x]
  {
    if |lines| > 0 {
      var n := |lines| - 1;
      LastFigure(stock, lines[..n], x);
      assert (set k | 0 <= k < |lines| :: lines[k].item) == (set k | 0 <= k < n :: lines[..n][k].item) + {lines[n].item};
    }
  }

  lemma {:induction false} CountLinesSucceed(ledger: Ledger, lines: seq<CountLine>)
    ensures CountLines(ledger, lines).Success? <==> forall k :: 0 <= k < |lines| ==> lines[k].item in ledger.stock
    ensures CountLines(ledger, lines).Failure? ==> CountLines(ledger, lines).error == ItemNotFound
    ensures CountLines(ledger, lines).Success? ==>
      var after := CountLines(ledger, lines).value;
      && after.stock.Keys == ledger.stock.Keys
      && ledger.movements <= after.movements
      && (forall k :: |ledger.movements| <= k < |after.movements| ==> after.movements[k].quantity != 0.0)
  {
    if |lines| > 0 {
      var n := |lines| - 1;
      CountLinesSucceed(ledger, lines[..n]);
      assert forall k :: 0 <= k < n ==> lines[..n][k] == lines[k];
    }
  }

  /** A count fails exactly for no lines or for an unknown item; a figure that confirms the stock leaves no movement. */
  lemma CountMeans(ledger: Ledger, lines: seq<CountLine>)
    ensures var r := Count(ledger, lines);
      && (r == Failure(NoItems) <==> lines == [])
      && (r == Failure(ItemNotFound) <==> exists k :: 0 <= k < |lines| && lines[k].item !in ledger.stock)
      && (r.Success? <==> lines != [] && forall k :: 0 <= k < |lines| ==> lines[k].item in ledger.stock)
      && (r.Success? ==> ledger.movements <= r.value.movements)
      && (r.Success? ==> forall k :: |ledger.movements| <= k < |r.value.movements| ==> r.value.movements[k].quantity != 0.0)
  {
    CountLinesSucceed(ledger, lines);
  }

  class Inventory {
    var stock: map<ItemId, real>
    var movements: seq<StockMovement>
    /** The stock the ledger started from. */
    ghost const opening: map<ItemId, real>

    ghost predicate Valid()
      reads this
    {
      Consistent(State(), opening)
    }

    ghost function State(): Ledger
      reads this
    {
      Ledger(stock, movements)
    }

    constructor (stock: map<ItemId, real>)
      requires forall x :: x in stock ==> stock[x] >= 0.0
      ensures Valid() && State() == Ledger(stock, []) && opening == stock
    {
      this.stock, movements := stock, [];
      opening := stock;
    }

    method CreateAdjustment(product: Option<string>, ingredient: Option<string>, quantity: real)
      returns (error: Option<StockError>)
      requires Valid()
      modifies this
      ensures Valid()
      ensures error.None? <==>
        var target := Target(product, ingredient);
        target.Some? && target.value in old(stock) && old(stock)[target.value] + quantity >= 0.0
      ensures error.None? ==>
        var item := Target(product, ingredient).value;
        && item in old(stock) && stock == old(stock)[item := old(stock)[item] + quantity] && stock[item] >= 0.0
        && movements == old(movements) + [StockMovement(item, quantity, stock[item])]
      ensures match Adjust(old(State()), product, ingredient, quantity)
        case Success(after) => error.None? && State() == after
        case Failure(reason) => error == Some(reason) && State() == old(State())
    {
      hide Consistent;
      if Adjust(State(), product, ingredient, quantity).Success? {
        AdjustKeeps(State(), opening, product, ingredient, quantity);
      }
      if product.None? && ingredient.None? {
        return Some(TargetMissing);
      }
      if product.Some? && ingredient.Some? {
        return Some(TargetAmbiguous);
      }
      var item := if product.Some? then Product(product.value) else Ingredient(ingredient.value);
      if item !in stock {
        return Some(ItemNotFound);
      }
      var nextStock := stock[item] + quantity;
      if nextStock < 0.0 {
        return Some(NegativeStock);
      }
      stock := stock[item := nextStock];
      movements := movements + [StockMovement(item, quantity, nextStock)];
      return None;
    }

    /** The whole count is one transaction: an unknown item undoes the lines before it. */
    method CreateStockCount(lines: seq<CountLine>) returns (error: Option<StockError>)
      requires Valid()
      modifies this
      ensures (forall k :: 0 <= k < |lines| ==> lines[k].counted >= 0.0) ==> Valid()
      ensures error.None? <==> lines != [] && forall k :: 0 <= k < |lines| ==> lines[k].item in old(stock)
      ensures error == (if lines == [] then Some(NoItems) else if error.Some? then Some(ItemNotFound) else None)
      ensures error.None? ==> stock == SetAll(old(stock), lines)
      ensures match Count(old(State()), lines)
        case Success(after) => error.None? && State() == after
        case Failure(reason) => error == Some(reason) && State() == old(State())
    {
      hide Consistent;
      CountMeans(State(), lines);
      if CountLines(State(), lines).Success? {
        CountSets(State(), lines);
        if forall k :: 0 <= k < |lines| ==> lines[k].counted >= 0.0 {
          CountKeeps(State(), opening, lines);
        }
      }
      if |lines| == 0 {
        return Some(NoItems);
      }
      var savedStock, savedMovements := stock, movements;
      for n := 0 to |lines|
        invariant CountLines(old(State()), lines[..n]) == Success(State())
      {
        var line := lines[n];
        assert lines[..n + 1][..n] == lines[..n];
        if line.item !in stock {
          StaysFailed(old(State()), lines, n + 1);
          stock, movements := savedStock, savedMovements;
          return Some(ItemNotFound);
        }
        var difference := line.counted - stock[line.item];
        if difference != 0.0 {
          stock := stock[line.item := line.counted];
          movements := movements + [StockMovement(line.item, difference, line.counted)];
        }
      }
      assert lines[..|lines|] == lines;
      return None;
    }
  }

  lemma {:induction false} StaysFailed(ledger: Ledger, lines: seq<CountLine>, n: nat)
    requires n <= |lines| && CountLines(ledger, lines[..n]).Failure?
    ensures CountLines(ledger, lines) == CountLines(ledger, lines[..n])
    decreases |lines|
  {
    if n < |lines| {
      assert lines[..|lines| - 1][..n] == lines[..n];
      StaysFailed(ledger, lines[..|lines| - 1], n);
    } else {
      assert lines[..n] == lines;
    }
  }
}
