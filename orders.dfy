/**
 * Orders and the per-item folds behind the sale and quote workflows: each
 * item is prepared (product, options, group counts), stock-checked for a
 * sale, priced, and appended to the snapshot of order items.
 */
module Orders {
  import opened Wrappers
  import opened Errors
  import opened Catalog
  import opened PriceCalculator
  import opened OptionSelection

  datatype OrderType = QuoteOrder | SaleOrder

  datatype OrderStatus = Pending | Paid | Canceled | Shipped | Delivered

  datatype PaymentStatus = Unpaid | PartiallyPaid | PaymentPaid | Refunded | PaymentCanceled

  /** The frozen snapshot of a priced line stored with an order. */
  datatype OrderItem = OrderItem(
    productId: string,
    name: string,
    priceCents: int,
    quantity: int,
    width: Option<int>,
    height: Option<int>,
    optionIds: seq<string>)

  /**
   * An order row with its items. The money columns a conversion does not
   * write are None (the column default).
   */
  datatype Order = Order(
    id: string,
    userId: string,
    code: string,
    orderType: OrderType,
    status: OrderStatus,
    paymentStatus: PaymentStatus,
    notes: Option<string>,
    internalNotes: Option<string>,
    subtotalCents: Option<int>,
    discountCents: Option<int>,
    shippingCents: Option<int>,
    taxCents: Option<int>,
    totalCents: int,
    sourceQuoteId: Option<string>,
    items: seq<OrderItem>)

  /** What the request schemas admit for one item: quantity 1..999, positive dimensions when given. */
  predicate ValidItemInput(item: ItemInput) {
    && 1 <= item.quantity <= 999
    && (item.width.Some? ==> item.width.value > 0)
    && (item.height.Some? ==> item.height.value > 0)
  }

  predicate ValidItems(items: seq<ItemInput>) {
    |items| >= 1 && forall i :: 0 <= i < |items| ==> ValidItemInput(items[i])
  }

  /** The product table is keyed by product id. */
  predicate KeyedById(products: map<string, Product>) {
    forall k :: k in products ==> products[k].id == k
  }

  /** `Math.max(0, subtotal - discount + shipping + tax)` */
  function OrderTotal(subtotal: int, discount: int, shipping: int, tax: int): (t: int)
    ensures t >= 0
    ensures t >= subtotal - discount + shipping + tax
    ensures t == 0 || t == subtotal - discount + shipping + tax
  {
    var raw := subtotal - discount + shipping + tax;
    if raw > 0 then raw else 0
  }

  /** The snapshot row pushed for a priced item. */
  function SnapshotItem(p: Product, item: ItemInput, price: PriceResult): OrderItem {
    OrderItem(p.id, p.name, price.unitPriceCents, item.quantity, item.width, item.height, RequestedIds(item))
  }

  /** The snapshot row records the request: product, quantity, dimensions and option ids as sent. */
  predicate Records(row: OrderItem, item: ItemInput) {
    && row.productId == item.productId
    && row.quantity == item.quantity
    && row.width == item.width
    && row.height == item.height
    && row.optionIds == RequestedIds(item)
  }

  /** What `calculateItemPrice` gives an item of product `p`, with the options it requests resolved. */
  function ItemPrice(p: Product, item: ItemInput): Result<PriceResult, Error> {
    CalculateItemPrice(p, ResolveOptions(AllOptions(p.optionGroups), RequestedIds(item)), item.width, item.height, item.quantity)
  }

  /**
   * A row and its line total are what pricing gives the item: the product's
   * name, `unitPriceCents` as the row price and `lineTotalCents` as the line.
   */
  predicate Priced(products: map<string, Product>, item: ItemInput, lineTotal: int, row: OrderItem) {
    && item.productId in products
    && ItemPrice(products[item.productId], item).Ok?
    && row.name == products[item.productId].name
    && row.priceCents == ItemPrice(products[item.productId], item).value.unitPriceCents
    && lineTotal == ItemPrice(products[item.productId], item).value.lineTotalCents
  }

  /** A stored row is the snapshot of its item: the request as sent, named and priced from the product. */
  predicate Snapshot(products: map<string, Product>, item: ItemInput, row: OrderItem) {
    Records(row, item) && Priced(products, item, row.priceCents * row.quantity, row)
  }

  /** The line total pricing gives an item (0 for one that does not price). */
  function LineTotalOf(products: map<string, Product>, item: ItemInput): int {
    if item.productId in products && ItemPrice(products[item.productId], item).Ok? then
      ItemPrice(products[item.productId], item).value.lineTotalCents
    else 0
  }

  /** Σ of the line totals pricing gives the items. */
  function PricedTotal(products: map<string, Product>, items: seq<ItemInput>): int {
    if items == [] then 0 else LineTotalOf(products, items[0]) + PricedTotal(products, items[1..])
  }

  /** The product has a stock row holding less than the item's quantity. */
  predicate StockShort(checked: map<string, int>, item: ItemInput) {
    item.productId in checked && checked[item.productId] < item.quantity
  }

  /** Σ priceCents × quantity over snapshot rows. */
  function LineSum(rows: seq<OrderItem>): int {
    if rows == [] then 0 else rows[0].priceCents * rows[0].quantity + LineSum(rows[1..])
  }

  /** Σ quantity over the requested items for one product. */
  function QuantityFor(items: seq<ItemInput>, productId: string): int {
    if items == [] then 0
    else (if items[0].productId == productId then items[0].quantity else 0) + QuantityFor(items[1..], productId)
  }

  datatype Step = Step(stock: map<string, int>, lineTotal: int, row: OrderItem)

  /**
   * One iteration of the sale loop: prepare the item, check the product's
   * stock row (if it has one) against `checked`, decrement `running`, price
   * the item. The source checks against the quantities loaded before the
   * loop; the model's sale checks against the running quantities (see the
   * findings).
   */
  function SaleStep(products: map<string, Product>, checked: map<string, int>, running: map<string, int>, item: ItemInput)
    : (r: Result<Step, Error>)
    requires KeyedById(products)
    ensures r.Ok? ==> r.value.stock.Keys == running.Keys
    ensures r.Ok? ==> forall k :: k in running ==>
      r.value.stock[k] == running[k] - (if k == item.productId then item.quantity else 0)
    ensures r.Ok? ==> Records(r.value.row, item) && r.value.lineTotal == r.value.row.priceCents * r.value.row.quantity
    ensures r.Ok? && item.productId in checked ==> checked[item.productId] >= item.quantity
    ensures r.Ok? ==> Priced(products, item, r.value.lineTotal, r.value.row)
    ensures PrepareItem(products, item).Err? ==> r == Err(PrepareItem(products, item).error)
    ensures PrepareItem(products, item).Ok? && StockShort(checked, item) ==> r == Err(BadRequestError(InsufficientStock))
    ensures PrepareItem(products, item).Ok? && !StockShort(checked, item) && ItemPrice(products[item.productId], item).Err? ==>
      r == Err(ItemPrice(products[item.productId], item).error)
    ensures r.Ok? <==>
      PrepareItem(products, item).Ok? && !StockShort(checked, item) && ItemPrice(products[item.productId], item).Ok?
  {
    var (p, selected) :- PrepareItem(products, item);
    if p.id in checked && checked[p.id] < item.quantity then Err(BadRequestError(InsufficientStock))
    else
      var stock := if p.id in running then running[p.id := running[p.id] - item.quantity] else running;
      var price :- CalculateItemPrice(p, selected, item.width, item.height, item.quantity);
      Ok(Step(stock, price.lineTotalCents, SnapshotItem(p, item, price)))
  }

  /** One iteration of the quote loop: the same preparation and pricing, no stock. */
  function QuoteStep(products: map<string, Product>, item: ItemInput): (r: Result<(int, OrderItem), Error>)
    requires KeyedById(products)
    ensures r.Ok? ==> Records(r.value.1, item) && r.value.0 == r.value.1.priceCents * r.value.1.quantity
    ensures r.Ok? ==> Priced(products, item, r.value.0, r.value.1)
    ensures PrepareItem(products, item).Err? ==> r == Err(PrepareItem(products, item).error)
    ensures PrepareItem(products, item).Ok? && ItemPrice(products[item.productId], item).Err? ==>
      r == Err(ItemPrice(products[item.productId], item).error)
    ensures r.Ok? <==> PrepareItem(products, item).Ok? && ItemPrice(products[item.productId], item).Ok?
  {
    var (p, selected) :- PrepareItem(products, item);
    var price :- CalculateItemPrice(p, selected, item.width, item.height, item.quantity);
    Ok((price.lineTotalCents, SnapshotItem(p, item, price)))
  }

  // ---------------------------------------------------------------------
  // The item loops, over any per-item turn
  // ---------------------------------------------------------------------

  /** What one turn of a sale loop does with the running stock and an item. */
  type SaleTurn = (map<string, int>, ItemInput) -> Result<Step, Error>

  /** What one turn of a quote loop does with an item. */
  type QuoteTurn = ItemInput -> Result<(int, OrderItem), Error>

  /** A property a stored row has with respect to the item it was made from. */
  type RowFits = (ItemInput, OrderItem) -> bool

  datatype Draft = Draft(stock: map<string, int>, subtotal: int, rows: seq<OrderItem>)

  /**
   * A sale loop over the remaining `items`, from the running stock, subtotal
   * and rows; the first failing item aborts the whole loop.
   */
  function Fold(turn: SaleTurn, stock: map<string, int>, subtotal: int, rows: seq<OrderItem>, items: seq<ItemInput>)
    : (r: Result<Draft, Error>)
    ensures r.Ok? ==> |r.value.rows| == |rows| + |items| && r.value.rows[..|rows|] == rows
    ensures r.Err? ==> exists s, i :: 0 <= i < |items| && turn(s, items[i]) == Err(r.error)
    decreases |items|
  {
    if items == [] then Ok(Draft(stock, subtotal, rows))
    else
      match turn(stock, items[0])
      case Err(e) => Err(e)
      case Ok(step) =>
        var r := Fold(turn, step.stock, subtotal + step.lineTotal, rows + [step.row], items[1..]);
        assert r.Ok? ==> r.value.rows[..|rows|] == (rows + [step.row])[..|rows|];
        assert r.Err? ==> exists s, i :: 1 <= i < |items| && turn(s, items[i]) == Err(r.error) by {
          if r.Err? {
            var s, i :| 0 <= i < |items[1..]| && turn(s, items[1..][i]) == Err(r.error);
            assert items[1..][i] == items[i + 1];
          }
        }
        r
  }

  /** A quote loop: the same fold without stock. */
  function QuoteFold(turn: QuoteTurn, subtotal: int, rows: seq<OrderItem>, items: seq<ItemInput>)
    : (r: Result<(int, seq<OrderItem>), Error>)
    ensures r.Ok? ==> |r.value.1| == |rows| + |items| && r.value.1[..|rows|] == rows
    ensures r.Err? ==> exists i :: 0 <= i < |items| && turn(items[i]) == Err(r.error)
    decreases |items|
  {
    if items == [] then Ok((subtotal, rows))
    else
      match turn(items[0])
      case Err(e) => Err(e)
      case Ok(step) =>
        var r := QuoteFold(turn, subtotal + step.0, rows + [step.1], items[1..]);
        assert r.Ok? ==> r.value.1[..|rows|] == (rows + [step.1])[..|rows|];
        assert r.Err? ==> exists i :: 1 <= i < |items| && turn(items[i]) == Err(r.error) by {
          if r.Err? {
            var i :| 0 <= i < |items[1..]| && turn(items[1..][i]) == Err(r.error);
            assert items[1..][i] == items[i + 1];
          }
        }
        r
  }

  /**
   * Every successful turn gives a row that `fits` the item it was given, and
   * a line total equal to the row's unit price × quantity.
   */
  ghost predicate TurnRecords(turn: SaleTurn, fits: RowFits) {
    forall s, item :: turn(s, item).Ok? ==>
      && fits(item, turn(s, item).value.row)
      && turn(s, item).value.lineTotal == turn(s, item).value.row.priceCents * turn(s, item).value.row.quantity
  }

  ghost predicate QuoteTurnRecords(turn: QuoteTurn, fits: RowFits) {
    forall item :: turn(item).Ok? ==>
      && fits(item, turn(item).value.1)
      && turn(item).value.0 == turn(item).value.1.priceCents * turn(item).value.1.quantity
  }

  /** Every successful turn keeps the stock rows and lowers the item's product's row by the item's quantity. */
  ghost predicate TurnAccounts(turn: SaleTurn) {
    forall s, item :: turn(s, item).Ok? ==>
      && turn(s, item).value.stock.Keys == s.Keys
      && forall k :: k in s ==> turn(s, item).value.stock[k] == s[k] - (if k == item.productId then item.quantity else 0)
  }

  /** Every successful turn had at least the item's quantity in its product's stock row, if it has one. */
  ghost predicate TurnChecks(turn: SaleTurn) {
    forall s, item :: turn(s, item).Ok? && item.productId in s ==> s[item.productId] >= item.quantity
  }

  /**
   * A successful sale loop keeps the rows it started from, adds one row per
   * item, in order, each fitting its item as every turn's row does, and adds
   * their line totals to the subtotal.
   */
  lemma {:induction false} FoldRecordsItems(
    turn: SaleTurn, fits: RowFits, stock: map<string, int>, subtotal: int, rows: seq<OrderItem>, items: seq<ItemInput>)
    requires TurnRecords(turn, fits)
    ensures var r := Fold(turn, stock, subtotal, rows, items);
      r.Ok? ==>
        && |r.value.rows| == |rows| + |items| && r.value.rows[..|rows|] == rows
        && (forall i :: 0 <= i < |items| ==> fits(items[i], r.value.rows[|rows| + i]))
        && r.value.subtotal == subtotal + LineSum(r.value.rows[|rows|..])
    decreases |items|
  {
    var r := Fold(turn, stock, subtotal, rows, items);
    if items != [] && r.Ok? {
      var step := turn(stock, items[0]).value;
      var rs := rows + [step.row];
      FoldRecordsItems(turn, fits, step.stock, subtotal + step.lineTotal, rs, items[1..]);
      assert r.value.rows[..|rs|][..|rows|] == r.value.rows[..|rows|];
      assert r.value.rows[|rows|..][1..] == r.value.rows[|rows| + 1..];
      assert r.value.rows[|rows|] == rs[|rows|];
      forall i | 0 <= i < |items| ensures fits(items[i], r.value.rows[|rows| + i]) {
        if i > 0 {
          assert items[i] == items[1..][i - 1];
        }
      }
    }
  }

  /** A successful quote loop adds one row per item, in order, each fitting its item, and sums their line totals. */
  lemma {:induction false} QuoteFoldRecordsItems(
    turn: QuoteTurn, fits: RowFits, subtotal: int, rows: seq<OrderItem>, items: seq<ItemInput>)
    requires QuoteTurnRecords(turn, fits)
    ensures var r := QuoteFold(turn, subtotal, rows, items);
      r.Ok? ==>
        && |r.value.1| == |rows| + |items| && r.value.1[..|rows|] == rows
        && (forall i :: 0 <= i < |items| ==> fits(items[i], r.value.1[|rows| + i]))
        && r.value.0 == subtotal + LineSum(r.value.1[|rows|..])
    decreases |items|
  {
    var r := QuoteFold(turn, subtotal, rows, items);
    if items != [] && r.Ok? {
      var step := turn(items[0]).value;
      var rs := rows + [step.1];
      QuoteFoldRecordsItems(turn, fits, subtotal + step.0, rs, items[1..]);
      assert r.value.1[..|rs|][..|rows|] == r.value.1[..|rows|];
      assert r.value.1[|rows|..][1..] == r.value.1[|rows| + 1..];
      assert r.value.1[|rows|] == rs[|rows|];
      forall i | 0 <= i < |items| ensures fits(items[i], r.value.1[|rows| + i]) {
        if i > 0 {
          assert items[i] == items[1..][i - 1];
        }
      }
    }
  }

  /** A non-empty prefix whose first turn succeeds runs on from that turn's state over the rest of the prefix. */
  lemma FoldPrefixStep(turn: SaleTurn, stock: map<string, int>, subtotal: int, rows: seq<OrderItem>, items: seq<ItemInput>, n: nat)
    requires 0 < n <= |items| && turn(stock, items[0]).Ok?
    ensures var step := turn(stock, items[0]).value;
      Fold(turn, stock, subtotal, rows, items[..n])
        == Fold(turn, step.stock, subtotal + step.lineTotal, rows + [step.row], items[1..][..n - 1])
  {
    assert items[..n][0] == items[0];
    assert items[..n][1..] == items[1..][..n - 1];
  }

  /**
   * A failed sale loop stops at its first failing item: the items before it
   * all succeed, and its turn, from the stock they leave, gives the error.
   */
  lemma {:induction false} FoldFailsAtFirst(
    turn: SaleTurn, stock: map<string, int>, subtotal: int, rows: seq<OrderItem>, items: seq<ItemInput>)
    ensures var r := Fold(turn, stock, subtotal, rows, items);
      r.Err? ==>
        exists i ::
          && 0 <= i < |items|
          && Fold(turn, stock, subtotal, rows, items[..i]).Ok?
          && turn(Fold(turn, stock, subtotal, rows, items[..i]).value.stock, items[i]) == Err(r.error)
    decreases |items|
  {
    var r := Fold(turn, stock, subtotal, rows, items);
    if items != [] && r.Err? {
      if turn(stock, items[0]).Err? {
        assert items[..0] == [];
        assert Fold(turn, stock, subtotal, rows, items[..0]) == Ok(Draft(stock, subtotal, rows));
      } else {
        var step := turn(stock, items[0]).value;
        var sub, rs := subtotal + step.lineTotal, rows + [step.row];
        FoldFailsAtFirst(turn, step.stock, sub, rs, items[1..]);
        var j :| 0 <= j < |items[1..]|
          && Fold(turn, step.stock, sub, rs, items[1..][..j]).Ok?
          && turn(Fold(turn, step.stock, sub, rs, items[1..][..j]).value.stock, items[1..][j]) == Err(r.error);
        FoldPrefixStep(turn, stock, subtotal, rows, items, j + 1);
        assert items[j + 1] == items[1..][j];
        var before := Fold(turn, stock, subtotal, rows, items[..j + 1]);
        assert before.Ok? && turn(before.value.stock, items[j + 1]) == Err(r.error);
      }
    }
  }

  /** A successful sale loop had every item succeed, each from the stock the items before it left. */
  lemma {:induction false} FoldSucceedsAtEach(
    turn: SaleTurn, stock: map<string, int>, subtotal: int, rows: seq<OrderItem>, items: seq<ItemInput>)
    ensures Fold(turn, stock, subtotal, rows, items).Ok? ==> forall i :: 0 <= i < |items| ==>
      && Fold(turn, stock, subtotal, rows, items[..i]).Ok?
      && turn(Fold(turn, stock, subtotal, rows, items[..i]).value.stock, items[i]).Ok?
    decreases |items|
  {
    if items != [] && Fold(turn, stock, subtotal, rows, items).Ok? {
      var step := turn(stock, items[0]).value;
      var sub, rs := subtotal + step.lineTotal, rows + [step.row];
      FoldSucceedsAtEach(turn, step.stock, sub, rs, items[1..]);
      forall i | 0 <= i < |items|
        ensures Fold(turn, stock, subtotal, rows, items[..i]).Ok?
        ensures turn(Fold(turn, stock, subtotal, rows, items[..i]).value.stock, items[i]).Ok?
      {
        if i == 0 {
          assert items[..0] == [];
        } else {
          FoldPrefixStep(turn, stock, subtotal, rows, items, i);
          assert items[i] == items[1..][i - 1];
        }
      }
    }
  }

  /**
   * A quote loop succeeds exactly when every item's turn does; a failure
   * carries the error of the first failing item.
   */
  lemma {:induction false} QuoteFoldChecksEachItem(
    turn: QuoteTurn, subtotal: int, rows: seq<OrderItem>, items: seq<ItemInput>)
    ensures var r := QuoteFold(turn, subtotal, rows, items);
      && (r.Ok? <==> forall i :: 0 <= i < |items| ==> turn(items[i]).Ok?)
      && (r.Err? ==>
            exists i ::
              && 0 <= i < |items|
              && (forall j :: 0 <= j < i ==> turn(items[j]).Ok?)
              && turn(items[i]) == Err(r.error))
    decreases |items|
  {
    if items != [] && turn(items[0]).Ok? {
      var step := turn(items[0]).value;
      QuoteFoldChecksEachItem(turn, subtotal + step.0, rows + [step.1], items[1..]);
      assert forall i :: 1 <= i < |items| ==> items[i] == items[1..][i - 1];
      var r := QuoteFold(turn, subtotal, rows, items);
      if r.Err? {
        var i :| 0 <= i < |items[1..]|
          && (forall j :: 0 <= j < i ==> turn(items[1..][j]).Ok?)
          && turn(items[1..][i]) == Err(r.error);
        assert turn(items[i + 1]) == Err(r.error);
        assert forall j :: 0 <= j < i + 1 ==> turn(items[j]).Ok?;
      }
    }
  }

  /** The stock rows once the first `i` items of a sale have taken their quantities. */
  function StockBefore(stock: map<string, int>, items: seq<ItemInput>, i: nat): map<string, int>
    requires i <= |items|
  {
    map k | k in stock :: stock[k] - QuantityFor(items[..i], k)
  }

  /** After a successful prefix of a sale loop whose turns account for stock, the running stock is `StockBefore`. */
  lemma PrefixStock(turn: SaleTurn, stock: map<string, int>, subtotal: int, rows: seq<OrderItem>, items: seq<ItemInput>, i: nat)
    requires TurnAccounts(turn) && i <= |items|
    requires Fold(turn, stock, subtotal, rows, items[..i]).Ok?
    ensures Fold(turn, stock, subtotal, rows, items[..i]).value.stock == StockBefore(stock, items, i)
  {
    FoldStockAccounting(turn, stock, subtotal, rows, items[..i]);
  }

  /**
   * A sale loop whose turns account for stock succeeds exactly when every
   * item's turn passes from the stock the items before it leave; a failure
   * carries the error of the first item whose turn fails.
   */
  lemma FoldChecksEachItem(turn: SaleTurn, stock: map<string, int>, subtotal: int, rows: seq<OrderItem>, items: seq<ItemInput>)
    requires TurnAccounts(turn)
    ensures var r := Fold(turn, stock, subtotal, rows, items);
      && (r.Ok? <==> forall i :: 0 <= i < |items| ==> turn(StockBefore(stock, items, i), items[i]).Ok?)
      && (r.Err? ==>
            exists i ::
              && 0 <= i < |items|
              && (forall j :: 0 <= j < i ==> turn(StockBefore(stock, items, j), items[j]).Ok?)
              && turn(StockBefore(stock, items, i), items[i]) == Err(r.error))
  {
    var r := Fold(turn, stock, subtotal, rows, items);
    FoldFailsAtFirst(turn, stock, subtotal, rows, items);
    FoldSucceedsAtEach(turn, stock, subtotal, rows, items);
    if r.Ok? {
      forall i | 0 <= i < |items| ensures turn(StockBefore(stock, items, i), items[i]).Ok? {
        PrefixStock(turn, stock, subtotal, rows, items, i);
      }
    } else {
      var i :| 0 <= i < |items|
        && Fold(turn, stock, subtotal, rows, items[..i]).Ok?
        && turn(Fold(turn, stock, subtotal, rows, items[..i]).value.stock, items[i]) == Err(r.error);
      PrefixStock(turn, stock, subtotal, rows, items, i);
      FoldSucceedsAtEach(turn, stock, subtotal, rows, items[..i]);
      forall j | 0 <= j < i ensures turn(StockBefore(stock, items, j), items[j]).Ok? {
        assert items[..i][..j] == items[..j];
        assert items[..i][j] == items[j];
        PrefixStock(turn, stock, subtotal, rows, items, j);
      }
    }
  }

  /**
   * Stock accounting of a successful sale loop: no stock row is created or
   * removed, and each row drops by exactly the total quantity requested for
   * its product; products without a row are never touched.
   */
  lemma {:induction false} FoldStockAccounting(
    turn: SaleTurn, stock: map<string, int>, subtotal: int, rows: seq<OrderItem>, items: seq<ItemInput>)
    requires TurnAccounts(turn)
    requires Fold(turn, stock, subtotal, rows, items).Ok?
    ensures Fold(turn, stock, subtotal, rows, items).value.stock.Keys == stock.Keys
    ensures forall k :: k in stock ==>
      Fold(turn, stock, subtotal, rows, items).value.stock[k] == stock[k] - QuantityFor(items, k)
    decreases |items|
  {
    if items != [] {
      var step := turn(stock, items[0]).value;
      FoldStockAccounting(turn, step.stock, subtotal + step.lineTotal, rows + [step.row], items[1..]);
    }
  }

  /** A successful sale loop whose turns check the running stock never drives a non-negative row below zero. */
  lemma {:induction false} FoldKeepsStockNonNegative(
    turn: SaleTurn, stock: map<string, int>, subtotal: int, rows: seq<OrderItem>, items: seq<ItemInput>)
    requires TurnAccounts(turn) && TurnChecks(turn)
    requires Fold(turn, stock, subtotal, rows, items).Ok?
    ensures Fold(turn, stock, subtotal, rows, items).value.stock.Keys == stock.Keys
    ensures forall k :: k in stock && stock[k] >= 0 ==> Fold(turn, stock, subtotal, rows, items).value.stock[k] >= 0
    decreases |items|
  {
    FoldStockAccounting(turn, stock, subtotal, rows, items);
    if items != [] {
      var step := turn(stock, items[0]).value;
      FoldKeepsStockNonNegative(turn, step.stock, subtotal + step.lineTotal, rows + [step.row], items[1..]);
      forall k | k in stock && stock[k] >= 0
        ensures step.stock[k] >= 0
      {
      }
    }
  }

  /** A sale turn that, from no stock rows, does what a quote turn does. */
  ghost predicate SameWithoutStock(sale: SaleTurn, quote: QuoteTurn) {
    forall item ::
      && (sale(map[], item).Ok? <==> quote(item).Ok?)
      && (sale(map[], item).Err? ==> sale(map[], item).error == quote(item).error)
      && (sale(map[], item).Ok? ==> sale(map[], item).value == Step(map[], quote(item).value.0, quote(item).value.1))
  }

  /** Without stock rows the two loops run the same checks and produce the same subtotal and rows. */
  lemma {:induction false} FoldWithoutStock(
    sale: SaleTurn, quote: QuoteTurn, subtotal: int, rows: seq<OrderItem>, items: seq<ItemInput>)
    requires SameWithoutStock(sale, quote)
    ensures var s := Fold(sale, map[], subtotal, rows, items);
            var q := QuoteFold(quote, subtotal, rows, items);
            && (s.Ok? <==> q.Ok?)
            && (s.Err? ==> s.error == q.error)
            && (s.Ok? ==> s.value.subtotal == q.value.0 && s.value.rows == q.value.1)
    decreases |items|
  {
    if items != [] {
      var q := quote(items[0]);
      if q.Ok? {
        FoldWithoutStock(sale, quote, subtotal + q.value.0, rows + [q.value.1], items[1..]);
      }
    }
  }

  // ---------------------------------------------------------------------
  // The sale and quote loops of the order service
  // ---------------------------------------------------------------------

  /** The row property of both workflows: the snapshot of the item, named and priced from its product. */
  function SnapshotOf(products: map<string, Product>): RowFits {
    (item: ItemInput, row: OrderItem) => Snapshot(products, item, row)
  }

  /**
   * The turn of `createSale`'s loop: the stock is checked against, and taken
   * from, the running quantities; every row is the priced snapshot of its item.
   */
  function SaleTurnOf(products: map<string, Product>): (turn: SaleTurn)
    requires KeyedById(products)
    ensures TurnRecords(turn, SnapshotOf(products)) && TurnAccounts(turn) && TurnChecks(turn)
  {
    (running: map<string, int>, item: ItemInput) => SaleStep(products, running, running, item)
  }

  /** The turn of `createQuote`'s loop: every row is the priced snapshot of its item. */
  function QuoteTurnOf(products: map<string, Product>): (turn: QuoteTurn)
    requires KeyedById(products)
    ensures QuoteTurnRecords(turn, SnapshotOf(products))
  {
    (item: ItemInput) => QuoteStep(products, item)
  }

  /** The sale step of item `i`, checked against and taken from the stock the items before it leave. */
  function SaleStepAt(products: map<string, Product>, stock: map<string, int>, items: seq<ItemInput>, i: nat)
    : Result<Step, Error>
    requires KeyedById(products) && i < |items|
  {
    SaleStep(products, StockBefore(stock, items, i), StockBefore(stock, items, i), items[i])
  }

  /**
   * The sale loop of `createSale` over `items`: it succeeds exactly when each
   * item's step passes from the stock the items before it leave, and a
   * failure carries the error of the first item whose step fails.
   */
  function SaleFrom(products: map<string, Product>, stock: map<string, int>, items: seq<ItemInput>): (r: Result<Draft, Error>)
    requires KeyedById(products)
    ensures r.Ok? ==> |r.value.rows| == |items|
    ensures r.Err? ==> exists s, i :: 0 <= i < |items| && SaleStep(products, s, s, items[i]) == Err(r.error)
    ensures r.Ok? <==> forall i :: 0 <= i < |items| ==> SaleStepAt(products, stock, items, i).Ok?
    ensures r.Err? ==>
      exists i ::
        && 0 <= i < |items|
        && (forall j :: 0 <= j < i ==> SaleStepAt(products, stock, items, j).Ok?)
        && SaleStepAt(products, stock, items, i) == Err(r.error)
  {
    var turn := SaleTurnOf(products);
    FoldChecksEachItem(turn, stock, 0, [], items);
    assert forall i :: 0 <= i < |items| ==>
      turn(StockBefore(stock, items, i), items[i]) == SaleStepAt(products, stock, items, i);
    Fold(turn, stock, 0, [], items)
  }

  /**
   * The quote loop of `createQuote` over `items`: it succeeds exactly when
   * every item's step does, and a failure carries the error of the first
   * failing item.
   */
  function QuoteFrom(products: map<string, Product>, items: seq<ItemInput>): (r: Result<(int, seq<OrderItem>), Error>)
    requires KeyedById(products)
    ensures r.Ok? ==> |r.value.1| == |items|
    ensures r.Err? ==> exists i :: 0 <= i < |items| && QuoteStep(products, items[i]) == Err(r.error)
    ensures r.Ok? <==> forall i :: 0 <= i < |items| ==> QuoteStep(products, items[i]).Ok?
    ensures r.Err? ==>
      exists i ::
        && 0 <= i < |items|
        && (forall j :: 0 <= j < i ==> QuoteStep(products, items[j]).Ok?)
        && QuoteStep(products, items[i]) == Err(r.error)
  {
    QuoteFoldChecksEachItem(QuoteTurnOf(products), 0, [], items);
    QuoteFold(QuoteTurnOf(products), 0, [], items)
  }

  /** Rows that are the snapshots of their items sum to the line totals pricing gives the items. */
  lemma {:induction false} SnapshotLineSum(products: map<string, Product>, items: seq<ItemInput>, rows: seq<OrderItem>)
    requires |rows| == |items|
    requires forall i :: 0 <= i < |items| ==> Snapshot(products, items[i], rows[i])
    ensures LineSum(rows) == PricedTotal(products, items)
    decreases |items|
  {
    if items != [] {
      assert forall i :: 0 <= i < |items[1..]| ==> items[1..][i] == items[i + 1] && rows[1..][i] == rows[i + 1];
      SnapshotLineSum(products, items[1..], rows[1..]);
      assert Snapshot(products, items[0], rows[0]);
    }
  }

  /**
   * A successful sale has one snapshot row per item, in order, each named and
   * priced from its product, and a subtotal equal to the sum of the line
   * totals pricing gives the items.
   */
  lemma SaleRecordsItems(products: map<string, Product>, stock: map<string, int>, items: seq<ItemInput>)
    requires KeyedById(products)
    ensures var r := SaleFrom(products, stock, items);
      r.Ok? ==>
        && |r.value.rows| == |items|
        && (forall i :: 0 <= i < |items| ==> Snapshot(products, items[i], r.value.rows[i]))
        && r.value.subtotal == PricedTotal(products, items)
        && r.value.subtotal == LineSum(r.value.rows)
  {
    FoldRecordsItems(SaleTurnOf(products), SnapshotOf(products), stock, 0, [], items);
    var r := SaleFrom(products, stock, items);
    if r.Ok? {
      assert r.value.rows[0..] == r.value.rows;
      assert forall i :: 0 <= i < |items| ==> SnapshotOf(products)(items[i], r.value.rows[0 + i]);
      SnapshotLineSum(products, items, r.value.rows);
    }
  }

  /**
   * A successful quote has one snapshot row per item, in order, each named
   * and priced from its product, and a subtotal equal to the sum of the line
   * totals pricing gives the items.
   */
  lemma QuoteRecordsItems(products: map<string, Product>, items: seq<ItemInput>)
    requires KeyedById(products)
    ensures var r := QuoteFrom(products, items);
      r.Ok? ==>
        && |r.value.1| == |items|
        && (forall i :: 0 <= i < |items| ==> Snapshot(products, items[i], r.value.1[i]))
        && r.value.0 == PricedTotal(products, items)
        && r.value.0 == LineSum(r.value.1)
  {
    QuoteFoldRecordsItems(QuoteTurnOf(products), SnapshotOf(products), 0, [], items);
    var r := QuoteFrom(products, items);
    if r.Ok? {
      assert r.value.1[0..] == r.value.1;
      assert forall i :: 0 <= i < |items| ==> SnapshotOf(products)(items[i], r.value.1[0 + i]);
      SnapshotLineSum(products, items, r.value.1);
    }
  }

  /**
   * Stock accounting of a successful sale: no stock row is created or
   * removed, each row drops by exactly the total quantity requested for its
   * product, and no non-negative row ends below zero.
   */
  lemma SaleStockAccounting(products: map<string, Product>, stock: map<string, int>, items: seq<ItemInput>)
    requires KeyedById(products)
    requires SaleFrom(products, stock, items).Ok?
    ensures SaleFrom(products, stock, items).value.stock.Keys == stock.Keys
    ensures forall k :: k in stock ==> SaleFrom(products, stock, items).value.stock[k] == stock[k] - QuantityFor(items, k)
    ensures forall k :: k in stock && stock[k] >= 0 ==> SaleFrom(products, stock, items).value.stock[k] >= 0
  {
    FoldStockAccounting(SaleTurnOf(products), stock, 0, [], items);
    FoldKeepsStockNonNegative(SaleTurnOf(products), stock, 0, [], items);
  }

  /** Without stock rows the sale step is the quote step. */
  lemma SaleStepWithoutStock(products: map<string, Product>)
    requires KeyedById(products)
    ensures SameWithoutStock(SaleTurnOf(products), QuoteTurnOf(products))
  {
    forall item: ItemInput
      ensures var s := SaleStep(products, map[], map[], item);
              var q := QuoteStep(products, item);
              && (s.Ok? <==> q.Ok?)
              && (s.Err? ==> s.error == q.error)
              && (s.Ok? ==> s.value == Step(map[], q.value.0, q.value.1))
    {
    }
  }

  /**
   * Without stock rows a sale and a quote run the same checks and produce the
   * same subtotal and rows: the quote loop is the sale loop minus the stock step.
   */
  lemma QuoteIsSaleWithoutStock(products: map<string, Product>, items: seq<ItemInput>)
    requires KeyedById(products)
    ensures var sale := SaleFrom(products, map[], items);
            var quote := QuoteFrom(products, items);
            && (sale.Ok? <==> quote.Ok?)
            && (sale.Err? ==> sale.error == quote.error)
            && (sale.Ok? ==> sale.value.subtotal == quote.value.0 && sale.value.rows == quote.value.1)
  {
    SaleStepWithoutStock(products);
    FoldWithoutStock(SaleTurnOf(products), QuoteTurnOf(products), 0, [], items);
  }

  /**
   * The turn as the source writes it: every stock check compares with
   * `loaded`, the quantities read once before the loop, while the decrements
   * go to the running stock.
   */
  function AsWrittenTurnOf(products: map<string, Product>, loaded: map<string, int>): (turn: SaleTurn)
    requires KeyedById(products)
    ensures TurnRecords(turn, SnapshotOf(products)) && TurnAccounts(turn)
  {
    (running: map<string, int>, item: ItemInput) => SaleStep(products, loaded, running, item)
  }

  /** The sale loop as the source writes it. */
  function SaleFromAsWritten(products: map<string, Product>, stock: map<string, int>, items: seq<ItemInput>)
    : (r: Result<Draft, Error>)
    requires KeyedById(products)
    ensures r.Ok? ==> |r.value.rows| == |items|
    ensures r.Ok? ==> r.value.stock.Keys == stock.Keys
    ensures r.Ok? ==> forall k :: k in stock ==> r.value.stock[k] == stock[k] - QuantityFor(items, k)
  {
    var r := Fold(AsWrittenTurnOf(products, stock), stock, 0, [], items);
    if r.Ok? then
      FoldStockAccounting(AsWrittenTurnOf(products, stock), stock, 0, [], items);
      r
    else r
  }

  /** An active UNIT product priced at 1000 with no option groups and no bounds. */
  function PlainProduct(): Product {
    Product("p", "Caneca", true, Unit, CM, None, None, None, None, None, None, None, Some(1000), None, None, [])
  }

  /**
   * Two mugs at 1000 against a stock of 5: one row named and priced from the
   * product, a subtotal of 2000, and 3 left in stock.
   */
  lemma PlainSaleExample()
    ensures var sale := SaleFrom(map["p" := PlainProduct()], map["p" := 5], [ItemInput("p", 2, None, None, None)]);
            && sale.Ok?
            && sale.value.rows == [OrderItem("p", "Caneca", 1000, 2, None, None, [])]
            && sale.value.subtotal == 2000
            && sale.value.stock == map["p" := 3]
  {
    var products := map["p" := PlainProduct()];
    var item := ItemInput("p", 2, None, None, None);
    assert PrepareItem(products, item) == Ok((PlainProduct(), []));
    var price := CalculateItemPrice(PlainProduct(), [], None, None, 2);
    assert price == Ok(price.value);
    assert price.value.unitPriceCents == 1000;
    var step := SaleStep(products, map["p" := 5], map["p" := 5], item);
    assert step.Ok? && step.value.stock == map["p" := 3];
    assert [item][1..] == [];
  }

  /**
   * Two lines of 3 for a product with 5 in stock: as written, both checks see
   * the loaded 5 and the sale succeeds leaving -1; checking the running
   * quantity rejects the second line.
   */
  lemma StockCanGoNegativeAsWritten()
    ensures var products := map["p" := PlainProduct()];
            var items := [ItemInput("p", 3, None, None, None), ItemInput("p", 3, None, None, None)];
            var asWritten := SaleFromAsWritten(products, map["p" := 5], items);
            var corrected := SaleFrom(products, map["p" := 5], items);
            && asWritten.Ok? && asWritten.value.stock["p"] == -1
            && corrected == Err(BadRequestError(InsufficientStock))
  {
    var products := map["p" := PlainProduct()];
    var item := ItemInput("p", 3, None, None, None);
    var items := [item, item];
    assert items[1..] == [item];
    assert PrepareItem(products, item) == Ok((PlainProduct(), []));
    var price := CalculateItemPrice(PlainProduct(), [], None, None, 3);
    assert price == Ok(price.value);
    assert price.value.unitPriceCents == 1000;
    var first := SaleStep(products, map["p" := 5], map["p" := 5], item);
    assert first.Ok? && first.value.stock == map["p" := 2];
    var second := SaleStep(products, map["p" := 5], map["p" := 2], item);
    assert second.Ok? && second.value.stock == map["p" := -1];
    assert SaleStep(products, map["p" := 2], map["p" := 2], item) == Err(BadRequestError(InsufficientStock));
  }
}
