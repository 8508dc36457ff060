/**
 * The three order workflows over an in-memory database: direct sale, quote
 * creation and quote-to-sale conversion. Each runs as one transaction: the
 * loops work on local copies and the tables change only when every step
 * succeeded.
 */
module Checkout {
  import opened Wrappers
  import opened Errors
  import opened Catalog
  import opened OptionSelection
  import opened OrderCode
  import opened Orders

  /** The body of a quote request. */
  datatype QuoteInput = QuoteInput(
    customerUserId: string,
    notes: Option<string>,
    internalNotes: Option<string>,
    discountCents: Option<int>,
    shippingCents: Option<int>,
    taxCents: Option<int>,
    items: seq<ItemInput>)

  predicate NonNegativeIfGiven(o: Option<int>) {
    o.Some? ==> o.value >= 0
  }

  /** What the quote schema admits. */
  predicate ValidQuoteInput(q: QuoteInput) {
    && NonNegativeIfGiven(q.discountCents)
    && NonNegativeIfGiven(q.shippingCents)
    && NonNegativeIfGiven(q.taxCents)
    && ValidItems(q.items)
  }

  /** `findFirst({ id, type: 'QUOTE' })` */
  function FindQuote(orders: seq<Order>, id: string): (r: Option<Order>)
    ensures r.None? <==> forall i :: 0 <= i < |orders| ==> !(orders[i].id == id && orders[i].orderType == QuoteOrder)
    ensures r.Some? ==> r.value in orders && r.value.id == id && r.value.orderType == QuoteOrder
  {
    if orders == [] then None
    else if orders[0].id == id && orders[0].orderType == QuoteOrder then Some(orders[0])
    else
      var r := FindQuote(orders[1..], id);
      assert forall i :: 1 <= i < |orders| ==> orders[i] == orders[1..][i - 1];
      r
  }

  /** Some order, of any type, already links to the quote. */
  predicate AlreadyConvertedIn(orders: seq<Order>, quoteId: string) {
    exists i :: 0 <= i < |orders| && orders[i].sourceQuoteId == Some(quoteId)
  }

  /**
   * The guards of `convertToSale`: the quote must exist (its status is not
   * looked at) and must not have been converted yet (a 409 conflict).
   */
  function ConversionCheck(orders: seq<Order>, quoteId: string): (r: Result<Order, Error>)
    ensures FindQuote(orders, quoteId).None? ==> r == Err(NotFoundError(QuoteNotFound))
    ensures FindQuote(orders, quoteId).Some? && AlreadyConvertedIn(orders, quoteId) ==>
      r == Err(ConflictError(AlreadyConverted))
    ensures r.Ok? <==> FindQuote(orders, quoteId).Some? && !AlreadyConvertedIn(orders, quoteId)
    ensures r.Ok? ==> r.value == FindQuote(orders, quoteId).value
  {
    match FindQuote(orders, quoteId)
    case None => Err(NotFoundError(QuoteNotFound))
    case Some(quote) =>
      if AlreadyConvertedIn(orders, quoteId) then Err(ConflictError(AlreadyConverted))
      else Ok(quote)
  }

  /**
   * The guards as the source writes them: the helper the second guard calls
   * is not defined in that file, so the throw itself fails and the error
   * handler answers 500 instead of 409.
   */
  function ConversionCheckAsWritten(orders: seq<Order>, quoteId: string): (r: Result<Order, Error>)
    ensures r.Err? && r.error.status == Internal <==> FindQuote(orders, quoteId).Some? && AlreadyConvertedIn(orders, quoteId)
  {
    match FindQuote(orders, quoteId)
    case None => Err(NotFoundError(QuoteNotFound))
    case Some(quote) =>
      if AlreadyConvertedIn(orders, quoteId) then Err(Error(Internal, ConflictUndefined))
      else Ok(quote)
  }

  /** The sale created from a quote: a copy of its user, total and frozen items, linked back to it. */
  function ConvertedSale(quote: Order, orderId: string, code: string, saleStatus: Option<OrderStatus>): (sale: Order)
    ensures sale.orderType == SaleOrder && sale.paymentStatus == Unpaid
    ensures sale.status == (if saleStatus.Some? then saleStatus.value else Pending)
    ensures sale.userId == quote.userId && sale.totalCents == quote.totalCents
    ensures sale.sourceQuoteId == Some(quote.id)
    ensures sale.items == quote.items
  {
    Order(orderId, quote.userId, code, SaleOrder, saleStatus.GetOr(Pending), Unpaid, None, None,
          None, None, None, None, quote.totalCents, Some(quote.id), quote.items)
  }

  /** Once a conversion is recorded, converting the same quote again is rejected. */
  lemma ConvertingTwiceFails(orders: seq<Order>, quoteId: string, orderId: string, code: string, saleStatus: Option<OrderStatus>)
    requires ConversionCheck(orders, quoteId).Ok?
    ensures var sale := ConvertedSale(ConversionCheck(orders, quoteId).value, orderId, code, saleStatus);
            ConversionCheck(orders + [sale], quoteId) == Err(ConflictError(AlreadyConverted))
  {
    var quote := ConversionCheck(orders, quoteId).value;
    var sale := ConvertedSale(quote, orderId, code, saleStatus);
    var after := orders + [sale];
    assert after[|orders|].sourceQuoteId == Some(quoteId);
    assert AlreadyConvertedIn(after, quoteId);
    assert FindQuote(orders, quoteId).value in after;
  }

  /**
   * A quote that was already converted: as written the answer is a 500; the
   * intended 409 conflict is what ConversionCheck returns.
   */
  lemma SecondConversionIs500AsWritten()
    ensures var quote := Order("q1", "u1", "ORC-2025-000001", QuoteOrder, Canceled, Unpaid, None, None,
                               Some(1000), Some(0), Some(0), Some(0), 1000, None, []);
            var sale := ConvertedSale(quote, "s1", "PED-2025-000001", None);
            && ConversionCheckAsWritten([quote, sale], "q1").Err?
            && ConversionCheckAsWritten([quote, sale], "q1").error.status.Code() == 500
            && ConversionCheck([quote, sale], "q1").Err?
            && ConversionCheck([quote, sale], "q1").error.status.Code() == 409
  {
    var quote := Order("q1", "u1", "ORC-2025-000001", QuoteOrder, Canceled, Unpaid, None, None,
                       Some(1000), Some(0), Some(0), Some(0), 1000, None, []);
    var sale := ConvertedSale(quote, "s1", "PED-2025-000001", None);
    assert [quote, sale][1].sourceQuoteId == Some("q1");
  }

  /** A canceled quote still converts: the status is not one of the guards. */
  lemma CanceledQuoteConverts()
    ensures var quote := Order("q1", "u1", "ORC-2025-000001", QuoteOrder, Canceled, Unpaid, None, None,
                               Some(1000), Some(0), Some(0), Some(0), 1000, None, []);
            ConversionCheck([quote], "q1") == Ok(quote)
  {
  }

  /** The item loop of `createSale`: each item is stock-checked, decremented and priced in turn. */
  method RunSale(turn: SaleTurn, stock: map<string, int>, items: seq<ItemInput>) returns (r: Result<Draft, Error>)
    ensures r == Fold(turn, stock, 0, [], items)
  {
    var running, subtotal, rows, i := stock, 0, [], 0;
    while i < |items|
      invariant 0 <= i <= |items|
      invariant Fold(turn, running, subtotal, rows, items[i..]) == Fold(turn, stock, 0, [], items)
    {
      assert items[i..][1..] == items[i + 1..];
      var step := turn(running, items[i]);
      if step.Err? {
        return Err(step.error);
      }
      running, subtotal, rows, i := step.value.stock, subtotal + step.value.lineTotal, rows + [step.value.row], i + 1;
    }
    assert items[i..] == [];
    return Ok(Draft(running, subtotal, rows));
  }

  /** The item loop of `createQuote`: each item is prepared and priced in turn. */
  method RunQuote(turn: QuoteTurn, items: seq<ItemInput>) returns (r: Result<(int, seq<OrderItem>), Error>)
    ensures r == QuoteFold(turn, 0, [], items)
  {
    var subtotal, rows, i := 0, [], 0;
    while i < |items|
      invariant 0 <= i <= |items|
      invariant QuoteFold(turn, subtotal, rows, items[i..]) == QuoteFold(turn, 0, [], items)
    {
      assert items[i..][1..] == items[i + 1..];
      var step := turn(items[i]);
      if step.Err? {
        return Err(step.error);
      }
      subtotal, rows, i := subtotal + step.value.0, rows + [step.value.1], i + 1;
    }
    assert items[i..] == [];
    return Ok((subtotal, rows));
  }

  /** The tables the workflows read and write. */
  class Database {
    var products: map<string, Product>
    var stock: map<string, int>
    var users: set<string>
    var orders: seq<Order>
    const sequences: SequenceTable

    predicate Valid()
      reads this
    {
      KeyedById(products)
    }

    constructor (products: map<string, Product>, stock: map<string, int>, users: set<string>, sequences: SequenceTable)
      requires KeyedById(products)
      ensures Valid()
      ensures this.products == products && this.stock == stock && this.users == users
      ensures this.orders == [] && this.sequences == sequences
    {
      this.products := products;
      this.stock := stock;
      this.users := users;
      this.orders := [];
      this.sequences := sequences;
    }

    /**
     * `createSale`: every item is prepared, stock-checked and decremented,
     * and priced in order; then a PED code is allocated and the SALE is
     * stored as PENDING / UNPAID with zero discount, shipping and tax and
     * total `max(0, subtotal)`. A failing item leaves every table unchanged.
     */
    method CreateSale(userId: string, items: seq<ItemInput>, year: nat, orderId: string) returns (r: Result<Order, Error>)
      requires Valid() && ValidItems(items)
      modifies this, sequences
      ensures Valid()
      ensures products == old(products) && users == old(users)
      ensures var sale := SaleFrom(old(products), old(stock), items);
        sale.Err? ==>
          && r == Err(sale.error)
          && stock == old(stock) && orders == old(orders) && sequences.counters == old(sequences.counters)
      ensures var sale := SaleFrom(old(products), old(stock), items);
        var series := SeriesId("PED", year);
        var value := NextValue(old(sequences.counters), series);
        sale.Ok? ==>
          && stock == sale.value.stock
          && sequences.counters == old(sequences.counters)[series := value]
          && r == Ok(Order(orderId, userId, FormatCode(series, value), SaleOrder, Pending, Unpaid, None, None,
                           Some(sale.value.subtotal), Some(0), Some(0), Some(0),
                           OrderTotal(sale.value.subtotal, 0, 0, 0), None, sale.value.rows))
          && orders == old(orders) + [r.value]
      ensures r.Ok? ==>
        && r.value.subtotalCents == Some(PricedTotal(old(products), items))
        && |r.value.items| == |items|
        && forall i :: 0 <= i < |items| ==> Snapshot(old(products), items[i], r.value.items[i])
    {
      SaleRecordsItems(products, stock, items);
      var sale := RunSale(SaleTurnOf(products), stock, items);
      if sale.Err? {
        return Err(sale.error);
      }
      var running, subtotal, rows := sale.value.stock, sale.value.subtotal, sale.value.rows;
      var discount, shipping, tax := 0, 0, 0;
      var total := OrderTotal(subtotal, discount, shipping, tax);
      var code := sequences.NextOrderCode("PED", year);
      var order := Order(orderId, userId, code, SaleOrder, Pending, Unpaid, None, None,
                         Some(subtotal), Some(discount), Some(shipping), Some(tax), total, None, rows);
      stock := running;
      orders := orders + [order];
      r := Ok(order);
    }

    /**
     * `createQuote`: the customer must exist (checked before any product);
     * items are prepared and priced as for a sale but stock is never read or
     * written; then an ORC code is allocated and the QUOTE is stored as
     * PENDING / UNPAID with `max(0, subtotal - discount + shipping + tax)`,
     * absent amounts counting as 0.
     */
    method CreateQuote(input: QuoteInput, year: nat, orderId: string) returns (r: Result<Order, Error>)
      requires Valid() && ValidQuoteInput(input)
      modifies this, sequences
      ensures Valid()
      ensures products == old(products) && users == old(users) && stock == old(stock)
      ensures input.customerUserId !in old(users) ==>
        && r == Err(NotFoundError(CustomerNotFound))
        && orders == old(orders) && sequences.counters == old(sequences.counters)
      ensures var quote := QuoteFrom(old(products), input.items);
        input.customerUserId in old(users) && quote.Err? ==>
          && r == Err(quote.error)
          && orders == old(orders) && sequences.counters == old(sequences.counters)
      ensures var quote := QuoteFrom(old(products), input.items);
        var series := SeriesId("ORC", year);
        var value := NextValue(old(sequences.counters), series);
        var discount := input.discountCents.GetOr(0);
        var shipping := input.shippingCents.GetOr(0);
        var tax := input.taxCents.GetOr(0);
        input.customerUserId in old(users) && quote.Ok? ==>
          && sequences.counters == old(sequences.counters)[series := value]
          && r == Ok(Order(orderId, input.customerUserId, FormatCode(series, value), QuoteOrder, Pending, Unpaid,
                           input.notes, input.internalNotes,
                           Some(quote.value.0), Some(discount), Some(shipping), Some(tax),
                           OrderTotal(quote.value.0, discount, shipping, tax), None, quote.value.1))
          && orders == old(orders) + [r.value]
      ensures r.Ok? ==>
        && r.value.subtotalCents == Some(PricedTotal(old(products), input.items))
        && |r.value.items| == |input.items|
        && forall i :: 0 <= i < |input.items| ==> Snapshot(old(products), input.items[i], r.value.items[i])
    {
      QuoteRecordsItems(products, input.items);
      if input.customerUserId !in users {
        return Err(NotFoundError(CustomerNotFound));
      }
      var quote := RunQuote(QuoteTurnOf(products), input.items);
      if quote.Err? {
        return Err(quote.error);
      }
      var subtotal, rows := quote.value.0, quote.value.1;
      var code := sequences.NextOrderCode("ORC", year);
      var discount := input.discountCents.GetOr(0);
      var shipping := input.shippingCents.GetOr(0);
      var tax := input.taxCents.GetOr(0);
      var total := OrderTotal(subtotal, discount, shipping, tax);
      var order := Order(orderId, input.customerUserId, code, QuoteOrder, Pending, Unpaid, input.notes, input.internalNotes,
                         Some(subtotal), Some(discount), Some(shipping), Some(tax), total, None, rows);
      orders := orders + [order];
      r := Ok(order);
    }

    /**
     * `convertToSale`: after the guards, a PED code is allocated and a SALE
     * copying the quote's user, total and item snapshot is stored, linked to
     * the quote. No repricing, no stock; the quote itself is left as it was.
     */
    method ConvertToSale(quoteId: string, saleStatus: Option<OrderStatus>, year: nat, orderId: string)
      returns (r: Result<Order, Error>)
      requires Valid()
      modifies this, sequences
      ensures Valid()
      ensures products == old(products) && users == old(users) && stock == old(stock)
      ensures var check := ConversionCheck(old(orders), quoteId);
        check.Err? ==>
          && r == Err(check.error)
          && orders == old(orders) && sequences.counters == old(sequences.counters)
      ensures var check := ConversionCheck(old(orders), quoteId);
        var series := SeriesId("PED", year);
        var value := NextValue(old(sequences.counters), series);
        check.Ok? ==>
          && sequences.counters == old(sequences.counters)[series := value]
          && r == Ok(ConvertedSale(check.value, orderId, FormatCode(series, value), saleStatus))
          && orders == old(orders) + [r.value]
    {
      var check := ConversionCheck(orders, quoteId);
      if check.Err? {
        return Err(check.error);
      }
      var code := sequences.NextOrderCode("PED", year);
      var sale := ConvertedSale(check.value, orderId, code, saleStatus);
      orders := orders + [sale];
      r := Ok(sale);
    }
  }
}
