/**
 * The order-book engine (`BondMarketDataService`) and the parser of its
 * input lines (`BondMarketDataConnector::parse`). A line is a product id
 * followed by five (price, quantity) bid levels and five (price, quantity)
 * offer levels, best first. The service keeps one book per product and
 * answers best-bid/offer and volume-weighted depth queries from it.
 */
module MarketData {
  import opened Soa
  import opened Numerals
  import opened FileConnector
  import opened Products

  datatype PricingSide = BID | OFFER

  datatype Order = Order(price: real, quantity: int, side: PricingSide)

  datatype BidOffer = BidOffer(bidOrder: Order, offerOrder: Order)

  datatype OrderBook = OrderBook(product: Bond, bidStack: seq<Order>, offerStack: seq<Order>)

  /** Levels per side in a book read from the market-data file. */
  const Depth: nat := 5

  /** Fields of a market-data line: the id and 2 x 2 x `Depth` numbers. */
  const LineFields: nat := 1 + 4 * Depth

  predicate FullBook(book: OrderBook)
  {
    |book.bidStack| == Depth && |book.offerStack| == Depth
  }

  // ---------------------------------------------------------------- parse

  /** One level read from a price field (32nds notation) and a quantity field. */
  function LevelAt(fields: seq<string>, priceField: nat, quantityField: nat, side: PricingSide): (r: Result<Order>)
    requires priceField < |fields| && quantityField < |fields|
    ensures r.Ok? <==> FractionalToDouble(fields[priceField]).Ok? && Stol(fields[quantityField]).Ok?
    ensures r.Ok? ==> r.value == Order(FractionalToDouble(fields[priceField]).value, Stol(fields[quantityField]).value, side)
  {
    var price := FractionalToDouble(fields[priceField]);
    var quantity := Stol(fields[quantityField]);
    if price.Err? then Err(price.error)
    else if quantity.Err? then Err(quantity.error)
    else Ok(Order(price.value, quantity.value, side))
  }

  /** Bid level `i` (1-based) is read from fields 2i-1 and 2i. */
  function BidLevel(fields: seq<string>, i: nat): Result<Order>
    requires 1 <= i <= Depth && |fields| >= LineFields
  {
    LevelAt(fields, 2 * i - 1, 2 * i, BID)
  }

  /** Offer level `i` (1-based) is read from fields 9+2i and 10+2i. */
  function OfferLevel(fields: seq<string>, i: nat): Result<Order>
    requires 1 <= i <= Depth && |fields| >= LineFields
  {
    LevelAt(fields, 9 + 2 * i, 10 + 2 * i, OFFER)
  }

  /** Levels 1 to `n` of both sides read without error. */
  predicate LevelsRead(fields: seq<string>, n: nat)
    requires n <= Depth && |fields| >= LineFields
  {
    forall i :: 1 <= i <= n ==> BidLevel(fields, i).Ok? && OfferLevel(fields, i).Ok?
  }

  /** The bid stack a well-formed line yields, best level first. */
  function BidStack(fields: seq<string>): (r: seq<Order>)
    requires |fields| >= LineFields && LevelsRead(fields, Depth)
    ensures |r| == Depth && forall k :: 0 <= k < Depth ==> r[k] == BidLevel(fields, k + 1).value && r[k].side == BID
  {
    seq(Depth, k requires 0 <= k < Depth => BidLevel(fields, k + 1).value)
  }

  /** The offer stack a well-formed line yields, best level first. */
  function OfferStack(fields: seq<string>): (r: seq<Order>)
    requires |fields| >= LineFields && LevelsRead(fields, Depth)
    ensures |r| == Depth && forall k :: 0 <= k < Depth ==> r[k] == OfferLevel(fields, k + 1).value && r[k].side == OFFER
  {
    seq(Depth, k requires 0 <= k < Depth => OfferLevel(fields, k + 1).value)
  }

  /**
   * The loop of `parse` that builds both stacks, pushing bid level i and
   * offer level i on round i. A line with fewer than 21 fields would be read
   * past its end; a field `std::stol` or the 32nds reader rejects stops the
   * parse.
   */
  method ParseLevels(fields: seq<string>) returns (r: Result<(seq<Order>, seq<Order>)>)
    ensures |fields| < LineFields ==> r == Err(MissingField)
    ensures r.Ok? <==> |fields| >= LineFields && LevelsRead(fields, Depth)
    ensures r.Ok? ==> r.value == (BidStack(fields), OfferStack(fields))
  {
    if |fields| < LineFields {
      return Err(MissingField);
    }
    var bidStack: seq<Order> := [];
    var offerStack: seq<Order> := [];
    var i := 1;
    while i <= Depth
      invariant 1 <= i <= Depth + 1
      invariant LevelsRead(fields, i - 1)
      invariant |bidStack| == i - 1 && |offerStack| == i - 1
      invariant forall k :: 0 <= k < i - 1 ==>
                  bidStack[k] == BidLevel(fields, k + 1).value && offerStack[k] == OfferLevel(fields, k + 1).value
    {
      var bid := BidLevel(fields, i);
      var offer := OfferLevel(fields, i);
      if bid.Err? {
        return Err(bid.error);
      }
      if offer.Err? {
        return Err(offer.error);
      }
      bidStack := bidStack + [bid.value];
      offerStack := offerStack + [offer.value];
      i := i + 1;
      assert LevelsRead(fields, i - 1) by {
        forall j | 1 <= j <= i - 1
          ensures BidLevel(fields, j).Ok? && OfferLevel(fields, j).Ok?
        {
          if j < i - 1 {
            assert LevelsRead(fields, i - 2);
          }
        }
      }
    }
    assert bidStack == BidStack(fields);
    assert offerStack == OfferStack(fields);
    r := Ok((bidStack, offerStack));
  }

  /** The bid stack depends on fields 1 to 10 only, the offer stack on fields 11 to 20 only. */
  lemma {:induction false} LevelsUseDisjointFields(a: seq<string>, b: seq<string>, i: nat)
    requires |a| >= LineFields && |b| >= LineFields && 1 <= i <= Depth
    ensures a[1..11] == b[1..11] ==> BidLevel(a, i) == BidLevel(b, i)
    ensures a[11..21] == b[11..21] ==> OfferLevel(a, i) == OfferLevel(b, i)
  {
    if a[1..11] == b[1..11] {
      assert a[2 * i - 1] == a[1..11][2 * i - 2] && a[2 * i] == a[1..11][2 * i - 1];
      assert b[2 * i - 1] == b[1..11][2 * i - 2] && b[2 * i] == b[1..11][2 * i - 1];
    }
    if a[11..21] == b[11..21] {
      assert a[9 + 2 * i] == a[11..21][2 * i - 2] && a[10 + 2 * i] == a[11..21][2 * i - 1];
      assert b[9 + 2 * i] == b[11..21][2 * i - 2] && b[10 + 2 * i] == b[11..21][2 * i - 1];
    }
  }

  // ---------------------------------------------------------------- queries

  /** Top of book: level 0 of each side, re-tagged BID and OFFER. */
  function BestBidOffer(book: OrderBook): (r: BidOffer)
    requires |book.bidStack| > 0 && |book.offerStack| > 0
    ensures r.bidOrder.side == BID && r.offerOrder.side == OFFER
    ensures r.bidOrder.price == book.bidStack[0].price && r.bidOrder.quantity == book.bidStack[0].quantity
    ensures r.offerOrder.price == book.offerStack[0].price && r.offerOrder.quantity == book.offerStack[0].quantity
  {
    BidOffer(Order(book.bidStack[0].price, book.bidStack[0].quantity, BID),
             Order(book.offerStack[0].price, book.offerStack[0].quantity, OFFER))
  }

  /** Sum of the quantities, accumulated from the best level down. */
  function TotalQuantity(levels: seq<Order>): int
  {
    if levels == [] then 0 else TotalQuantity(levels[..|levels| - 1]) + levels[|levels| - 1].quantity
  }

  /** What a level costs: quantity times price. */
  function Cost(level: Order): real
  {
    level.quantity as real * level.price
  }

  /** Sum of the levels' costs, accumulated from the best level down. */
  function TotalCost(levels: seq<Order>): real
  {
    if levels == [] then 0.0 else TotalCost(levels[..|levels| - 1]) + Cost(levels[|levels| - 1])
  }

  /** Accumulating one more level, as the depth loop does. */
  lemma TotalsStep(levels: seq<Order>, i: nat)
    requires i < |levels|
    ensures TotalQuantity(levels[..i + 1]) == TotalQuantity(levels[..i]) + levels[i].quantity
    ensures TotalCost(levels[..i + 1]) == TotalCost(levels[..i]) + Cost(levels[i])
  {
    assert levels[..i + 1][..i] == levels[..i];
  }

  /** The single synthetic level of one side of an aggregated book. */
  function Aggregate(levels: seq<Order>, side: PricingSide): Order
    requires TotalQuantity(levels) != 0
  {
    Order(TotalCost(levels) / TotalQuantity(levels) as real, TotalQuantity(levels), side)
  }

  /**
   * With non-negative quantities, the cost lies between the lowest price and
   * the highest price times the total quantity.
   */
  lemma {:induction false} CostBounds(levels: seq<Order>, lo: real, hi: real)
    requires forall k :: 0 <= k < |levels| ==> lo <= levels[k].price <= hi && levels[k].quantity >= 0
    ensures lo * TotalQuantity(levels) as real <= TotalCost(levels) <= hi * TotalQuantity(levels) as real
  {
    if levels != [] {
      var init, last := levels[..|levels| - 1], levels[|levels| - 1];
      CostBounds(init, lo, hi);
      var qi, ci := TotalQuantity(init) as real, TotalCost(init);
      assert TotalQuantity(levels) as real == qi + last.quantity as real;
      assert TotalCost(levels) == ci + Cost(last);
      AddLevel(qi, ci, last, lo, hi);
    }
  }

  /** Adding one level at a price within [lo, hi] keeps the cost within bounds. */
  lemma AddLevel(qi: real, ci: real, level: Order, lo: real, hi: real)
    requires lo * qi <= ci <= hi * qi
    requires level.quantity >= 0 && lo <= level.price <= hi
    ensures lo * (qi + level.quantity as real) <= ci + Cost(level) <= hi * (qi + level.quantity as real)
  {
    var q, p := level.quantity as real, level.price;
    assert lo * q <= q * p <= hi * q;
    assert lo * (qi + q) == lo * qi + lo * q;
    assert hi * (qi + q) == hi * qi + hi * q;
  }

  lemma QuotientBounds(c: real, q: real, lo: real, hi: real)
    requires q > 0.0 && lo * q <= c <= hi * q
    ensures lo <= c / q <= hi
  {
  }

  /**
   * The volume-weighted average price of a side with positive quantities
   * lies between its lowest and highest level price; when every level has
   * the same price it is that price.
   */
  lemma AggregatePriceWithinLevels(levels: seq<Order>, side: PricingSide, lo: real, hi: real)
    requires forall k :: 0 <= k < |levels| ==> lo <= levels[k].price <= hi && levels[k].quantity > 0
    requires TotalQuantity(levels) > 0
    ensures lo <= Aggregate(levels, side).price <= hi
  {
    var c, q := TotalCost(levels), TotalQuantity(levels) as real;
    CostBounds(levels, lo, hi);
    QuotientBounds(c, q, lo, hi);
    assert Aggregate(levels, side).price == c / q;
  }

  // ---------------------------------------------------------------- service

  class BondMarketDataService {
    /** The book recorded for each product id. */
    var store: map<string, OrderBook>
    /** The registered listeners, in registration order. */
    const listeners: seq<string>

    /** Every recorded book has five levels per side, as the parser produces. */
    ghost predicate Valid()
      reads this
    {
      forall id :: id in store ==> FullBook(store[id])
    }

    constructor (listeners: seq<string>)
      ensures store == map[] && this.listeners == listeners && Valid()
    {
      store := map[];
      this.listeners := listeners;
    }

    /**
     * Records a book and notifies every listener: add for a product id never
     * seen, update otherwise. The store uses `insert`, so a product keeps
     * the first book recorded for it.
     */
    method OnMessage(book: OrderBook) returns (deliveries: seq<Delivery<OrderBook>>)
      requires Valid() && FullBook(book)
      modifies this
      ensures Valid()
      ensures store == Insert(old(store), book.product.productId, book)
      ensures book.product.productId in old(store) ==> store == old(store)
      ensures deliveries == FanOut(|listeners|, KindFor(old(store), book.product.productId), book)
    {
      var id := book.product.productId;
      if id !in store {
        store := Insert(store, id, book);
        deliveries := Notify(|listeners|, Add, book);
      } else {
        store := Insert(store, id, book);
        deliveries := Notify(|listeners|, Update, book);
      }
    }

    /** Best bid and offer of the recorded book; "Product not found" for an unseen id. */
    function GetBestBidOffer(productId: string): (r: Result<BidOffer>)
      reads this
      requires Valid()
      ensures productId !in store <==> r == Err(NotFound)
      ensures productId in store ==> r == Ok(BestBidOffer(store[productId]))
    {
      if productId in store then Ok(BestBidOffer(store[productId])) else Err(NotFound)
    }

    /**
     * Collapses each side of the recorded book into one level whose quantity
     * is the total quantity and whose price is the volume-weighted average.
     * The source divides without checking the total, so a side whose
     * quantities sum to zero is excluded by the precondition.
     */
    method AggregateDepth(productId: string) returns (r: Result<OrderBook>)
      requires Valid()
      requires productId in store ==>
                 TotalQuantity(store[productId].bidStack) != 0 && TotalQuantity(store[productId].offerStack) != 0
      ensures productId !in store <==> r == Err(NotFound)
      ensures productId in store ==>
                var book := store[productId];
                r == Ok(OrderBook(book.product, [Aggregate(book.bidStack, BID)], [Aggregate(book.offerStack, OFFER)]))
    {
      if productId !in store {
        return Err(NotFound);
      }
      var book := store[productId];
      var totalBidCost, totalBidVolume := 0.0, 0;
      var totalOfferCost, totalOfferVolume := 0.0, 0;
      var i := 0;
      while i < Depth
        invariant 0 <= i <= Depth
        invariant totalBidVolume == TotalQuantity(book.bidStack[..i]) && totalBidCost == TotalCost(book.bidStack[..i])
        invariant totalOfferVolume == TotalQuantity(book.offerStack[..i]) && totalOfferCost == TotalCost(book.offerStack[..i])
      {
        TotalsStep(book.bidStack, i);
        TotalsStep(book.offerStack, i);
        totalBidVolume := totalBidVolume + book.bidStack[i].quantity;
        totalBidCost := totalBidCost + Cost(book.bidStack[i]);
        totalOfferVolume := totalOfferVolume + book.offerStack[i].quantity;
        totalOfferCost := totalOfferCost + Cost(book.offerStack[i]);
        i := i + 1;
      }
      assert book.bidStack[..Depth] == book.bidStack && book.offerStack[..Depth] == book.offerStack;
      var averageBidPrice := totalBidCost / totalBidVolume as real;
      var averageOfferPrice := totalOfferCost / totalOfferVolume as real;
      r := Ok(OrderBook(book.product, [Order(averageBidPrice, totalBidVolume, BID)],
                        [Order(averageOfferPrice, totalOfferVolume, OFFER)]));
    }
  }

  /**
   * `BondMarketDataConnector::parse`: split the line on commas, look the
   * product up in the registry (inserting a default bond for an unknown
   * id), read the ten levels and hand the book to the service.
   */
  class BondMarketDataConnector {
    const service: BondMarketDataService
    const products: BondProductService

    constructor (service: BondMarketDataService, products: BondProductService)
      ensures this.service == service && this.products == products
    {
      this.service := service;
      this.products := products;
    }

    method Parse(line: string) returns (r: Result<seq<Delivery<OrderBook>>>)
      requires service.Valid()
      modifies service, products
      ensures service.Valid()
      ensures Split(line, ',') == [] ==> r == Err(MissingField) && unchanged(service) && unchanged(products)
      ensures Split(line, ',') != [] ==> products.bondMapper == Lookup(old(products.bondMapper), Split(line, ',')[0]).0
      ensures r.Ok? <==> |Split(line, ',')| >= LineFields && LevelsRead(Split(line, ','), Depth)
      ensures r.Ok? ==>
                var fields := Split(line, ',');
                var book := OrderBook(Lookup(old(products.bondMapper), fields[0]).1, BidStack(fields), OfferStack(fields));
                service.store == Insert(old(service.store), book.product.productId, book) &&
                r.value == FanOut(|service.listeners|, KindFor(old(service.store), book.product.productId), book)
      ensures r.Err? ==> unchanged(service)
    {
      var split := SplitString(line, ',');
      if |split| == 0 {
        return Err(MissingField);
      }
      var bond := products.GetData(split[0]);
      var levels := ParseLevels(split);
      if levels.Err? {
        return Err(levels.error);
      }
      var book := OrderBook(bond, levels.value.0, levels.value.1);
      var deliveries := service.OnMessage(book);
      r := Ok(deliveries);
    }
  }
}
