/**
 * The algorithmic execution engine (`BondAlgoExecutionService`): on every
 * order book it hears of, it crosses the spread when the spread is at most
 * 1/128, alternating strictly between buying the bid and lifting the offer,
 * and numbers its orders `Order_1`, `Order_2`, ...
 *
 * `ExecutionOrder` and its enumerations live in base/executionservice.hpp,
 * which is not part of this model; their fields are taken from the
 * constructor call the engine makes.
 */
module AlgoExecution {
  import opened Soa
  import opened Numerals
  import opened Products
  import opened MarketData

  datatype OrderType = FOK | IOC | MARKET | LIMIT | STOP

  datatype ExecutionOrder = ExecutionOrder(
    product: Bond,
    side: PricingSide,
    orderId: string,
    orderType: OrderType,
    price: real,
    visibleQuantity: int,
    hiddenQuantity: int,
    parentOrderId: string,
    isChildOrder: bool)

  /** The wrapper the engine hands its listeners. */
  datatype AlgoExecution = AlgoExecution(executionOrder: ExecutionOrder)

  /** The spread at or below which the engine trades. */
  const SpreadThreshold: real := 1.0 / 128.0

  /** The sides the side index cycles over, in order. */
  const SideState: seq<PricingSide> := [BID, OFFER]

  /** The side index and the next order number. */
  datatype AlgoState = AlgoState(curPtr: nat, orderNumber: nat)

  /** Side index at BID, counter at 1. */
  const Initial: AlgoState := AlgoState(0, 1)

  predicate HasTop(book: OrderBook)
  {
    |book.bidStack| > 0 && |book.offerStack| > 0
  }

  /** The book's top offer is at most 1/128 above its top bid. */
  predicate Tight(book: OrderBook)
    requires HasTop(book)
  {
    book.offerStack[0].price - book.bidStack[0].price <= SpreadThreshold
  }

  function OrderId(orderNumber: nat): string
  {
    "Order_" + NatToString(orderNumber)
  }

  /** The market order the engine sends from state `s`: the top level of the side `curPtr` selects. */
  function OrderFor(book: OrderBook, s: AlgoState): (o: ExecutionOrder)
    requires HasTop(book) && s.curPtr < |SideState|
    ensures o.side == SideState[s.curPtr] && o.orderId == OrderId(s.orderNumber) && o.product == book.product
    ensures o.side == BID ==> o.price == book.bidStack[0].price && o.visibleQuantity == book.bidStack[0].quantity
    ensures o.side == OFFER ==> o.price == book.offerStack[0].price && o.visibleQuantity == book.offerStack[0].quantity
    ensures o.orderType == MARKET && o.hiddenQuantity == 0 && o.parentOrderId == "" && !o.isChildOrder
  {
    var side := SideState[s.curPtr];
    var top := if side == BID then book.bidStack[0] else book.offerStack[0];
    ExecutionOrder(book.product, side, OrderId(s.orderNumber), MARKET, top.price, top.quantity, 0, "", false)
  }

  /**
   * One `Execute`: the orders it sends (none or one) and the state after it.
   * A wide book changes nothing.
   */
  function Step(s: AlgoState, book: OrderBook): (r: (AlgoState, seq<ExecutionOrder>))
    requires HasTop(book) && s.curPtr < |SideState|
    ensures r.0.curPtr < |SideState|
    ensures Tight(book) <==> |r.1| == 1
    ensures !Tight(book) ==> r == (s, [])
    ensures Tight(book) ==>
              r.1[0] == OrderFor(book, s) && r.0 == AlgoState((s.curPtr + 1) % |SideState|, s.orderNumber + 1)
  {
    if Tight(book) then
      (AlgoState((s.curPtr + 1) % |SideState|, s.orderNumber + 1), [OrderFor(book, s)])
    else
      (s, [])
  }

  /** The state after a series of books from the initial state, and every order sent, in order. */
  function Run(books: seq<OrderBook>): (r: (AlgoState, seq<ExecutionOrder>))
    requires forall k :: 0 <= k < |books| ==> HasTop(books[k])
    ensures r.0.curPtr < |SideState|
  {
    if books == [] then (Initial, [])
    else
      var prev := Run(books[..|books| - 1]);
      var next := Step(prev.0, books[|books| - 1]);
      (next.0, prev.1 + next.1)
  }

  /** How many of the books were tight. */
  function TightCount(books: seq<OrderBook>): nat
    requires forall k :: 0 <= k < |books| ==> HasTop(books[k])
  {
    if books == [] then 0
    else TightCount(books[..|books| - 1]) + (if Tight(books[|books| - 1]) then 1 else 0)
  }

  /**
   * Whatever the books, the engine sends one order per tight book; the k-th
   * order (0-based) is on BID for even k and OFFER for odd k and is named
   * `Order_(k+1)`; the side index is the number of orders sent modulo 2 and the
   * counter is one more than that number.
   */
  lemma {:induction false} RunInvariant(books: seq<OrderBook>)
    requires forall k :: 0 <= k < |books| ==> HasTop(books[k])
    ensures |Run(books).1| == TightCount(books)
    ensures Run(books).0 == AlgoState(|Run(books).1| % 2, |Run(books).1| + 1)
    ensures forall k :: 0 <= k < |Run(books).1| ==>
              Run(books).1[k].side == (if k % 2 == 0 then BID else OFFER) &&
              Run(books).1[k].orderId == OrderId(k + 1) &&
              Run(books).1[k].orderType == MARKET
  {
    if books != [] {
      var init := books[..|books| - 1];
      RunInvariant(init);
      var prev := Run(init);
      assert Run(books) == (Step(prev.0, books[|books| - 1]).0, prev.1 + Step(prev.0, books[|books| - 1]).1);
      StepKeepsAlternation(prev.1, books[|books| - 1]);
    }
  }

  /** One `Step` from the state a run of alternating orders leaves keeps the orders alternating. */
  lemma StepKeepsAlternation(orders: seq<ExecutionOrder>, book: OrderBook)
    requires HasTop(book)
    requires forall k :: 0 <= k < |orders| ==>
               orders[k].side == (if k % 2 == 0 then BID else OFFER) && orders[k].orderId == OrderId(k + 1) &&
               orders[k].orderType == MARKET
    ensures var next := Step(AlgoState(|orders| % 2, |orders| + 1), book);
            var all := orders + next.1;
            next.0 == AlgoState(|all| % 2, |all| + 1) &&
            forall k :: 0 <= k < |all| ==>
              all[k].side == (if k % 2 == 0 then BID else OFFER) && all[k].orderId == OrderId(k + 1) &&
              all[k].orderType == MARKET
  {
    var next := Step(AlgoState(|orders| % 2, |orders| + 1), book);
    var all := orders + next.1;
    forall k | 0 <= k < |all|
      ensures all[k].side == (if k % 2 == 0 then BID else OFFER) && all[k].orderId == OrderId(k + 1) &&
              all[k].orderType == MARKET
    {
      if k < |orders| {
        assert all[k] == orders[k];
      } else {
        assert all[k] == next.1[0];
      }
    }
  }

  /** No two orders the engine sends share an id. */
  lemma RunIdsDistinct(books: seq<OrderBook>, i: nat, j: nat)
    requires forall k :: 0 <= k < |books| ==> HasTop(books[k])
    requires i < j < |Run(books).1|
    ensures Run(books).1[i].orderId != Run(books).1[j].orderId
  {
    RunInvariant(books);
    OrderIdInjective(i + 1, j + 1);
  }

  /** Different order numbers give different ids. */
  lemma OrderIdInjective(a: nat, b: nat)
    ensures a != b ==> OrderId(a) != OrderId(b)
  {
    var prefix := "Order_";
    assert NatToString(a) == OrderId(a)[|prefix|..];
    assert NatToString(b) == OrderId(b)[|prefix|..];
    if OrderId(a) == OrderId(b) {
      NatToStringInjective(a, b);
    }
  }

  /**
   * Two tight books in a row produce orders on opposite sides, whatever
   * came before them.
   */
  lemma ConsecutiveTightAlternate(s: AlgoState, b1: OrderBook, b2: OrderBook)
    requires HasTop(b1) && HasTop(b2) && s.curPtr < |SideState|
    requires Tight(b1) && Tight(b2)
    ensures Step(s, b1).1[0].side != Step(Step(s, b1).0, b2).1[0].side
  {
  }

  class BondAlgoExecutionService {
    const listeners: seq<string>
    /** Index into `SideState` of the side of the next order. */
    var curPtr: nat
    /** Number of the next order. */
    var orderNumber: nat
    /** The books `Execute` has been called with, oldest first. */
    ghost var books: seq<OrderBook>

    /** The fields are those `Run` computes from the books seen so far. */
    ghost predicate Valid()
      reads this
    {
      (forall k :: 0 <= k < |books| ==> HasTop(books[k])) &&
      Run(books).0 == AlgoState(curPtr, orderNumber)
    }

    constructor (listeners: seq<string>)
      ensures Valid() && books == [] && this.listeners == listeners
      ensures curPtr == 0 && orderNumber == 1
    {
      this.listeners := listeners;
      curPtr := 0;
      orderNumber := 1;
      books := [];
    }

    /**
     * On a tight book: one add per listener carrying the order for the
     * indexed side, then the side index flips and the counter grows. On a
     * wide book: nothing.
     */
    method Execute(book: OrderBook) returns (deliveries: seq<Delivery<AlgoExecution>>)
      requires Valid() && HasTop(book)
      modifies this
      ensures Valid() && books == old(books) + [book]
      ensures Tight(book) ==>
                deliveries == FanOut(|listeners|, Add, AlgoExecution(OrderFor(book, old(Run(books).0))))
      ensures !Tight(book) ==> deliveries == [] && curPtr == old(curPtr) && orderNumber == old(orderNumber)
      ensures Run(books).1 == old(Run(books).1) + Step(old(Run(books).0), book).1
    {
      ghost var before := Run(books);
      ghost var step := Step(before.0, book);
      var topBid := book.bidStack[0];
      var topOffer := book.offerStack[0];
      var spread := topOffer.price - topBid.price;
      deliveries := [];
      if spread <= 1.0 / 128.0 {
        var side := SideState[curPtr];
        var volume := if side == BID then topBid.quantity else topOffer.quantity;
        var price := if side == BID then topBid.price else topOffer.price;
        var executionOrder := ExecutionOrder(book.product, side, "Order_" + NatToString(orderNumber),
                                             MARKET, price, volume, 0, "", false);
        assert executionOrder == OrderFor(book, before.0);
        deliveries := Notify(|listeners|, Add, AlgoExecution(executionOrder));
        curPtr := (curPtr + 1) % |SideState|;
        orderNumber := orderNumber + 1;
      }
      assert step.0 == AlgoState(curPtr, orderNumber);
      books := books + [book];
      assert books[..|books| - 1] == old(books);
      assert Run(books) == (step.0, before.1 + step.1);
    }
  }

  /** Hands every added or updated book to the engine; removals are ignored. */
  class BondMarketDataServiceListener {
    const listeningService: BondAlgoExecutionService

    constructor (listeningService: BondAlgoExecutionService)
      ensures this.listeningService == listeningService
    {
      this.listeningService := listeningService;
    }

    method Process(kind: Kind, data: OrderBook) returns (deliveries: seq<Delivery<AlgoExecution>>)
      requires listeningService.Valid() && HasTop(data)
      modifies listeningService
      ensures listeningService.Valid()
      ensures listeningService.books == old(listeningService.books) + (if kind == Remove then [] else [data])
      ensures kind != Remove && Tight(data) ==>
                deliveries == FanOut(|listeningService.listeners|, Add,
                                     AlgoExecution(OrderFor(data, old(Run(listeningService.books).0))))
      ensures kind != Remove && !Tight(data) ==> deliveries == []
      ensures kind == Remove ==> deliveries == [] && unchanged(listeningService)
    {
      if kind == Remove {
        deliveries := [];
      } else {
        deliveries := listeningService.Execute(data);
      }
    }
  }

  /** Persists every execution order it is told was added; updates and removals are ignored. */
  class BondExecutionOrderServiceListener {
    const listeningService: HistoricalDataService<ExecutionOrder>

    constructor (listeningService: HistoricalDataService<ExecutionOrder>)
      ensures this.listeningService == listeningService
    {
      this.listeningService := listeningService;
    }

    method Process(kind: Kind, data: ExecutionOrder)
      modifies listeningService
      ensures listeningService.persisted == old(listeningService.persisted) + (if kind == Add then [data] else [])
    {
      if kind == Add {
        listeningService.PersistData(data.product.productId, data);
      }
    }
  }
}
