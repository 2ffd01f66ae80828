/**
 * Positions (`BondPositionService`): one position per product, made of a
 * signed quantity per trading book, created on the first trade in the
 * product and updated in place by every later one.
 *
 * `Position` lives in base/positionservice.hpp, which is not part of this
 * model. Its arithmetic is taken to be this: a trade adds its quantity to its
 * book's entry when it is a BUY and subtracts it when it is a SELL, a book
 * seen for the first time starts at zero, and the aggregate position is the
 * sum over the books.
 */
module Positions {
  import opened Soa
  import opened Products
  import opened TradeBooking

  datatype BookPosition = BookPosition(book: string, quantity: int)

  /** A product's position: its entries per book, in the order the books were first traded. */
  datatype Position = Position(product: Bond, books: seq<BookPosition>)

  /** The signed quantity a trade contributes. */
  function Signed(trade: Trade): int
  {
    if trade.side == BUY then trade.quantity else -trade.quantity
  }

  /** The quantity held in `book` (zero for a book never traded). */
  function QuantityIn(books: seq<BookPosition>, book: string): int
  {
    if books == [] then 0
    else if books[0].book == book then books[0].quantity
    else QuantityIn(books[1..], book)
  }

  /** Sum of the quantities over all books. */
  function Aggregate(books: seq<BookPosition>): int
  {
    if books == [] then 0 else books[0].quantity + Aggregate(books[1..])
  }

  /** Adds `delta` to the entry for `book`, appending an entry when there is none. */
  function AddToBook(books: seq<BookPosition>, book: string, delta: int): (r: seq<BookPosition>)
    ensures forall b :: QuantityIn(r, b) == QuantityIn(books, b) + (if b == book then delta else 0)
    ensures Aggregate(r) == Aggregate(books) + delta
  {
    if books == [] then [BookPosition(book, delta)]
    else if books[0].book == book then [BookPosition(book, books[0].quantity + delta)] + books[1..]
    else
      var rest := AddToBook(books[1..], book, delta);
      assert ([books[0]] + rest)[1..] == rest;
      [books[0]] + rest
  }

  /** A new position in the product: no books. */
  function NewPosition(product: Bond): (p: Position)
    ensures p.product == product && Aggregate(p.books) == 0
    ensures forall b :: QuantityIn(p.books, b) == 0
  {
    Position(product, [])
  }

  /**
   * `Position::UpdatePosition` as modelled: the trade's book moves by the
   * signed quantity, every other book keeps its quantity, and so the
   * aggregate moves by the signed quantity.
   */
  function UpdatePosition(p: Position, trade: Trade): (r: Position)
    ensures r.product == p.product
    ensures QuantityIn(r.books, trade.bookId) == QuantityIn(p.books, trade.bookId) + Signed(trade)
    ensures forall b :: b != trade.bookId ==> QuantityIn(r.books, b) == QuantityIn(p.books, b)
    ensures Aggregate(r.books) == Aggregate(p.books) + Signed(trade)
  {
    Position(p.product, AddToBook(p.books, trade.bookId, Signed(trade)))
  }

  /** The store after `AddTrade`: the product's position, created if need be, with the trade applied. */
  function AfterTrade(store: map<string, Position>, trade: Trade): (r: map<string, Position>)
    ensures r.Keys == store.Keys + {trade.product.productId}
    ensures forall id :: id in store && id != trade.product.productId ==> r[id] == store[id]
  {
    var id := trade.product.productId;
    var current := if id in store then store[id] else NewPosition(trade.product);
    store[id := UpdatePosition(current, trade)]
  }

  /** The store after a series of trades, from empty. */
  function Positions(trades: seq<Trade>): map<string, Position>
  {
    if trades == [] then map[] else AfterTrade(Positions(trades[..|trades| - 1]), trades[|trades| - 1])
  }

  /** The product ids that occur in a series of trades. */
  function TradedIds(trades: seq<Trade>): set<string>
  {
    set i | 0 <= i < |trades| :: trades[i].product.productId
  }

  /** Sum of the signed quantities of the trades in product `id` (and book `book`, when given). */
  function NetFor(trades: seq<Trade>, id: string, book: Option<string>): int
  {
    if trades == [] then 0
    else
      var t := trades[|trades| - 1];
      NetFor(trades[..|trades| - 1], id, book)
        + (if t.product.productId == id && (book.None? || book.value == t.bookId) then Signed(t) else 0)
  }

  datatype Option<T> = None | Some(value: T)

  /** What a position holds: in total, or in one book. */
  function Held(p: Position, book: Option<string>): int
  {
    if book.None? then Aggregate(p.books) else QuantityIn(p.books, book.value)
  }

  /** After any series of trades there is exactly one stored position per product id traded. */
  lemma {:induction false} PositionKeys(trades: seq<Trade>)
    ensures Positions(trades).Keys == TradedIds(trades)
  {
    if trades != [] {
      var init := trades[..|trades| - 1];
      PositionKeys(init);
      TradedIdsLast(trades);
    }
  }

  /** The ids traded in a series are those traded before its last trade, plus the last trade's. */
  lemma TradedIdsLast(trades: seq<Trade>)
    requires trades != []
    ensures TradedIds(trades) == TradedIds(trades[..|trades| - 1]) + {trades[|trades| - 1].product.productId}
  {
    var init := trades[..|trades| - 1];
    forall id | id in TradedIds(trades)
      ensures id in TradedIds(init) + {trades[|trades| - 1].product.productId}
    {
      var i :| 0 <= i < |trades| && trades[i].product.productId == id;
      if i < |init| {
        assert init[i] == trades[i];
      }
    }
    forall id | id in TradedIds(init)
      ensures id in TradedIds(trades)
    {
      var i :| 0 <= i < |init| && init[i].product.productId == id;
      assert trades[i] == init[i];
    }
  }

  /**
   * Each stored position's aggregate, and its quantity in each book, is the
   * running sum of the signed quantities of that product's trades (in that
   * book): +100 then -30 in one book leaves 70, and trades in another book
   * change only the aggregate.
   */
  lemma {:induction false} PositionsAccumulate(trades: seq<Trade>, id: string, book: Option<string>)
    requires id in Positions(trades)
    ensures Held(Positions(trades)[id], book) == NetFor(trades, id, book)
  {
    var init, last := trades[..|trades| - 1], trades[|trades| - 1];
    if id in Positions(init) {
      PositionsAccumulate(init, id, book);
    } else {
      PositionKeys(init);
      NetForUntraded(init, id, book);
    }
  }

  /** A product never traded has net quantity zero. */
  lemma {:induction false} NetForUntraded(trades: seq<Trade>, id: string, book: Option<string>)
    requires id !in TradedIds(trades)
    ensures NetFor(trades, id, book) == 0
  {
    if trades != [] {
      var init := trades[..|trades| - 1];
      TradedIdsLast(trades);
      NetForUntraded(init, id, book);
    }
  }

  /** So the number of positions is the number of distinct product ids traded. */
  lemma PositionCount(trades: seq<Trade>)
    ensures |Positions(trades)| == |TradedIds(trades)|
  {
    PositionKeys(trades);
  }

  class BondPositionService {
    var store: map<string, Position>
    const listeners: seq<string>

    constructor (listeners: seq<string>)
      ensures store == map[] && this.listeners == listeners
    {
      store := map[];
      this.listeners := listeners;
    }

    /**
     * Applies the trade to its product's position, creating the position on
     * the product's first trade, and notifies every listener once with the
     * stored position after the trade: add when it was created, update
     * otherwise. No other product's position changes.
     */
    method AddTrade(trade: Trade) returns (deliveries: seq<Delivery<Position>>)
      modifies this
      ensures store == AfterTrade(old(store), trade)
      ensures deliveries == FanOut(|listeners|, KindFor(old(store), trade.product.productId), store[trade.product.productId])
    {
      var productId := trade.product.productId;
      if productId !in store {
        var newPosition := NewPosition(trade.product);
        newPosition := UpdatePosition(newPosition, trade);
        store := Insert(store, productId, newPosition);
        deliveries := Notify(|listeners|, Add, newPosition);
      } else {
        var position := store[productId];
        position := UpdatePosition(position, trade);
        store := store[productId := position];
        deliveries := Notify(|listeners|, Update, position);
      }
    }

    /** Positions have no connector: a message changes nothing and notifies no one. */
    method OnMessage(data: Position) returns (deliveries: seq<Delivery<Position>>)
      ensures deliveries == []
    {
      deliveries := [];
    }
  }

  /** Applies every trade it is told was added; updates and removals are ignored. */
  class BondTradesServiceListener {
    const listeningService: BondPositionService

    constructor (listeningService: BondPositionService)
      ensures this.listeningService == listeningService
    {
      this.listeningService := listeningService;
    }

    method Process(kind: Kind, data: Trade) returns (deliveries: seq<Delivery<Position>>)
      modifies listeningService
      ensures kind == Add ==> listeningService.store == AfterTrade(old(listeningService.store), data)
      ensures kind == Add ==>
                deliveries == FanOut(|listeningService.listeners|, KindFor(old(listeningService.store), data.product.productId),
                                     listeningService.store[data.product.productId])
      ensures kind != Add ==> deliveries == [] && unchanged(listeningService)
    {
      if kind == Add {
        deliveries := listeningService.AddTrade(data);
      } else {
        deliveries := [];
      }
    }
  }

  /** Persists every position it is told was added or updated; removals are ignored. */
  class BondPositionServiceListener {
    const listeningService: HistoricalDataService<Position>

    constructor (listeningService: HistoricalDataService<Position>)
      ensures this.listeningService == listeningService
    {
      this.listeningService := listeningService;
    }

    method Process(kind: Kind, data: Position)
      modifies listeningService
      ensures listeningService.persisted == old(listeningService.persisted) + (if kind == Remove then [] else [data])
    {
      if kind != Remove {
        listeningService.PersistData(data.product.productId, data);
      }
    }
  }
}
