/**
 * Trade booking (`BondTradeBookingService`): trades read from the trades
 * file are stored under their trade id and booked; fills coming back from
 * the execution service are booked directly, into the books TRSY1, TRSY2
 * and TRSY3 in turn.
 *
 * `Trade` and `Side` live in base/tradebookingservice.hpp, which is not part
 * of this model; their fields are taken from the constructor calls made here.
 */
module TradeBooking {
  import opened Soa
  import opened Numerals
  import opened FileConnector
  import opened Products
  import opened MarketData
  import opened AlgoExecution

  datatype Side = BUY | SELL

  datatype Trade = Trade(product: Bond, tradeId: string, price: real, bookId: string, quantity: int, side: Side)

  /**
   * The fields of a trades line: product id, trade id, price (a plain
   * decimal read by `std::stod`), book id, quantity (`std::stol`) and side,
   * where "0" is BUY and anything else SELL. `bond` is the registry's entry
   * for field 0.
   */
  function ParseTrade(fields: seq<string>, bond: Bond): (r: Result<Trade>)
    ensures |fields| < 6 ==> r == Err(MissingField)
    ensures r.Ok? <==> |fields| >= 6 && Stod(fields[2]).Ok? && Stol(fields[4]).Ok?
    ensures r.Err? && |fields| >= 6 ==> r.error == BadNumber
    ensures r.Ok? ==> r.value.product == bond && r.value.tradeId == fields[1] && r.value.bookId == fields[3]
    ensures r.Ok? ==> r.value.price == Stod(fields[2]).value && r.value.quantity == Stol(fields[4]).value
    ensures r.Ok? ==> (r.value.side == BUY <==> fields[5] == "0")
  {
    if |fields| < 6 then Err(MissingField)
    else
      var price := Stod(fields[2]);
      var quantity := Stol(fields[4]);
      if price.Err? then Err(price.error)
      else if quantity.Err? then Err(quantity.error)
      else Ok(Trade(bond, fields[1], price.value, fields[3], quantity.value, if fields[5] == "0" then BUY else SELL))
  }

  class BondTradeBookingService {
    /** Trades read from file, by trade id. */
    var store: map<string, Trade>
    const listeners: seq<string>

    constructor (listeners: seq<string>)
      ensures store == map[] && this.listeners == listeners
    {
      store := map[];
      this.listeners := listeners;
    }

    /** Stores the trade under its id (the first trade with an id is kept) and books it. */
    method OnMessage(data: Trade) returns (deliveries: seq<Delivery<Trade>>)
      modifies this
      ensures store == Insert(old(store), data.tradeId, data)
      ensures deliveries == FanOut(|listeners|, Add, data)
    {
      store := Insert(store, data.tradeId, data);
      deliveries := BookTrade(data);
    }

    /** Every listener receives exactly one add of the trade; the store is not touched. */
    method BookTrade(trade: Trade) returns (deliveries: seq<Delivery<Trade>>)
      ensures |deliveries| == |listeners|
      ensures forall i :: 0 <= i < |deliveries| ==> deliveries[i] == Delivery(i, Add, trade)
    {
      deliveries := Notify(|listeners|, Add, trade);
    }
  }

  /**
   * `BondTradesConnector::parse`: split the line, read the fields, look the
   * product up in the registry and hand the trade to the service.
   */
  class BondTradesConnector {
    const service: BondTradeBookingService
    const products: BondProductService

    constructor (service: BondTradeBookingService, products: BondProductService)
      ensures this.service == service && this.products == products
    {
      this.service := service;
      this.products := products;
    }

    method Parse(line: string) returns (r: Result<seq<Delivery<Trade>>>)
      modifies service, products
      ensures var fields := Split(line, ',');
              ParseTrade(fields, DefaultBond()).Err? ==>
                r == Err(ParseTrade(fields, DefaultBond()).error) && unchanged(service) && unchanged(products)
      ensures var fields := Split(line, ',');
              r.Ok? ==>
                var lookup := Lookup(old(products.bondMapper), fields[0]);
                var trade := ParseTrade(fields, lookup.1).value;
                products.bondMapper == lookup.0 &&
                service.store == Insert(old(service.store), trade.tradeId, trade) &&
                r.value == FanOut(|service.listeners|, Add, trade)
      ensures r.Ok? <==> ParseTrade(Split(line, ','), DefaultBond()).Ok?
    {
      var split := SplitString(line, ',');
      var check := ParseTrade(split, DefaultBond());
      if check.Err? {
        return Err(check.error);
      }
      var bond := products.GetData(split[0]);
      var trade := ParseTrade(split, bond);
      var deliveries := service.OnMessage(trade.value);
      r := Ok(deliveries);
    }
  }

  /** The books fills are booked into, in turn. */
  const TradeBooks: seq<string> := ["TRSY1", "TRSY2", "TRSY3"]

  /**
   * The trade booked for a fill: the execution's product and price, the
   * literal id "tradeid", visible plus hidden quantity, and BUY for a fill
   * on the OFFER side, SELL for one on the BID side.
   */
  function TradeFor(order: ExecutionOrder, bookId: string): (t: Trade)
    ensures t.product == order.product && t.price == order.price && t.bookId == bookId
    ensures t.tradeId == "tradeid"
    ensures t.quantity == order.visibleQuantity + order.hiddenQuantity
    ensures t.side == BUY <==> order.side == OFFER
  {
    Trade(order.product, "tradeid", order.price, bookId,
          order.visibleQuantity + order.hiddenQuantity, if order.side == OFFER then BUY else SELL)
  }

  /** The trades the execution listener books for a series of notifications, from its initial state. */
  function Booked(events: seq<(Kind, ExecutionOrder)>): seq<Trade>
  {
    if events == [] then []
    else
      var prev := Booked(events[..|events| - 1]);
      var (kind, order) := events[|events| - 1];
      if kind == Add then prev + [TradeFor(order, TradeBooks[|prev| % |TradeBooks|])] else prev
  }

  function AddCount(events: seq<(Kind, ExecutionOrder)>): nat
  {
    if events == [] then 0 else AddCount(events[..|events| - 1]) + (if events[|events| - 1].0 == Add then 1 else 0)
  }

  /**
   * One trade per add, none for an update or a removal; the k-th trade
   * (0-based) goes to TRSY1, TRSY2, TRSY3 for k mod 3 = 0, 1, 2, and
   * mirrors the k-th added fill.
   */
  lemma {:induction false} BookedRotates(events: seq<(Kind, ExecutionOrder)>)
    ensures |Booked(events)| == AddCount(events)
    ensures forall k :: 0 <= k < |Booked(events)| ==> Booked(events)[k].bookId == TradeBooks[k % 3]
  {
    if events != [] {
      BookedRotates(events[..|events| - 1]);
    }
  }

  class BondExecutionServiceListener {
    const listeningService: BondTradeBookingService
    /** Index into `TradeBooks` of the book of the next trade. */
    var curPtr: nat
    /** The notifications received so far, oldest first. */
    ghost var events: seq<(Kind, ExecutionOrder)>

    ghost predicate Valid()
      reads this
    {
      curPtr == |Booked(events)| % |TradeBooks|
    }

    constructor (listeningService: BondTradeBookingService)
      ensures Valid() && events == [] && curPtr == 0 && this.listeningService == listeningService
    {
      this.listeningService := listeningService;
      curPtr := 0;
      events := [];
    }

    /**
     * On an add: books the trade for the fill into the current book, then
     * moves to the next book. Updates and removals book nothing and leave
     * the rotation where it is.
     */
    method Process(kind: Kind, data: ExecutionOrder) returns (deliveries: seq<Delivery<Trade>>)
      requires Valid()
      modifies this
      ensures Valid() && events == old(events) + [(kind, data)]
      ensures kind == Add ==>
                Booked(events) == old(Booked(events)) + [TradeFor(data, TradeBooks[old(curPtr)])] &&
                deliveries == FanOut(|listeningService.listeners|, Add, TradeFor(data, TradeBooks[old(curPtr)]))
      ensures kind != Add ==> Booked(events) == old(Booked(events)) && deliveries == [] && curPtr == old(curPtr)
    {
      if kind == Add {
        var trade := Trade(data.product, "tradeid", data.price, TradeBooks[curPtr],
                           data.visibleQuantity + data.hiddenQuantity, if data.side == OFFER then BUY else SELL);
        deliveries := listeningService.BookTrade(trade);
        curPtr := (curPtr + 1) % |TradeBooks|;
      } else {
        deliveries := [];
      }
      events := events + [(kind, data)];
      assert events[..|events| - 1] == old(events);
    }
  }
}
