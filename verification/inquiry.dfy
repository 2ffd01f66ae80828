/**
 * Customer inquiries (`BondInquiryService`): an inquiry arrives RECEIVED,
 * is quoted at 100.0 and becomes QUOTED, and is then confirmed and becomes
 * DONE, at which point it is published to the inquiry output.
 *
 * The listeners of this service are `BondInquiryServiceListener`s pointing
 * back at it (the only kind registered on it): on an add they force the
 * inquiry they are handed to QUOTED and resubmit it to the service. Inside
 * `SendQuote` the inquiry handed over is the stored entry itself, so the
 * resubmission moves the stored entry to DONE; that nested call is
 * `ConfirmStored` here, which is why calls nest at most two deep.
 *
 * `Inquiry` lives in base/inquiryservice.hpp, which is not part of this
 * model; its fields are taken from the constructor call made here.
 */
module Inquiries {
  import opened Soa
  import opened Numerals
  import opened FileConnector
  import opened Products
  import opened TradeBooking

  datatype InquiryState = RECEIVED | QUOTED | DONE

  datatype Inquiry = Inquiry(inquiryId: string, product: Bond, side: Side, quantity: int, price: real, state: InquiryState)

  /** The price every received inquiry is quoted at. */
  const QuotePrice: real := 100.0

  /**
   * The fields of an inquiries line: product id, inquiry id, side ("0" is
   * BUY, anything else SELL) and quantity. A parsed inquiry has price 0.0
   * and is RECEIVED. `bond` is the registry's entry for field 0.
   */
  function ParseInquiry(fields: seq<string>, bond: Bond): (r: Result<Inquiry>)
    ensures |fields| < 4 ==> r == Err(MissingField)
    ensures r.Ok? <==> |fields| >= 4 && Stol(fields[3]).Ok?
    ensures r.Ok? ==> r.value.inquiryId == fields[1] && r.value.product == bond
    ensures r.Ok? ==> (r.value.side == BUY <==> fields[2] == "0")
    ensures r.Ok? ==> r.value.quantity == Stol(fields[3]).value
    ensures r.Ok? ==> r.value.price == 0.0 && r.value.state == RECEIVED
  {
    if |fields| < 4 then Err(MissingField)
    else
      var quantity := Stol(fields[3]);
      if quantity.Err? then Err(quantity.error)
      else Ok(Inquiry(fields[1], bond, if fields[2] == "0" then BUY else SELL, quantity.value, 0.0, RECEIVED))
  }

  /** What a message or a quote leaves behind: the store, what was published, and the notifications made. */
  datatype Outcome = Outcome(store: map<string, Inquiry>, published: seq<Inquiry>, deliveries: seq<Delivery<Inquiry>>)

  function Done(q: Inquiry): Inquiry
  {
    q.(state := DONE)
  }

  /** `n` copies of `x`. */
  function Repeat<T>(x: T, n: nat): (r: seq<T>)
    ensures |r| == n && forall i :: 0 <= i < n ==> r[i] == x
  {
    if n == 0 then [] else Repeat(x, n - 1) + [x]
  }

  /**
   * The notifications of `SendQuote`'s loop over its first `i` listeners,
   * for the quoted entry `q`: each listener is handed the stored entry (the
   * first sees it QUOTED, every later one DONE), and its resubmission tells
   * every listener of an update carrying the DONE entry.
   */
  function QuoteDeliveries(q: Inquiry, n: nat, i: nat): (r: seq<Delivery<Inquiry>>)
    ensures |r| == i * (n + 1)
  {
    if i == 0 then []
    else
      QuoteDeliveries(q, n, i - 1) + [Delivery(i - 1, Add, if i == 1 then q else Done(q))] + FanOut(n, Update, Done(q))
  }

  /**
   * The `k`-th of the first `i` listeners contributes one block of `n + 1`
   * notifications: first the add handing it the stored entry (QUOTED for
   * the first listener, DONE for every later one), then one update of the
   * DONE entry to each of the `n` listeners.
   */
  lemma {:induction false} QuoteDeliveriesBlocks(q: Inquiry, n: nat, i: nat, k: nat)
    requires k < i
    ensures var r := QuoteDeliveries(q, n, i);
            r[k * (n + 1)] == Delivery(k, Add, if k == 0 then q else Done(q)) &&
            r[k * (n + 1) + 1..k * (n + 1) + n + 1] == FanOut(n, Update, Done(q))
  {
    if k < i - 1 {
      QuoteDeliveriesBlocks(q, n, i - 1, k);
      EarlierBlockKept(q, n, i, k);
    } else {
      LastBlock(q, n, i);
    }
  }

  /** The blocks of the first `i - 1` listeners are not disturbed by the `i`-th. */
  lemma EarlierBlockKept(q: Inquiry, n: nat, i: nat, k: nat)
    requires k < i - 1
    ensures var b := k * (n + 1);
            var prev := QuoteDeliveries(q, n, i - 1);
            var r := QuoteDeliveries(q, n, i);
            b + n + 1 <= |prev| && r[b] == prev[b] && r[b + 1..b + n + 1] == prev[b + 1..b + n + 1]
  {
    var prev := QuoteDeliveries(q, n, i - 1);
    var block := [Delivery(i - 1, Add, if i == 1 then q else Done(q))] + FanOut(n, Update, Done(q));
    assert QuoteDeliveries(q, n, i) == prev + block;
    var b := k * (n + 1);
    BlockEndsBefore(k, i - 1, n + 1);
    PrefixUnchanged(prev, block, b, b + n + 1);
  }

  /** The block of the `i`-th listener closes the sequence. */
  lemma LastBlock(q: Inquiry, n: nat, i: nat)
    requires i > 0
    ensures var b := (i - 1) * (n + 1);
            var r := QuoteDeliveries(q, n, i);
            r[b] == Delivery(i - 1, Add, if i == 1 then q else Done(q)) &&
            r[b + 1..b + n + 1] == FanOut(n, Update, Done(q))
  {
    var prev := QuoteDeliveries(q, n, i - 1);
    var tail := FanOut(n, Update, Done(q));
    assert QuoteDeliveries(q, n, i) == prev + ([Delivery(i - 1, Add, if i == 1 then q else Done(q))] + tail);
    BlockAppended(prev, Delivery(i - 1, Add, if i == 1 then q else Done(q)), tail, |prev|);
  }

  /** A block that starts before block `j` ends no later than block `j` starts. */
  lemma BlockEndsBefore(k: nat, j: nat, w: nat)
    requires k < j
    ensures k * w + w <= j * w
  {
    assert (k + 1) * w <= j * w;
  }

  /** Right after the prefix come the appended elements. */
  lemma BlockAppended<T>(prev: seq<T>, head: T, tail: seq<T>, b: nat)
    requires b == |prev|
    ensures (prev + ([head] + tail))[b] == head && (prev + ([head] + tail))[b + 1..b + |tail| + 1] == tail
  {
  }

  /** Appending leaves the elements and slices of the prefix as they were. */
  lemma PrefixUnchanged<T>(prev: seq<T>, block: seq<T>, lo: nat, hi: nat)
    requires lo < hi <= |prev|
    ensures (prev + block)[lo] == prev[lo] && (prev + block)[lo + 1..hi] == prev[lo + 1..hi]
  {
  }

  /**
   * `SendQuote(id, price)` with `n` listeners: the stored entry takes the
   * price and becomes QUOTED; then each listener's resubmission makes it
   * DONE and publishes it, so it ends DONE and published `n` times when
   * there is a listener, and QUOTED and unpublished when there is none. An
   * id not in the store is "not found" (`std::map::at`).
   */
  function Quote(store: map<string, Inquiry>, id: string, price: real, n: nat): (r: Result<Outcome>)
    ensures id !in store <==> r == Err(NotFound)
    ensures r.Ok? ==> r.value.store.Keys == store.Keys
    ensures r.Ok? ==> forall k :: k in store && k != id ==> r.value.store[k] == store[k]
    ensures r.Ok? ==> r.value.store[id].price == price && r.value.store[id].inquiryId == store[id].inquiryId
    ensures r.Ok? ==> r.value.store[id].state == (if n == 0 then QUOTED else DONE)
    ensures r.Ok? ==> |r.value.published| == n && forall k :: 0 <= k < n ==> r.value.published[k] == r.value.store[id]
  {
    if id !in store then Err(NotFound)
    else
      var q := store[id].(price := price, state := QUOTED);
      var final := if n == 0 then q else Done(q);
      Ok(Outcome(store[id := final], Repeat(Done(q), n), QuoteDeliveries(q, n, n)))
  }

  /**
   * `OnMessage(data)` with `n` listeners. The message is stored with
   * `emplace`, which keeps an entry already stored under the id. Then: a
   * RECEIVED message quotes the stored entry at 100.0; a QUOTED message
   * publishes the message made DONE and tells every listener of the update
   * (the stored entry is not the message, so it stays as it was); a DONE
   * message does nothing more.
   */
  function Receive(store: map<string, Inquiry>, data: Inquiry, n: nat): (r: Outcome)
    ensures r.store.Keys == store.Keys + {data.inquiryId}
    ensures data.state == DONE ==> r == Outcome(Insert(store, data.inquiryId, data), [], [])
    ensures data.state == QUOTED ==>
              r == Outcome(Insert(store, data.inquiryId, data), [Done(data)], FanOut(n, Update, Done(data)))
    ensures data.state == RECEIVED ==> |r.published| == n
  {
    var stored := Insert(store, data.inquiryId, data);
    match data.state
    case RECEIVED => Quote(stored, data.inquiryId, QuotePrice, n).value
    case QUOTED => Outcome(stored, [Done(data)], FanOut(n, Update, Done(data)))
    case DONE => Outcome(stored, [], [])
  }

  /**
   * With the one listener the pipeline registers, a new RECEIVED inquiry
   * ends stored at 100.0 and DONE, is published exactly once, DONE, and
   * causes one add (carrying the QUOTED entry) followed by one update
   * (carrying the DONE entry).
   */
  lemma NewInquiryLifecycle(store: map<string, Inquiry>, data: Inquiry)
    requires data.state == RECEIVED && data.inquiryId !in store
    ensures var done := data.(price := QuotePrice, state := DONE);
            Receive(store, data, 1) ==
              Outcome(store[data.inquiryId := done], [done],
                      [Delivery(0, Add, data.(price := QuotePrice, state := QUOTED)), Delivery(0, Update, done)])
  {
    var q := data.(price := QuotePrice, state := QUOTED);
    assert QuoteDeliveries(q, 1, 1) == [Delivery(0, Add, q)] + FanOut(1, Update, Done(q));
    assert Insert(store, data.inquiryId, data)[data.inquiryId := Done(q)] == store[data.inquiryId := Done(q)];
  }

  /**
   * With no listener, a RECEIVED inquiry stops at QUOTED; resubmitting it
   * from outside publishes a DONE copy but leaves the stored entry QUOTED,
   * because `emplace` keeps the stored entry and the state change is made
   * on the message.
   */
  lemma ResubmittedInquiryStaysQuoted(store: map<string, Inquiry>, data: Inquiry)
    requires data.state == RECEIVED && data.inquiryId !in store
    ensures var first := Receive(store, data, 0);
            var quoted := first.store[data.inquiryId];
            var second := Receive(first.store, quoted, 0);
            quoted.state == QUOTED && quoted.price == QuotePrice &&
            second.store == first.store && second.published == [Done(quoted)]
  {
  }

  class BondInquiryService {
    var store: map<string, Inquiry>
    /** Listeners of the service; each is a `BondInquiryServiceListener` on this service. */
    const listeners: seq<string>
    /** The inquiry output, in order. */
    ghost var published: seq<Inquiry>

    constructor (listeners: seq<string>)
      ensures store == map[] && published == [] && this.listeners == listeners
    {
      store := map[];
      published := [];
      this.listeners := listeners;
    }

    /** `OnMessage` as reached from a listener inside `SendQuote`: the message is the QUOTED stored entry. */
    method ConfirmStored(id: string) returns (deliveries: seq<Delivery<Inquiry>>)
      requires id in store && store[id].state == QUOTED
      modifies this
      ensures store == old(store)[id := Done(old(store)[id])]
      ensures published == old(published) + [Done(old(store)[id])]
      ensures deliveries == FanOut(|listeners|, Update, Done(old(store)[id]))
    {
      store := Insert(store, id, store[id]);
      store := store[id := store[id].(state := DONE)];
      published := published + [store[id]];
      deliveries := NotifyListeners(store[id]);
    }

    /**
     * `ProcessAdd` of listener `i` on the stored entry: the listener is
     * handed the entry, forces it to QUOTED and resubmits it.
     */
    method HandToListener(i: nat, id: string) returns (deliveries: seq<Delivery<Inquiry>>)
      requires id in store
      modifies this
      ensures var quoted := old(store)[id].(state := QUOTED);
              store == old(store)[id := Done(quoted)] && published == old(published) + [Done(quoted)] &&
              deliveries == [Delivery(i, Add, old(store)[id])] + FanOut(|listeners|, Update, Done(quoted))
    {
      deliveries := [Delivery(i, Add, store[id])];
      store := store[id := store[id].(state := QUOTED)];
      var nested := ConfirmStored(id);
      deliveries := deliveries + nested;
    }

    /** Tells every listener of an update; the listeners here ignore updates, so nothing else follows. */
    method NotifyListeners(data: Inquiry) returns (deliveries: seq<Delivery<Inquiry>>)
      ensures |deliveries| == |listeners|
      ensures forall i :: 0 <= i < |listeners| ==> deliveries[i] == Delivery(i, Update, data)
    {
      deliveries := Notify(|listeners|, Update, data);
    }

    /**
     * Sets the stored entry's price and makes it QUOTED, then hands it to
     * every listener in turn: each forces it back to QUOTED and resubmits it.
     */
    method SendQuote(inquiryId: string, price: real) returns (r: Result<seq<Delivery<Inquiry>>>)
      modifies this
      ensures var expected := Quote(old(store), inquiryId, price, |listeners|);
              (expected.Err? ==> r == Err(expected.error) && unchanged(this)) &&
              (expected.Ok? ==> r == Ok(expected.value.deliveries) && store == expected.value.store &&
                                published == old(published) + expected.value.published)
    {
      if inquiryId !in store {
        return Err(NotFound);
      }
      store := store[inquiryId := store[inquiryId].(price := price, state := QUOTED)];
      ghost var q := store[inquiryId];
      assert q == old(store)[inquiryId].(price := price, state := QUOTED);
      var deliveries := HandToAll(inquiryId, q);
      assert store == old(store)[inquiryId := if |listeners| == 0 then q else Done(q)];
      assert Quote(old(store), inquiryId, price, |listeners|) ==
             Ok(Outcome(store, Repeat(Done(q), |listeners|), deliveries));
      r := Ok(deliveries);
    }

    /** `SendQuote`'s loop: the QUOTED stored entry `q` is handed to every listener in turn. */
    method HandToAll(inquiryId: string, ghost q: Inquiry) returns (deliveries: seq<Delivery<Inquiry>>)
      requires inquiryId in store && store[inquiryId] == q && q.state == QUOTED
      modifies this
      ensures store == old(store)[inquiryId := if |listeners| == 0 then q else Done(q)]
      ensures published == old(published) + Repeat(Done(q), |listeners|)
      ensures deliveries == QuoteDeliveries(q, |listeners|, |listeners|)
    {
      var n := |listeners|;
      deliveries := [];
      var i := 0;
      while i < n
        invariant 0 <= i <= n
        invariant inquiryId in store
        invariant store == old(store)[inquiryId := if i == 0 then q else Done(q)]
        invariant published == old(published) + Repeat(Done(q), i)
        invariant deliveries == QuoteDeliveries(q, n, i)
      {
        ghost var entry := if i == 0 then q else Done(q);
        assert store[inquiryId] == entry && entry.(state := QUOTED) == q;
        var handed := HandToListener(i, inquiryId);
        assert handed == [Delivery(i, Add, entry)] + FanOut(n, Update, Done(q));
        assert QuoteDeliveries(q, n, i + 1) == deliveries + handed;
        deliveries := deliveries + handed;
        assert published == old(published) + (Repeat(Done(q), i) + [Done(q)]);
        i := i + 1;
      }
    }

    /** Stores the message with `emplace` and moves it along the RECEIVED, QUOTED, DONE cycle. */
    method OnMessage(data: Inquiry) returns (deliveries: seq<Delivery<Inquiry>>)
      modifies this
      ensures var expected := Receive(old(store), data, |listeners|);
              store == expected.store && published == old(published) + expected.published &&
              deliveries == expected.deliveries
    {
      store := Insert(store, data.inquiryId, data);
      if data.state == RECEIVED {
        var quoted := SendQuote(data.inquiryId, QuotePrice);
        deliveries := quoted.value;
      } else if data.state == QUOTED {
        var done := data.(state := DONE);
        published := published + [done];
        deliveries := NotifyListeners(done);
      } else {
        deliveries := [];
      }
    }
  }

  /**
   * A listener resubmitting inquiries it is told were added, forced to
   * QUOTED; updates and removals are ignored. Called with an inquiry that
   * is not the stored entry, the forced state only reaches the message.
   */
  class BondInquiryServiceListener {
    const listeningService: BondInquiryService

    constructor (listeningService: BondInquiryService)
      ensures this.listeningService == listeningService
    {
      this.listeningService := listeningService;
    }

    method Process(kind: Kind, data: Inquiry) returns (deliveries: seq<Delivery<Inquiry>>)
      modifies listeningService
      ensures kind == Add ==>
                var expected := Receive(old(listeningService.store), data.(state := QUOTED), |listeningService.listeners|);
                listeningService.store == expected.store &&
                listeningService.published == old(listeningService.published) + expected.published &&
                deliveries == expected.deliveries
      ensures kind != Add ==> deliveries == [] && unchanged(listeningService)
    {
      if kind == Add {
        deliveries := listeningService.OnMessage(data.(state := QUOTED));
      } else {
        deliveries := [];
      }
    }
  }

  /**
   * `BondInquirySubscriber::parse`: split the line, look the product up in
   * the registry (this happens before the quantity is read), build the
   * RECEIVED inquiry and hand it to the service.
   */
  class BondInquirySubscriber {
    const service: BondInquiryService
    const products: BondProductService

    constructor (service: BondInquiryService, products: BondProductService)
      ensures this.service == service && this.products == products
    {
      this.service := service;
      this.products := products;
    }

    method Parse(line: string) returns (r: Result<seq<Delivery<Inquiry>>>)
      modifies service, products
      ensures Split(line, ',') == [] ==> r == Err(MissingField) && unchanged(service) && unchanged(products)
      ensures var fields := Split(line, ',');
              fields != [] ==> products.bondMapper == Lookup(old(products.bondMapper), fields[0]).0
      ensures r.Ok? <==> Split(line, ',') != [] && ParseInquiry(Split(line, ','), DefaultBond()).Ok?
      ensures r.Err? ==> unchanged(service)
      ensures var fields := Split(line, ',');
              r.Ok? ==>
                var inquiry := ParseInquiry(fields, Lookup(old(products.bondMapper), fields[0]).1).value;
                var expected := Receive(old(service.store), inquiry, |service.listeners|);
                service.store == expected.store && service.published == old(service.published) + expected.published &&
                r.value == expected.deliveries
    {
      var split := SplitString(line, ',');
      if |split| == 0 {
        return Err(MissingField);
      }
      var bond := products.GetData(split[0]);
      var inquiry := ParseInquiry(split, bond);
      if inquiry.Err? {
        return Err(inquiry.error);
      }
      var deliveries := service.OnMessage(inquiry.value);
      r := Ok(deliveries);
    }
  }
}
