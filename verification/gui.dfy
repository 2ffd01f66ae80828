/**
 * The GUI feed (`GUIService`): prices are written to the GUI output at most
 * once per 300 ms. A price that arrives sooner after the last one written is
 * dropped, not queued. The clock is a parameter: `now` is the current time
 * in milliseconds, and one call reads it once.
 */
module Gui {
  import opened Soa
  import opened Pricing

  /** The window the service tests against; the value given to the constructor is not consulted. */
  const ThrottleMs: int := 300

  /** The price columns of a GUI line: product id, bid and offer. */
  datatype GuiRecord = GuiRecord(productId: string, bid: real, offer: real)

  function RecordOf(p: Price): (g: GuiRecord)
    ensures g.productId == p.product.productId
    ensures g.bid == BidPrice(p) && g.offer == OfferPrice(p)
    ensures g.offer - g.bid == p.bidOfferSpread
  {
    GuiRecord(p.product.productId, p.mid - p.bidOfferSpread / 2.0, p.mid + p.bidOfferSpread / 2.0)
  }

  /**
   * The throttle over a series of arrival times, from a service built at
   * time `start`: the last publication time and the indices of the
   * arrivals that were published.
   */
  function Throttle(start: int, times: seq<int>): (int, seq<nat>)
  {
    if times == [] then (start, [])
    else
      var prev := Throttle(start, times[..|times| - 1]);
      var now := times[|times| - 1];
      if now - prev.0 > ThrottleMs then (now, prev.1 + [|times| - 1]) else prev
  }

  /**
   * Whatever the arrival times: the published arrivals are in order, the
   * first comes more than 300 ms after construction, each later one more
   * than 300 ms after the one before it, and the state is the time of the
   * last one published (construction time while none is).
   */
  lemma {:induction false} ThrottleSpacing(start: int, times: seq<int>)
    ensures var sent := Throttle(start, times).1;
            forall k :: 0 <= k < |sent| ==> sent[k] < |times| && (k > 0 ==> sent[k - 1] < sent[k])
    ensures var sent := Throttle(start, times).1;
            forall k :: 0 <= k < |sent| ==>
              times[sent[k]] - (if k == 0 then start else times[sent[k - 1]]) > ThrottleMs
    ensures var sent := Throttle(start, times).1;
            Throttle(start, times).0 == if sent == [] then start else times[sent[|sent| - 1]]
  {
    if times != [] {
      var init := times[..|times| - 1];
      ThrottleSpacing(start, init);
      assert forall i :: 0 <= i < |init| ==> times[i] == init[i];
    }
  }

  /**
   * Arrivals at 0, 100 and 350 ms on a service built at 0 ms: only the one
   * at 350 ms is published, since 0 - 0 is not more than 300.
   */
  lemma FirstArrivalAtConstructionDropped()
    ensures Throttle(0, [0, 100, 350]).1 == [2]
  {
    assert [0, 100, 350][..2] == [0, 100];
    assert [0, 100][..1] == [0];
    assert [0][..0] == [];
  }

  class GUIService {
    /** Stored by the constructor and never read. */
    const throttle: int
    /** When the last price was published (construction time until then). */
    var lastTick: int
    /** The GUI output, one record per published price. */
    ghost var published: seq<GuiRecord>
    ghost const start: int
    ghost var times: seq<int>

    ghost predicate Valid()
      reads this
    {
      lastTick == Throttle(start, times).0 && |published| == |Throttle(start, times).1|
    }

    constructor (throttle: int, now: int)
      ensures Valid() && lastTick == now && published == [] && times == [] && this.throttle == throttle
    {
      this.throttle := throttle;
      lastTick := now;
      published := [];
      start := now;
      times := [];
    }

    /**
     * Publishes the price and restarts the window when more than 300 ms have
     * passed since the last publication; otherwise nothing changes.
     */
    method OnMessage(data: Price, now: int)
      requires Valid()
      modifies this
      ensures Valid() && times == old(times) + [now]
      ensures now - old(lastTick) > ThrottleMs ==> published == old(published) + [RecordOf(data)] && lastTick == now
      ensures now - old(lastTick) <= ThrottleMs ==> published == old(published) && lastTick == old(lastTick)
    {
      var diff := now - lastTick;
      if diff > 300 {
        published := published + [GuiRecord(data.product.productId, data.mid - data.bidOfferSpread / 2.0,
                                            data.mid + data.bidOfferSpread / 2.0)];
        lastTick := now;
      }
      times := times + [now];
      assert times[..|times| - 1] == old(times);
    }
  }

  /** Hands every added or updated price to the GUI; removals are ignored. */
  class BondPriceServiceListener {
    const listeningService: GUIService

    constructor (listeningService: GUIService)
      ensures this.listeningService == listeningService
    {
      this.listeningService := listeningService;
    }

    method Process(kind: Kind, data: Price, now: int)
      requires listeningService.Valid()
      modifies listeningService
      ensures listeningService.Valid()
      ensures kind != Remove ==> listeningService.times == old(listeningService.times) + [now]
      ensures kind != Remove && now - old(listeningService.lastTick) > ThrottleMs ==>
                listeningService.published == old(listeningService.published) + [RecordOf(data)] &&
                listeningService.lastTick == now
      ensures kind != Remove && now - old(listeningService.lastTick) <= ThrottleMs ==>
                listeningService.published == old(listeningService.published) &&
                listeningService.lastTick == old(listeningService.lastTick)
      ensures kind == Remove ==> unchanged(listeningService)
    {
      if kind != Remove {
        listeningService.OnMessage(data, now);
      }
    }
  }
}
