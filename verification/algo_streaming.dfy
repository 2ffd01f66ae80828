/**
 * Algorithmic streaming (`BondAlgoStreamingService`): every price it hears
 * of becomes a two-sided quote at mid minus and plus half the spread, shown
 * in a visible size that alternates between 1,000,000 and 2,000,000 with
 * twice that size hidden.
 *
 * `PriceStreamOrder` and `PriceStream` live in base/streamingservice.hpp,
 * which is not part of this model; their fields are taken from the
 * constructor calls made here.
 */
module AlgoStreaming {
  import opened Soa
  import opened Products
  import opened MarketData
  import opened Pricing

  datatype PriceStreamOrder = PriceStreamOrder(price: real, visibleQuantity: int, hiddenQuantity: int, side: PricingSide)

  datatype PriceStream = PriceStream(product: Bond, bidOrder: PriceStreamOrder, offerOrder: PriceStreamOrder)

  /** The wrapper the engine hands its listeners. */
  datatype AlgoStream = AlgoStream(priceStream: PriceStream)

  /** The visible sizes the engine shows, in turn. */
  const VisVolumes: seq<int> := [1000000, 2000000]

  /**
   * The quote for a price: bid at mid - spread/2 and offer at mid +
   * spread/2, both showing `visible` with twice that hidden.
   */
  function QuoteFor(price: Price, bond: Bond, visible: int): (s: PriceStream)
    ensures s.product == bond
    ensures s.bidOrder == PriceStreamOrder(BidPrice(price), visible, 2 * visible, BID)
    ensures s.offerOrder == PriceStreamOrder(OfferPrice(price), visible, 2 * visible, OFFER)
    ensures s.offerOrder.price - s.bidOrder.price == price.bidOfferSpread
  {
    PriceStream(bond,
                PriceStreamOrder(price.mid - price.bidOfferSpread / 2.0, visible, 2 * visible, BID),
                PriceStreamOrder(price.mid + price.bidOfferSpread / 2.0, visible, 2 * visible, OFFER))
  }

  /** The visible size of the `k`-th quote (0-based): 1,000,000 for even k, 2,000,000 for odd k. */
  function VisibleAt(k: nat): (v: int)
    ensures v == (if k % 2 == 0 then 1000000 else 2000000)
  {
    VisVolumes[k % |VisVolumes|]
  }

  /** The sizes repeat with period two, the number of tiers. */
  lemma VisiblePeriod(k: nat)
    ensures VisibleAt(k + |VisVolumes|) == VisibleAt(k) && VisibleAt(k + 1) != VisibleAt(k)
  {
  }

  class BondAlgoStreamingService {
    var store: map<string, AlgoStream>
    /** Index into `VisVolumes` of the size of the next quote. */
    var curPtr: nat
    const listeners: seq<string>
    const products: BondProductService
    /** How many quotes have been made so far. */
    ghost var quotes: nat

    ghost predicate Valid()
      reads this
    {
      curPtr == quotes % |VisVolumes|
    }

    constructor (listeners: seq<string>, products: BondProductService)
      ensures Valid() && quotes == 0 && store == map[]
      ensures this.listeners == listeners && this.products == products
    {
      store := map[];
      curPtr := 0;
      quotes := 0;
      this.listeners := listeners;
      this.products := products;
    }

    /**
     * Looks the price's product up in the registry (inserting a default bond
     * for an unknown id), quotes it in the current size, moves to the next
     * size, stores the quote under the registry bond's id with `insert`,
     * and then checks for the id: since the id was just inserted, every
     * listener is told of an update, never an add.
     */
    method PublishPrice(newPrice: Price) returns (deliveries: seq<Delivery<AlgoStream>>)
      requires Valid()
      modifies this, products
      ensures Valid() && quotes == old(quotes) + 1
      ensures products.bondMapper == Lookup(old(products.bondMapper), newPrice.product.productId).0
      ensures var bond := Lookup(old(products.bondMapper), newPrice.product.productId).1;
              var stream := AlgoStream(QuoteFor(newPrice, bond, VisibleAt(old(quotes))));
              store == Insert(old(store), bond.productId, stream) &&
              deliveries == FanOut(|listeners|, Update, stream)
    {
      var bond := products.GetData(newPrice.product.productId);
      var bidOrder := PriceStreamOrder(newPrice.mid - newPrice.bidOfferSpread / 2.0,
                                       VisVolumes[curPtr], 2 * VisVolumes[curPtr], BID);
      var offerOrder := PriceStreamOrder(newPrice.mid + newPrice.bidOfferSpread / 2.0,
                                         VisVolumes[curPtr], 2 * VisVolumes[curPtr], OFFER);
      var algoStream := AlgoStream(PriceStream(bond, bidOrder, offerOrder));
      curPtr := (curPtr + 1) % |VisVolumes|;
      quotes := quotes + 1;
      store := Insert(store, bond.productId, algoStream);
      var found := bond.productId in store;
      deliveries := Notify(|listeners|, if found then Update else Add, algoStream);
    }

    /** The engine has no connector: a message changes nothing and notifies no one. */
    method OnMessage(data: AlgoStream) returns (deliveries: seq<Delivery<AlgoStream>>)
      ensures deliveries == []
    {
      deliveries := [];
    }
  }

  /** Hands every added or updated price to the engine; removals are ignored. */
  class BondPricesServiceListener {
    const listeningService: BondAlgoStreamingService

    constructor (listeningService: BondAlgoStreamingService)
      ensures this.listeningService == listeningService
    {
      this.listeningService := listeningService;
    }

    method Process(kind: Kind, data: Price) returns (deliveries: seq<Delivery<AlgoStream>>)
      requires listeningService.Valid()
      modifies listeningService, listeningService.products
      ensures listeningService.Valid()
      ensures listeningService.quotes == old(listeningService.quotes) + (if kind == Remove then 0 else 1)
      ensures var lookup := Lookup(old(listeningService.products.bondMapper), data.product.productId);
              var stream := AlgoStream(QuoteFor(data, lookup.1, VisibleAt(old(listeningService.quotes))));
              kind != Remove ==>
                listeningService.products.bondMapper == lookup.0 &&
                listeningService.store == Insert(old(listeningService.store), lookup.1.productId, stream) &&
                deliveries == FanOut(|listeningService.listeners|, Update, stream)
      ensures kind == Remove ==> deliveries == [] && unchanged(listeningService, listeningService.products)
    {
      if kind != Remove {
        deliveries := listeningService.PublishPrice(data);
      } else {
        deliveries := [];
      }
    }
  }
}
