/**
 * Streaming (`BondStreamingService`): publishes the two-sided quotes of the
 * algorithmic streaming engine, one stored per product, and persists them.
 */
module Streaming {
  import opened Soa
  import opened AlgoStreaming

  class BondStreamingService {
    var store: map<string, PriceStream>
    const listeners: seq<string>

    constructor (listeners: seq<string>)
      ensures store == map[] && this.listeners == listeners
    {
      store := map[];
      this.listeners := listeners;
    }

    /** Streaming has no connector: a message changes nothing and notifies no one. */
    method OnMessage(data: PriceStream) returns (deliveries: seq<Delivery<PriceStream>>)
      ensures deliveries == []
    {
      deliveries := [];
    }

    /**
     * Checks for the product before storing: the first quote for a product
     * is stored and every listener is told of an add; later ones leave the
     * stored quote as it is (`insert`) and every listener is told of an
     * update.
     */
    method PublishPrice(priceStream: PriceStream) returns (deliveries: seq<Delivery<PriceStream>>)
      modifies this
      ensures store == Insert(old(store), priceStream.product.productId, priceStream)
      ensures priceStream.product.productId in old(store) ==> store == old(store)
      ensures deliveries == FanOut(|listeners|, KindFor(old(store), priceStream.product.productId), priceStream)
    {
      var productId := priceStream.product.productId;
      if productId !in store {
        store := Insert(store, productId, priceStream);
        deliveries := Notify(|listeners|, Add, priceStream);
      } else {
        store := Insert(store, productId, priceStream);
        deliveries := Notify(|listeners|, Update, priceStream);
      }
    }
  }

  /** Publishes the quote inside every added or updated algorithmic stream; removals are ignored. */
  class BondAlgoStreamServiceListener {
    const listeningService: BondStreamingService

    constructor (listeningService: BondStreamingService)
      ensures this.listeningService == listeningService
    {
      this.listeningService := listeningService;
    }

    method Process(kind: Kind, data: AlgoStream) returns (deliveries: seq<Delivery<PriceStream>>)
      modifies listeningService
      ensures var id := data.priceStream.product.productId;
              kind != Remove ==>
                listeningService.store == Insert(old(listeningService.store), id, data.priceStream) &&
                deliveries == FanOut(|listeningService.listeners|, KindFor(old(listeningService.store), id), data.priceStream)
      ensures kind == Remove ==> deliveries == [] && unchanged(listeningService)
    {
      if kind != Remove {
        deliveries := listeningService.PublishPrice(data.priceStream);
      } else {
        deliveries := [];
      }
    }
  }

  /** Persists every quote it is told was added or updated; removals are ignored. */
  class BondPriceStreamsServiceListener {
    const listeningService: HistoricalDataService<PriceStream>

    constructor (listeningService: HistoricalDataService<PriceStream>)
      ensures this.listeningService == listeningService
    {
      this.listeningService := listeningService;
    }

    method Process(kind: Kind, data: PriceStream)
      modifies listeningService
      ensures listeningService.persisted == old(listeningService.persisted) + (if kind == Remove then [] else [data])
    {
      if kind != Remove {
        listeningService.PersistData(data.product.productId, data);
      }
    }
  }
}
