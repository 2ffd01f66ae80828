/**
 * Risk (`BondRiskService`): the PV01 of each product's position, and the
 * PV01 of a bucketed sector of products as the sum over the sector.
 *
 * `PV01` and `BucketedSector` live in base/riskservice.hpp, which is not part
 * of this model; their fields are taken from the constructor calls made here.
 */
module Risk {
  import opened Soa
  import opened Products
  import opened Positions

  /** The risk of one product's position: PV01 and the quantity it is for. */
  datatype PV01 = PV01(product: Bond, pv01: real, quantity: int)

  /** A named group of products, which may list a product more than once. */
  datatype BucketedSector = BucketedSector(products: seq<Bond>, name: string)

  /** The risk of a sector. */
  datatype SectorRisk = SectorRisk(sector: BucketedSector, pv01: real, quantity: int)

  /** The risk of a position: aggregate times the product's PV01 per unit, for the aggregate quantity. */
  function RiskOf(position: Position): (r: PV01)
    ensures r.product == position.product && r.quantity == Aggregate(position.books)
    ensures r.pv01 == r.quantity as real * position.product.pv01
  {
    var aggregate := Aggregate(position.books);
    PV01(position.product, aggregate as real * position.product.pv01, aggregate)
  }

  /** PV01 summed over the listed products that have a stored risk, first to last. */
  function SectorPV01(store: map<string, PV01>, products: seq<Bond>): real
  {
    if products == [] then 0.0
    else
      var p := products[|products| - 1];
      SectorPV01(store, products[..|products| - 1]) + (if p.productId in store then store[p.productId].pv01 else 0.0)
  }

  /** Quantity summed over the listed products that have a stored risk, first to last. */
  function SectorQuantity(store: map<string, PV01>, products: seq<Bond>): int
  {
    if products == [] then 0
    else
      var p := products[|products| - 1];
      SectorQuantity(store, products[..|products| - 1]) + (if p.productId in store then store[p.productId].quantity else 0)
  }

  /** Products with no stored risk are skipped: a sector with none of them recorded sums to 0.0 and 0. */
  lemma {:induction false} SectorUnrecorded(store: map<string, PV01>, products: seq<Bond>)
    requires forall k :: 0 <= k < |products| ==> products[k].productId !in store
    ensures SectorPV01(store, products) == 0.0 && SectorQuantity(store, products) == 0
  {
    if products != [] {
      SectorUnrecorded(store, products[..|products| - 1]);
    }
  }

  /** The sector sums are additive: the risk of two lists put together is the sum of their risks. */
  lemma {:induction false} SectorAdditive(store: map<string, PV01>, a: seq<Bond>, b: seq<Bond>)
    ensures SectorPV01(store, a + b) == SectorPV01(store, a) + SectorPV01(store, b)
    ensures SectorQuantity(store, a + b) == SectorQuantity(store, a) + SectorQuantity(store, b)
  {
    if b != [] {
      var init := b[..|b| - 1];
      SectorAdditive(store, a, init);
      assert (a + b)[..|a + b| - 1] == a + init;
      assert (a + b)[|a + b| - 1] == b[|b| - 1];
    } else {
      assert a + b == a;
    }
  }

  /** A sector of two recorded products sums their PV01s and quantities (10.0 and 5.0 give 15.0). */
  lemma SectorOfTwo(store: map<string, PV01>, x: Bond, y: Bond)
    requires x.productId in store && y.productId in store
    ensures SectorPV01(store, [x, y]) == store[x.productId].pv01 + store[y.productId].pv01
    ensures SectorQuantity(store, [x, y]) == store[x.productId].quantity + store[y.productId].quantity
  {
    assert [x, y][..1] == [x];
    assert [x][..0] == [];
    assert SectorPV01(store, [x]) == store[x.productId].pv01;
    assert SectorQuantity(store, [x]) == store[x.productId].quantity;
  }

  class BondRiskService {
    var store: map<string, PV01>
    const listeners: seq<string>

    constructor (listeners: seq<string>)
      ensures store == map[] && this.listeners == listeners
    {
      store := map[];
      this.listeners := listeners;
    }

    /** Risk has no connector: a message changes nothing and notifies no one. */
    method OnMessage(data: PV01) returns (deliveries: seq<Delivery<PV01>>)
      ensures deliveries == []
    {
      deliveries := [];
    }

    /**
     * Computes the position's risk and notifies every listener with it: add
     * for a product with no stored risk, update otherwise. The store uses
     * `insert`, so a product keeps the first risk recorded for it even
     * though listeners are told of the new one.
     */
    method AddPosition(position: Position) returns (deliveries: seq<Delivery<PV01>>)
      modifies this
      ensures store == Insert(old(store), position.product.productId, RiskOf(position))
      ensures position.product.productId in old(store) ==> store == old(store)
      ensures deliveries == FanOut(|listeners|, KindFor(old(store), position.product.productId), RiskOf(position))
    {
      var product := position.product;
      var aggregate := Aggregate(position.books);
      var risk := PV01(product, aggregate as real * product.pv01, aggregate);
      assert risk == RiskOf(position);
      if product.productId !in store {
        store := Insert(store, product.productId, risk);
        deliveries := Notify(|listeners|, Add, risk);
      } else {
        store := Insert(store, product.productId, risk);
        deliveries := Notify(|listeners|, Update, risk);
      }
    }

    /**
     * The sector's risk: PV01 and quantity summed over its products that
     * have a stored risk. The store is only read.
     */
    method GetBucketedRisk(sector: BucketedSector) returns (r: SectorRisk)
      ensures r == SectorRisk(sector, SectorPV01(store, sector.products), SectorQuantity(store, sector.products))
    {
      var totalPV01 := 0.0;
      var totalPosition := 0;
      var i := 0;
      while i < |sector.products|
        invariant 0 <= i <= |sector.products|
        invariant totalPV01 == SectorPV01(store, sector.products[..i])
        invariant totalPosition == SectorQuantity(store, sector.products[..i])
      {
        var product := sector.products[i];
        assert sector.products[..i + 1][..i] == sector.products[..i];
        if product.productId in store {
          totalPV01 := totalPV01 + store[product.productId].pv01;
          totalPosition := totalPosition + store[product.productId].quantity;
        }
        i := i + 1;
      }
      assert sector.products[..i] == sector.products;
      r := SectorRisk(sector, totalPV01, totalPosition);
    }
  }

  /** Hands every added or updated position to the risk service; removals are ignored. */
  class BondPositionRiskServiceListener {
    const listeningService: BondRiskService

    constructor (listeningService: BondRiskService)
      ensures this.listeningService == listeningService
    {
      this.listeningService := listeningService;
    }

    method Process(kind: Kind, data: Position) returns (deliveries: seq<Delivery<PV01>>)
      modifies listeningService
      ensures kind != Remove ==> listeningService.store == Insert(old(listeningService.store), data.product.productId, RiskOf(data))
      ensures kind != Remove ==> deliveries == FanOut(|listeningService.listeners|,
                                                      KindFor(old(listeningService.store), data.product.productId), RiskOf(data))
      ensures kind == Remove ==> deliveries == [] && unchanged(listeningService)
    {
      if kind != Remove {
        deliveries := listeningService.AddPosition(data);
      } else {
        deliveries := [];
      }
    }
  }

  /** Persists every risk it is told was added or updated; removals are ignored. */
  class BondRiskServiceListener {
    const listeningService: HistoricalDataService<PV01>

    constructor (listeningService: HistoricalDataService<PV01>)
      ensures this.listeningService == listeningService
    {
      this.listeningService := listeningService;
    }

    method Process(kind: Kind, data: PV01)
      modifies listeningService
      ensures listeningService.persisted == old(listeningService.persisted) + (if kind == Remove then [] else [data])
    {
      if kind != Remove {
        listeningService.PersistData(data.product.productId, data);
      }
    }
  }
}
