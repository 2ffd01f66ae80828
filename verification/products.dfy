/**
 * The bond reference data and the process-wide product registry
 * (`BondProductService`). The registry is a map from product id to bond
 * that `Add` fills without overwriting and that `GetData` reads with
 * `operator[]`, so a lookup of an unknown id inserts a default bond.
 */
module Products {
  import opened Soa

  datatype Date = Date(year: int, month: int, day: int)

  /**
   * A Treasury bond: its CUSIP id, ticker, coupon, maturity and PV01 per
   * unit of face value.
   */
  datatype Bond = Bond(productId: string, ticker: string, coupon: real, maturity: Date, pv01: real)

  /**
   * What `Bond()` yields. The class lives in base/products.hpp, which is not
   * part of this model; it is taken to hold an empty id and zero numbers.
   */
  function DefaultBond(): (b: Bond)
    ensures b.productId == "" && b.pv01 == 0.0
  {
    Bond("", "", 0.0, Date(1400, 1, 1), 0.0)
  }

  /** `std::unordered_map::operator[]`: the stored bond, inserting a default one for a new id. */
  function Lookup(m: map<string, Bond>, id: string): (r: (map<string, Bond>, Bond))
    ensures id in m ==> r == (m, m[id])
    ensures id !in m ==> r.1 == DefaultBond() && r.0.Keys == m.Keys + {id} && |r.0| == |m| + 1
    ensures r.0 == Insert(m, id, DefaultBond()) && r.1 == r.0[id]
  {
    if id in m then (m, m[id]) else (m[id := DefaultBond()], DefaultBond())
  }

  class BondProductService {
    var bondMapper: map<string, Bond>

    constructor ()
      ensures bondMapper == map[]
    {
      bondMapper := map[];
    }

    /** Registers a bond under its id; a bond already registered under that id is kept. */
    method Add(bond: Bond)
      modifies this
      ensures bondMapper == Insert(old(bondMapper), bond.productId, bond)
      ensures bond.productId !in old(bondMapper) ==> bondMapper[bond.productId] == bond
      ensures bond.productId in old(bondMapper) ==> bondMapper == old(bondMapper)
    {
      bondMapper := Insert(bondMapper, bond.productId, bond);
    }

    /**
     * The bond registered under `productId`. An id never added is inserted
     * with a default bond, which is returned: the map grows by one entry.
     */
    method GetData(productId: string) returns (bond: Bond)
      modifies this
      ensures productId in old(bondMapper) ==> bond == old(bondMapper)[productId] && bondMapper == old(bondMapper)
      ensures productId !in old(bondMapper) ==> bond == DefaultBond() && bondMapper == old(bondMapper)[productId := DefaultBond()]
      ensures (bondMapper, bond) == Lookup(old(bondMapper), productId)
    {
      if productId !in bondMapper {
        bondMapper := bondMapper[productId := DefaultBond()];
      }
      bond := bondMapper[productId];
    }
  }

  /**
   * The static `instance` behind `GetInstance`, made an explicit
   * context object: the first call creates the registry, every later call
   * returns that same one.
   */
  class ProductRegistry {
    var instance: BondProductService?

    constructor ()
      ensures instance == null
    {
      instance := null;
    }

    method GetInstance() returns (service: BondProductService)
      modifies this
      ensures old(instance) != null ==> service == old(instance)
      ensures old(instance) == null ==> fresh(service) && service.bondMapper == map[]
      ensures instance == service
    {
      if instance == null {
        instance := new BondProductService();
      }
      service := instance;
    }
  }

  /** After `Add(b)` for a new id, looking the id up gives back `b` and inserts nothing. */
  lemma AddThenLookup(m: map<string, Bond>, b: Bond)
    requires b.productId !in m
    ensures Lookup(Insert(m, b.productId, b), b.productId) == (m[b.productId := b], b)
  {
  }
}
