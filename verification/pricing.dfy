/**
 * Pricing (`BondPricingService`): mid prices and bid/offer spreads read
 * from the prices file, one stored per product.
 *
 * `Price` lives in base/pricingservice.hpp, which is not part of this model;
 * the two sides are derived from mid and spread as every consumer here does.
 */
module Pricing {
  import opened Soa
  import opened Numerals
  import opened FileConnector
  import opened Products

  datatype Price = Price(product: Bond, mid: real, bidOfferSpread: real)

  /** The bid side of a price: half the spread below mid. */
  function BidPrice(p: Price): real
  {
    p.mid - p.bidOfferSpread / 2.0
  }

  /** The offer side of a price: half the spread above mid. */
  function OfferPrice(p: Price): real
  {
    p.mid + p.bidOfferSpread / 2.0
  }

  /** The two sides are centred on mid and exactly one spread apart, so they give mid and spread back. */
  lemma SidesRoundTrip(p: Price)
    ensures (BidPrice(p) + OfferPrice(p)) / 2.0 == p.mid
    ensures OfferPrice(p) - BidPrice(p) == p.bidOfferSpread
    ensures p.bidOfferSpread >= 0.0 ==> BidPrice(p) <= p.mid <= OfferPrice(p)
  {
  }

  /**
   * The fields of a prices line: product id, then mid and spread, both in
   * 32nds notation. `bond` is the registry's entry for field 0.
   */
  function ParsePrice(fields: seq<string>, bond: Bond): (r: Result<Price>)
    ensures |fields| < 3 ==> r == Err(MissingField)
    ensures r.Ok? <==> |fields| >= 3 && FractionalToDouble(fields[1]).Ok? && FractionalToDouble(fields[2]).Ok?
    ensures r.Ok? ==> r.value == Price(bond, FractionalToDouble(fields[1]).value, FractionalToDouble(fields[2]).value)
  {
    if |fields| < 3 then Err(MissingField)
    else
      var mid := FractionalToDouble(fields[1]);
      var spread := FractionalToDouble(fields[2]);
      if mid.Err? then Err(mid.error)
      else if spread.Err? then Err(spread.error)
      else Ok(Price(bond, mid.value, spread.value))
  }

  /** The value of the quote `whole-tail`: whole points, 32nds from the tail's first two digits, 256ths from its third character. */
  function QuoteValue(whole: string, tail: string): real
    requires IsDigits(whole) && |tail| >= 3 && IsDigits(tail[..2])
  {
    (256 * DigitsValue(whole) + 8 * DigitsValue(tail[..2]) + Ticks(tail[2])) as real / 256.0
  }

  /** A prices line with well-formed quotes for mid and spread gives their values in 256ths. */
  lemma ParseQuotedPrice(id: string, midWhole: string, midTail: string, spreadWhole: string, spreadTail: string, bond: Bond)
    requires IsDigits(midWhole) && |midTail| >= 3 && IsDigits(midTail[..2]) && '-' !in midTail
    requires IsDigits(spreadWhole) && |spreadTail| >= 3 && IsDigits(spreadTail[..2]) && '-' !in spreadTail
    ensures ParsePrice([id, midWhole + "-" + midTail, spreadWhole + "-" + spreadTail], bond)
         == Ok(Price(bond, QuoteValue(midWhole, midTail), QuoteValue(spreadWhole, spreadTail)))
  {
    FractionalValue(midWhole, midTail);
    FractionalValue(spreadWhole, spreadTail);
  }

  class BondPricingService {
    var store: map<string, Price>
    const listeners: seq<string>

    constructor (listeners: seq<string>)
      ensures store == map[] && this.listeners == listeners
    {
      store := map[];
      this.listeners := listeners;
    }

    /**
     * Records the price and notifies every listener once: add for a product
     * with no stored price, update otherwise. The store uses `insert`, so a
     * product keeps the first price recorded for it.
     */
    method OnMessage(data: Price) returns (deliveries: seq<Delivery<Price>>)
      modifies this
      ensures store == Insert(old(store), data.product.productId, data)
      ensures data.product.productId in old(store) ==> store == old(store)
      ensures deliveries == FanOut(|listeners|, KindFor(old(store), data.product.productId), data)
    {
      var productId := data.product.productId;
      if productId !in store {
        store := Insert(store, productId, data);
        deliveries := Notify(|listeners|, Add, data);
      } else {
        store := Insert(store, productId, data);
        deliveries := Notify(|listeners|, Update, data);
      }
    }
  }

  /**
   * `BondPricesConnector::parse`: split the line, read mid and spread, look
   * the product up in the registry and hand the price to the service.
   */
  class BondPricesConnector {
    const service: BondPricingService
    const products: BondProductService

    constructor (service: BondPricingService, products: BondProductService)
      ensures this.service == service && this.products == products
    {
      this.service := service;
      this.products := products;
    }

    method Parse(line: string) returns (r: Result<seq<Delivery<Price>>>)
      modifies service, products
      ensures var fields := Split(line, ',');
              ParsePrice(fields, DefaultBond()).Err? ==>
                r == Err(ParsePrice(fields, DefaultBond()).error) && unchanged(service) && unchanged(products)
      ensures var fields := Split(line, ',');
              r.Ok? ==>
                var lookup := Lookup(old(products.bondMapper), fields[0]);
                var price := ParsePrice(fields, lookup.1).value;
                products.bondMapper == lookup.0 &&
                service.store == Insert(old(service.store), price.product.productId, price) &&
                r.value == FanOut(|service.listeners|, KindFor(old(service.store), price.product.productId), price)
      ensures r.Ok? <==> ParsePrice(Split(line, ','), DefaultBond()).Ok?
    {
      var split := SplitString(line, ',');
      var check := ParsePrice(split, DefaultBond());
      if check.Err? {
        return Err(check.error);
      }
      var bond := products.GetData(split[0]);
      var price := ParsePrice(split, bond);
      var deliveries := service.OnMessage(price.value);
      r := Ok(deliveries);
    }
  }
}
