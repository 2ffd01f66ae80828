/**
 * The service core every pipeline stage is built on: a string-keyed store
 * whose insertion never overwrites (the behaviour of `std::map::insert` and
 * `emplace`), an ordered list of listeners that receive add, update or remove
 * notifications, and the historical-data sink that listeners persist into.
 *
 * A notification is a `Delivery`: which listener (its index in registration
 * order), which kind, which value. Service methods return the deliveries they
 * make, in order, and the pipeline hands each one to the listener object that
 * sits at that index.
 */
module Soa {

  /** The three capabilities of a service listener. */
  datatype Kind = Add | Update | Remove

  /** One call `ProcessAdd`/`ProcessUpdate`/`ProcessRemove(value)` on the listener at index `listener`. */
  datatype Delivery<V> = Delivery(listener: nat, kind: Kind, value: V)

  /**
   * What can go wrong in the core: a lookup of a key never stored
   * (`std::runtime_error("Product not found")`, `std::map::at`), a field
   * index past the end of a split line or string (undefined behaviour in the
   * source), and a numeric field `std::stod`/`std::stol` cannot read.
   */
  datatype Error = NotFound | MissingField | BadNumber

  datatype Result<T> = Ok(value: T) | Err(error: Error)

  /**
   * `std::map::insert(make_pair(key, value))`: adds the pair when the key is
   * absent and leaves the map as it was when the key is present.
   */
  function Insert<V>(m: map<string, V>, key: string, value: V): (r: map<string, V>)
    ensures r.Keys == m.Keys + {key}
    ensures key in m ==> r == m
    ensures key !in m ==> r[key] == value && forall k :: k in m ==> r[k] == m[k]
  {
    if key in m then m else m[key := value]
  }

  /**
   * The notification kind of a service that checks presence BEFORE it
   * inserts: add for a key it has never stored, update otherwise.
   */
  function KindFor<V>(m: map<string, V>, key: string): (k: Kind)
    ensures k == Add <==> key !in m
    ensures k != Remove
  {
    if key in m then Update else Add
  }

  /**
   * The notifications of one loop `for (auto listener : GetListeners())
   * listener->Process<kind>(value)` over `n` registered listeners.
   */
  function FanOut<V>(n: nat, kind: Kind, value: V): (r: seq<Delivery<V>>)
    ensures |r| == n
    ensures forall i :: 0 <= i < n ==> r[i] == Delivery(i, kind, value)
  {
    if n == 0 then [] else FanOut(n - 1, kind, value) + [Delivery(n - 1, kind, value)]
  }

  /**
   * The listener loop itself: every registered listener, in registration
   * order, receives exactly one notification of the given kind.
   */
  method Notify<V>(n: nat, kind: Kind, value: V) returns (out: seq<Delivery<V>>)
    ensures out == FanOut(n, kind, value)
  {
    out := [];
    var i := 0;
    while i < n
      invariant 0 <= i <= n
      invariant out == FanOut(i, kind, value)
    {
      out := out + [Delivery(i, kind, value)];
      i := i + 1;
    }
  }

  /**
   * A historical-data service: `PersistData` hands the value to an output
   * connector, which appends one line to its file. The file is modelled as the
   * sequence of values persisted, in order; the persist key is not written.
   */
  class HistoricalDataService<V> {
    ghost var persisted: seq<V>

    constructor ()
      ensures persisted == []
    {
      persisted := [];
    }

    method PersistData(persistKey: string, data: V)
      modifies this
      ensures persisted == old(persisted) + [data]
    {
      persisted := persisted + [data];
    }
  }
}
