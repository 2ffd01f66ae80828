/**
 * The execution service (`BondExecutionService`): it stores nothing and
 * passes every order it is asked to execute on to its listeners as an add.
 */
module Execution {
  import opened Soa
  import opened AlgoExecution

  /** The venues an order can be executed on (base/executionservice.hpp is not part of this model). */
  datatype Market = BROKERTEC | ESPEED | CME

  class BondExecutionService {
    const listeners: seq<string>

    constructor (listeners: seq<string>)
      ensures this.listeners == listeners
    {
      this.listeners := listeners;
    }

    /** The service has no connector: a message changes nothing and notifies no one. */
    method OnMessage(data: ExecutionOrder) returns (deliveries: seq<Delivery<ExecutionOrder>>)
      ensures deliveries == []
    {
      deliveries := [];
    }

    /**
     * Every listener, in registration order, receives exactly one add of the
     * order; there is no update or remove, and the market is not used.
     */
    method ExecuteOrder(order: ExecutionOrder, market: Market) returns (deliveries: seq<Delivery<ExecutionOrder>>)
      ensures |deliveries| == |listeners|
      ensures forall i :: 0 <= i < |deliveries| ==> deliveries[i] == Delivery(i, Add, order)
    {
      deliveries := Notify(|listeners|, Add, order);
    }
  }

  /** Sends every algorithmic order it is told was added to the execution service, on CME. */
  class BondAlgoExecutionServiceListener {
    const listeningService: BondExecutionService

    constructor (listeningService: BondExecutionService)
      ensures this.listeningService == listeningService
    {
      this.listeningService := listeningService;
    }

    method Process(kind: Kind, data: AlgoExecution) returns (deliveries: seq<Delivery<ExecutionOrder>>)
      ensures kind == Add ==> deliveries == FanOut(|listeningService.listeners|, Add, data.executionOrder)
      ensures kind != Add ==> deliveries == []
    {
      if kind == Add {
        deliveries := listeningService.ExecuteOrder(data.executionOrder, CME);
      } else {
        deliveries := [];
      }
    }
  }
}
