/**
 * The trading chain as the process wires it: market data feeds the
 * algorithmic execution engine, whose orders pass through the execution
 * service to trade booking, whose trades move positions, whose positions
 * are priced for risk.
 */
module Pipeline {
  import opened MarketData
  import opened AlgoExecution
  import opened TradeBooking
  import opened Positions
  import opened Risk

  /**
   * A tight book seen by the engine in state `s`, booked into the book at
   * rotation index `p`, moves that book of the product's position against
   * the engine's side: crossing to the bid sells the top bid quantity,
   * lifting the offer buys the top offer quantity. The aggregate, and
   * with it the risk's quantity, moves by the same amount, and the PV01 by
   * that amount times the product's PV01.
   */
  lemma FillMovesPosition(s: AlgoState, book: OrderBook, p: nat, position: Position)
    requires HasTop(book) && s.curPtr < |SideState| && Tight(book) && p < |TradeBooks|
    requires position.product == book.product
    ensures var order := Step(s, book).1[0];
            var delta := if order.side == BID then -book.bidStack[0].quantity else book.offerStack[0].quantity;
            var after := UpdatePosition(position, TradeFor(order, TradeBooks[p]));
            QuantityIn(after.books, TradeBooks[p]) == QuantityIn(position.books, TradeBooks[p]) + delta &&
            RiskOf(after).quantity == RiskOf(position).quantity + delta &&
            RiskOf(after).pv01 == RiskOf(position).pv01 + delta as real * book.product.pv01
  {
    var order := Step(s, book).1[0];
    FillSigned(s, book, TradeBooks[p]);
    TradeMovesRisk(position, TradeFor(order, TradeBooks[p]));
  }

  /** The signed quantity of the fill's trade: minus the top bid, or plus the top offer. */
  lemma FillSigned(s: AlgoState, book: OrderBook, bookId: string)
    requires HasTop(book) && s.curPtr < |SideState| && Tight(book)
    ensures var order := Step(s, book).1[0];
            Signed(TradeFor(order, bookId)) ==
              if order.side == BID then -book.bidStack[0].quantity else book.offerStack[0].quantity
  {
    assert Step(s, book).1[0] == OrderFor(book, s);
  }

  /** A trade moves its book, the aggregate and the PV01 by its signed quantity. */
  lemma TradeMovesRisk(position: Position, trade: Trade)
    ensures var after := UpdatePosition(position, trade);
            QuantityIn(after.books, trade.bookId) == QuantityIn(position.books, trade.bookId) + Signed(trade) &&
            RiskOf(after).quantity == RiskOf(position).quantity + Signed(trade) &&
            RiskOf(after).pv01 == RiskOf(position).pv01 + Signed(trade) as real * position.product.pv01
  {
    Scale(Positions.Aggregate(position.books), Signed(trade), position.product.pv01);
  }

  /** Scaling distributes over a sum of quantities. */
  lemma Scale(a: int, d: int, x: real)
    ensures (a + d) as real * x == a as real * x + d as real * x
  {
  }
}
