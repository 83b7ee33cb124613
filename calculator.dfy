/**
 * The PnL calculator: an object owning the per-symbol position books, fed a
 * trade sequence and returning the realized-PnL records in order.
 */
module Calculator {
  import opened Trades
  import opened Book
  import opened Ledger

  class PnLCalculator {
    const scheme: Scheme
    /** Symbol to open lots, front first; both schemes consume from the front. */
    var positions: Positions

    /** Between trades every symbol's lots are non-zero and share one sign. */
    ghost predicate Valid()
      reads this
    {
      AllSingleSign(positions)
    }

    constructor (scheme: Scheme)
      ensures this.scheme == scheme && positions == map[]
      ensures Valid()
    {
      this.scheme := scheme;
      positions := map[];
    }

    /**
     * Processes the trades in order, appending the record of every trade that
     * closes at least part of a position.
     */
    method ProcessTrades(trades: seq<Trade>) returns (results: seq<PnLResult>)
      requires Valid()
      modifies this
      ensures Valid()
      ensures positions == Run(scheme, old(positions), trades).positions
      ensures results == Run(scheme, old(positions), trades).results
    {
      results := [];
      for i := 0 to |trades|
        invariant Valid()
        invariant positions == Run(scheme, old(positions), trades[..i]).positions
        invariant results == Run(scheme, old(positions), trades[..i]).results
      {
        RunExtend(scheme, old(positions), trades, i);
        var record := ProcessTrade(trades[i]);
        if record.Some? {
          results := results + [record.value];
        }
      }
      assert trades[..|trades|] == trades;
    }

    /**
     * One trade: when it offsets the front lot of its symbol (a buy meeting a
     * short lot, a sell meeting a long one) it clears lots and yields one
     * record; otherwise it opens one lot (at the back under FIFO, at the
     * front under LIFO) and yields none.
     */
    method ProcessTrade(trade: Trade) returns (record: Option<PnLResult>)
      requires Valid()
      modifies this
      ensures Valid()
      ensures positions == Apply(scheme, old(positions), trade).positions
      ensures record == Apply(scheme, old(positions), trade).record
    {
      var symbol := trade.symbol;
      ghost var step := Step(scheme, BookOf(positions, symbol), trade);
      if symbol !in positions {
        OverwriteEntry(positions, symbol, [], step.book);
        positions := positions[symbol := []];
      }
      var symbolPositions := positions[symbol];
      var hasOpenPositions := false;
      if symbolPositions != [] {
        var positionQuantity := symbolPositions[0].quantity;
        if (trade.side == Buy && positionQuantity < 0) || (trade.side == Sell && positionQuantity > 0) {
          hasOpenPositions := true;
        }
      }
      if hasOpenPositions {
        var result := ClearPositions(trade);
        record := Some(result);
      } else {
        var quantity := Signed(trade.side, trade.quantity);
        PushLot(symbol, Lot(trade.price, quantity));
        record := None;
      }
      StepKeepsSingleSign(scheme, BookOf(old(positions), symbol), trade);
    }

    /**
     * Closes lots of the trade's symbol from the front: each round consumes
     * min(remaining, |front lot|), adds its PnL, and pops the lot when it
     * reaches zero or shrinks it in place; a residual opens a new lot of the
     * trade's sign at the trade price. Returns the trade's single record.
     */
    method ClearPositions(trade: Trade) returns (result: PnLResult)
      modifies this
      ensures positions ==
        old(positions)[trade.symbol := Settle(scheme, trade, BookOf(old(positions), trade.symbol)).book]
      ensures result ==
        PnLResult(trade.timestamp, trade.symbol, Settle(scheme, trade, BookOf(old(positions), trade.symbol)).pnl)
    {
      var symbol := trade.symbol;
      if symbol !in positions {
        positions := positions[symbol := []];
      }
      ghost var book := positions[symbol];
      var remainingQuantity: int := trade.quantity;
      var pnl := 0.0;
      while remainingQuantity > 0 && positions[symbol] != []
        invariant symbol in positions
        invariant positions == old(positions)[symbol := positions[symbol]]
        invariant Clear(trade, trade.quantity, book).pnl == pnl + Clear(trade, remainingQuantity, positions[symbol]).pnl
        invariant Clear(trade, trade.quantity, book).rest == Clear(trade, remainingQuantity, positions[symbol]).rest
        invariant Clear(trade, trade.quantity, book).residual == Clear(trade, remainingQuantity, positions[symbol]).residual
        decreases |positions[symbol]|, remainingQuantity
      {
        ClearRound(trade, remainingQuantity, positions[symbol]);
        var position := positions[symbol][0];
        var positionQuantity := Abs(position.quantity);
        var clearedQuantity := Min(remainingQuantity, positionQuantity);
        pnl := pnl + CalculatePnL(trade, position, clearedQuantity);
        var newQuantity := positionQuantity - clearedQuantity;
        if newQuantity == 0 {
          OverwriteEntry(old(positions), symbol, positions[symbol], positions[symbol][1..]);
          positions := positions[symbol := positions[symbol][1..]];
        } else {
          // partial clear: the lot keeps its price and sign
          var sign := if position.quantity > 0 then 1 else -1;
          var reduced := [Lot(position.price, sign * newQuantity)] + positions[symbol][1..];
          OverwriteEntry(old(positions), symbol, positions[symbol], reduced);
          positions := positions[symbol := reduced];
        }
        remainingQuantity := remainingQuantity - clearedQuantity;
      }
      if remainingQuantity > 0 {
        var quantity := Signed(trade.side, remainingQuantity);
        PushLot(symbol, Lot(trade.price, quantity));
      }
      result := PnLResult(trade.timestamp, trade.symbol, pnl);
    }
  
    /** Opens a lot for `symbol`: at the back under FIFO, at the front under LIFO. */
    method PushLot(symbol: string, lot: Lot)
      modifies this
      ensures positions == old(positions)[symbol := Insert(scheme, BookOf(old(positions), symbol), lot)]
    {
      if symbol !in positions {
        positions := positions[symbol := []];
      }
      if scheme == LIFO {
        positions := positions[symbol := [lot] + positions[symbol]];
      } else {
        positions := positions[symbol := positions[symbol] + [lot]];
      }
    }
  }
}
