/**
 * The values the PnL engine works on: trades, open lots, result records,
 * the accounting scheme, and the per-segment realized PnL formula.
 */
module Trades {

  /** Side of a trade. Only buys and sells exist; a stray side character cannot be expressed. */
  datatype Side = Buy | Sell

  /** The accounting scheme, fixed for the lifetime of one calculator. */
  datatype Scheme = FIFO | LIFO

  /** A trade quantity: a positive number of units. */
  type Quantity = n: int | n > 0 witness 1

  /** One input trade. Timestamps are copied into results and never interpreted. */
  datatype Trade = Trade(timestamp: int, symbol: string, side: Side, price: real, quantity: Quantity)

  /** An open lot: opening price and signed quantity (positive long, negative short). */
  datatype Lot = Lot(price: real, quantity: int)

  datatype Option<T> = None | Some(value: T)

  /** One realized-PnL record, produced by a trade that closes at least part of a position. */
  datatype PnLResult = PnLResult(timestamp: int, symbol: string, pnl: real)

  function Abs(x: int): (r: nat)
    ensures r == x || r == -x
  {
    if x < 0 then -x else x
  }

  function Min(a: int, b: int): (r: int)
    ensures r <= a && r <= b && (r == a || r == b)
  {
    if a <= b then a else b
  }

  /** The signed lot quantity a trade of `side` opens: positive for a buy, negative for a sell. */
  function Signed(side: Side, q: int): (r: int)
    ensures Abs(r) == Abs(q)
    ensures q > 0 ==> (r > 0 <==> side == Buy)
  {
    if side == Buy then q else -q
  }

  /**
   * Realized PnL of closing `quantity` units of `lot` with `trade`: a sell
   * closes a long lot and earns the rise of the price, a buy closes a short
   * lot and earns its fall. The result is positive exactly when the trade
   * closes at a better price than the lot was opened at, and zero at the
   * same price.
   */
  function CalculatePnL(trade: Trade, lot: Lot, quantity: int): (pnl: real)
    ensures quantity > 0 ==>
      (pnl > 0.0 <==> (trade.side == Sell && trade.price > lot.price) ||
                      (trade.side == Buy && trade.price < lot.price))
    ensures quantity > 0 ==>
      (pnl < 0.0 <==> (trade.side == Sell && trade.price < lot.price) ||
                      (trade.side == Buy && trade.price > lot.price))
    ensures trade.price == lot.price || quantity == 0 ==> pnl == 0.0
  {
    // per unit: a sell closing a long earns the rise, a buy closing a short earns the fall
    var gain := if trade.side == Sell then trade.price - lot.price else lot.price - trade.price;
    assert gain > 0.0 <==> (trade.side == Sell && trade.price > lot.price) ||
                           (trade.side == Buy && trade.price < lot.price);
    assert gain < 0.0 <==> (trade.side == Sell && trade.price < lot.price) ||
                           (trade.side == Buy && trade.price > lot.price);
    ProductSign(quantity as real, gain);
    quantity as real * gain
  }

  lemma ProductSign(q: real, d: real)
    ensures q > 0.0 ==> (q * d > 0.0 <==> d > 0.0)
    ensures q > 0.0 ==> (q * d < 0.0 <==> d < 0.0)
  {
  }

  /** Closing a quantity in two pieces realizes the same PnL as closing it at once. */
  lemma CalculatePnLAdditive(trade: Trade, lot: Lot, a: int, b: int)
    ensures CalculatePnL(trade, lot, a + b) == CalculatePnL(trade, lot, a) + CalculatePnL(trade, lot, b)
  {
  }
}
