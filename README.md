# FIFO/LIFO realized-PnL calculator

A model of the lot-matching engine `PnLCalculator`. The engine is fed a
sequence of trades. Each trade has a timestamp, a symbol, a side (buy or
sell), a price and a positive quantity. For every symbol the engine keeps
an ordered book of open lots. A lot is an opening price and a signed
quantity: positive is long, negative is short.

For each trade, the engine looks at the front lot of the trade's symbol:

- **Opening trade.** If the book is empty, or the trade goes the same way
  as the front lot, the trade opens one lot of its own sign at its price.
  Under FIFO the lot goes at the back; under LIFO it goes at the front.
  Nothing is emitted.
- **Offsetting trade.** A buy meeting a short lot, or a sell meeting a
  long one, runs the clearing loop, which works from the front of the book:
  - It consumes `min(remaining, |lot|)` units from the front lot.
  - It realizes the PnL of that segment. A sell closing a long earns
    `units * (trade price - lot price)`. A buy closing a short earns
    `units * (lot price - trade price)`.
  - It pops a lot once it is used up, and shrinks it in place otherwise.
  - Any residual opens one lot of the trade's sign at the trade price
    (a sign flip).
  - The trade emits exactly one record: its timestamp, its symbol and the
    summed PnL.

Both schemes consume from the front, so FIFO closes the oldest lot and
LIFO the newest.

The project is split into modules:

- `Trades` (trades.dfy) holds the value types and the per-segment PnL
  formula.
- `Book` (book.dfy) holds one symbol's book and the pure specification of
  one trade against it:
  - `Clear` is the clearing loop as a recursive function.
  - `Settle` is the loop plus opening any residual.
  - `Step` is one whole trade.
- `Ledger` (ledger.dfy) holds the map from symbol to book, `Apply` (one
  trade against the map) and `Run` (a whole trade sequence).
- `Calculator` (calculator.dfy) is the engine itself: a class whose
  `positions` field is the map, updated in place by methods with loop
  invariants. Each method is proved equal to the corresponding
  specification function.
- `Scenarios` (scenarios.dfy) states, as lemmas, the outcomes of the unit
  tests' trade sequences and of one sign-flip example, for any symbol names.

## Model

| member | source | states |
|---|---|---|
| Trades.CalculatePnL | pnl_calculator_main.cpp:165-176 | For a positive quantity, the segment's PnL is positive exactly when the trade closes at a better price than the lot was opened at (a sell above, a buy below). It is negative exactly when the trade closes at a worse price. It is zero at the same price, and zero for zero units. |
| Trades.Signed | pnl_calculator_main.cpp:96 | An opened quantity has the trade's magnitude, and for a positive quantity it is positive exactly for a buy. |
| Book.Insert | pnl_calculator_main.cpp:97-101 | Opening adds exactly one lot. Under FIFO it is last and the old lots precede it unchanged. Under LIFO it is first and the old lots follow it unchanged. |
| Book.Reduce | pnl_calculator_main.cpp:145-147 | A partially cleared lot keeps its price and sign. Its magnitude drops by exactly the cleared amount, and it is not zero. |
| Book.Clear | pnl_calculator_main.cpp:122-151 | The clearing loop terminates (measure: book length, then remaining quantity). The residual lies between 0 and the trade quantity. A positive residual leaves the book empty. The book never grows. |
| Book.ClearConserves | pnl_calculator_main.cpp:119-151 | The loop consumes exactly `min(quantity, exposure)` units. Exactly that many units leave the book. The rest of the quantity is the residual. |
| Book.ClearKeepsSign | pnl_calculator_main.cpp:138-148 | Popping and shrinking keep a long book long and a short book short. |
| Book.ClearWithinFrontLot | pnl_calculator_main.cpp:131-148 | A quantity that fits in the front lot realizes exactly that lot's segment PnL and leaves no residual. The front lot is popped if exhausted and otherwise reduced. |
| Book.SplitCloseWithinFrontLot | pnl_calculator_main.cpp:131-148 | Two partial closes of a and b units that together fit in the front lot realize the same PnL as one close of a + b units, and leave the same book. |
| Book.Settle | pnl_calculator_main.cpp:112-163 | The trade's PnL is the clearing loop's accumulated PnL. A trade no larger than the open exposure shrinks the book by exactly the trade quantity and keeps a long book long and a short book short. A larger trade empties the book and leaves one lot of the trade's sign for the excess at the trade price (a sign flip). A single-sign book stays single-sign. |
| Book.Step | pnl_calculator_main.cpp:77-102 | A record is emitted exactly when the trade is offsetting against the front lot. The record's timestamp and symbol are the trade's. |
| Book.StepOpensLot | pnl_calculator_main.cpp:92-102 | A trade that is not offsetting emits nothing. It adds exactly one lot at the trade price with +q for a buy and -q for a sell: at the back under FIFO, at the front under LIFO. |
| Book.StepOnFlat | pnl_calculator_main.cpp:77-102 | On an empty book, any trade under either scheme opens a single lot of its own sign at its price. |
| Book.StepKeepsSingleSign | pnl_calculator_main.cpp:86-102 | After every trade the book holds only non-zero lots that all share one sign. |
| Book.StepNet | pnl_calculator_main.cpp:92-160 | Quantity is conserved: the net position after a trade is the net position before plus the trade's signed quantity, under either scheme. |
| Book.OffsettingByNet | pnl_calculator_main.cpp:78-90 | On a single-sign book, whether a trade is offsetting depends only on the sign of the net position. |
| Book.SingleSignFront | pnl_calculator_main.cpp:78-90 | The front lot of a single-sign book is non-zero and carries the book's sign. |
| Book.LongNet | pnl_calculator_main.cpp:131 | The net position of a long book equals its exposure. |
| Book.ShortNet | pnl_calculator_main.cpp:131 | The net position of a short book is minus its exposure. |
| Book.InsertNet | pnl_calculator_main.cpp:97-101 | Opening a lot at either end adds its signed quantity to the net position. |
| Book.FifoClosesOldestLot | pnl_calculator_main.cpp:97-100 | Under FIFO, a closing trade that fits in the oldest lot realizes that lot's PnL, even after a newer lot was opened behind it. |
| Book.LifoClosesNewestLot | pnl_calculator_main.cpp:97-98 | Under LIFO, a closing trade that fits in the newest lot realizes the PnL of that newest lot. |
| Ledger.Apply | pnl_calculator_main.cpp:66-102 | After one trade, the symbols with an entry are those before plus the trade's symbol. Every other symbol's lots are unchanged. A record is emitted exactly when the trade is offsetting, with the trade's timestamp and symbol. |
| Ledger.Emitted | pnl_calculator_main.cpp:92-94 | Each trade appends at most one record, and none exactly when it emits none. |
| Ledger.Run | pnl_calculator_main.cpp:63-106 | A run yields no more records than there are trades. |
| Ledger.RunKeepsSingleSign | pnl_calculator_main.cpp:63-106 | Starting from single-sign books, every symbol's book is single-sign after the whole run. |
| Ledger.RunRecordsComeFromTrades | pnl_calculator_main.cpp:92-94 | Every record is emitted by some trade of the sequence, applied to the positions left by the trades before it, and carries that trade's timestamp and symbol. |
| Ledger.RecordSource | pnl_calculator_main.cpp:92-94 | Gives the index j of the trade that emitted a given record: applying trade j to the positions left by the first j trades emits exactly that record, whose timestamp and symbol are trade j's. |
| Ledger.RunSymbols | pnl_calculator_main.cpp:71-73 | After a run, the symbols with an entry are the earlier ones plus every symbol traded. |
| Ledger.SymbolsMentioned | pnl_calculator_main.cpp:68 | A symbol counts as traded exactly when some trade is in it. |
| Ledger.RunIsolatesSymbols | pnl_calculator_main.cpp:75 | A symbol that no trade mentions keeps its book, whatever happens to other symbols. |
| Ledger.RunNet | pnl_calculator_main.cpp:63-160 | From single-sign books, each symbol's net position after the run is its net position before plus the signed volume traded in it. |
| Ledger.SchemesAgreeOnRecords | pnl_calculator_main.cpp:80-84 | From the same single-sign books and trades, FIFO and LIFO emit records with the same sequence of timestamps and symbols. Only the PnL values may differ. |
| Ledger.SchemesAgreeOnEmitting | pnl_calculator_main.cpp:80-94 | From the same single-sign books, each trade j emits a record under FIFO exactly when it emits one under LIFO, each scheme starting from the positions it left after the first j trades. |
| Calculator.PnLCalculator.constructor | pnl_calculator_main.cpp:61 | A new calculator has the given scheme and no positions, which satisfies the invariant. |
| Calculator.PnLCalculator.ProcessTrades | pnl_calculator_main.cpp:63-106 | Keeps the single-sign invariant. The new positions and the returned records are those of `Run` over the trades from the old positions. |
| Calculator.PnLCalculator.ProcessTrade | pnl_calculator_main.cpp:67-102 | One loop iteration. It keeps the single-sign invariant, and the new positions and the optional record are those of `Apply` on the old positions. |
| Calculator.PnLCalculator.ClearPositions | pnl_calculator_main.cpp:112-163 | Only the trade's symbol changes, and it becomes `Settle` of its old book. The record carries the trade's timestamp, its symbol and `Settle`'s PnL. |
| Calculator.PnLCalculator.PushLot | pnl_calculator_main.cpp:96-101 | Only the symbol's book changes, and it becomes `Insert` of the lot into the old book. |
| Scenarios.FifoClosesFirstLot | test/test_pnl_calculator_main.cpp:238-251 | Buy 10@10, Buy 10@20, Sell 10@15 under FIFO emits one record (103, +50) and leaves 10@20 open. |
| Scenarios.LifoClosesLastLot | test/test_pnl_calculator_main.cpp:253-261 | The same trades under LIFO emit one record (103, -50) and leave 10@10 open. |
| Scenarios.ZeroPnL | test/test_pnl_calculator_main.cpp:265-275 | Buy 10@100, Sell 10@100 emits one record with PnL 0 and leaves the book flat. |
| Scenarios.ShortSelling | test/test_pnl_calculator_main.cpp:278-288 | Sell 10@50, Buy 10@45 covers the short for +50 and leaves the book flat. |
| Scenarios.MultiSymbol | test/test_pnl_calculator_main.cpp:291-310 | Two interleaved symbols are matched independently: +50 for the first, +300 for the second, with 5@100 and 2@2000 left open. |
| Scenarios.LargeQuantities | test/test_pnl_calculator_main.cpp:313-323 | One billion units bought at 10 and sold at 11 realize exactly one billion. |
| Scenarios.PartialFills | test/test_pnl_calculator_main.cpp:326-343 | Buy 15@100, Buy 15@200, Sell 20@150, Sell 10@175 under FIFO emit +500, then -250, and leave the book flat. |
| Scenarios.SignFlip | pnl_calculator_main.cpp:153-160 | Buy 10@10, Sell 15@20 realizes +100 on the 10 units held and leaves a short lot of 5 at 20. |
| Scenarios.ChainTwoSymbols | pnl_calculator_main.cpp:71-75 | In a run that alternates two symbols, each symbol's book takes only its own steps. |

## Left out

- `CSVParser` and `main` are not part of this model. They cover file and text parsing, argument handling, output formatting and the display-only rounding of tiny PnL values to zero.
- Prices and PnL are exact reals, not IEEE doubles. The model therefore does not capture rounding in `quantity * (price difference)` or in the running sum.
- Quantities and timestamps are unbounded integers. The model does not capture C++ `long` overflow; the one-billion test stays far from it.
- A side other than buy or sell, and a quantity of zero or less, cannot be expressed: `Side` has two constructors and `Quantity` is a positive subtype. The source behaves differently on such inputs:
  - A stray side is never offsetting. It opens a lot of minus the quantity, even next to long lots that a sell would close.
  - A zero quantity opens a zero lot when it is not offsetting. When it is offsetting the clearing loop does not run, and a record with zero PnL is still emitted.
  - A negative quantity opens a lot of the opposite sign. When it is offsetting it emits a zero-PnL record and leaves the book alone.
- Neither the model nor the source requires prices to be positive.
- The deque is a `seq<Lot>` in the `positions` map. Shrinking the front lot through a pointer (`setQuantity`) is modelled as replacing the first element of that sequence.
- Calculator.PnLCalculator.ProcessTrade and Calculator.PnLCalculator.PushLot are not separate functions in the source. They are the body of `processTrades`' loop and the push shared by the two opening paths, lifted into methods.
- Calculator.PnLCalculator.ProcessTrades: the single-sign invariant is demanded of the initial positions. A fresh calculator satisfies it, and so does every state reached through the constructor, `ProcessTrades` and `ProcessTrade`. `PushLot` and `ClearPositions` neither require nor ensure it: called directly, for example pushing a short lot onto a long book, they can leave a state `ProcessTrades` cannot start from.
