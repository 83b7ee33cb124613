/**
 * Concrete trade sequences with the records and books they lead to, as the
 * calculator's unit tests pin them down (for any symbol names). Each proof
 * computes every trade's step on its symbol's book in a small lemma of its
 * own, and a chaining lemma lifts those steps to the whole run.
 */
module Scenarios {
  import opened Trades
  import opened Book
  import opened Ledger

  // ---------------------------------------------------------------------
  // Lifting steps on one book to a run from a fresh calculator

  /** A run extended by one trade, given the outcome so far and that trade's step. */
  lemma Replay(scheme: Scheme, trades: seq<Trade>, t: Trade, p: Positions, results: seq<PnLResult>,
               book: seq<Lot>, next: StepOutcome)
    requires Run(scheme, map[], trades) == Outcome(p, results)
    requires BookOf(p, t.symbol) == book && Step(scheme, book, t) == next
    ensures Run(scheme, map[], trades + [t]) == Outcome(p[t.symbol := next.book], results + Emitted(next.record))
  {
    RunSnoc(scheme, map[], trades, t);
    ApplyOnBook(scheme, p, book, t);
  }

  lemma Displays(t1: Trade, t2: Trade, t3: Trade, t4: Trade)
    ensures [] + [t1] == [t1] && [t1] + [t2] == [t1, t2]
    ensures [t1, t2] + [t3] == [t1, t2, t3] && [t1, t2, t3] + [t4] == [t1, t2, t3, t4]
  {
  }

  lemma TwoEntries(a: string, g: string, x: seq<Lot>, y: seq<Lot>, x': seq<Lot>, y': seq<Lot>)
    requires a != g
    ensures map[a := x][g := y][a := x'] == map[a := x', g := y]
    ensures map[a := x', g := y][g := y'] == map[a := x', g := y']
  {
  }

  /** One trade on a fresh calculator: its step on an empty book. */
  lemma Chain1(scheme: Scheme, t1: Trade, o1: StepOutcome)
    requires Step(scheme, [], t1) == o1
    ensures Run(scheme, map[], [t1]) == Outcome(map[t1.symbol := o1.book], Emitted(o1.record))
  {
    Replay(scheme, [], t1, map[], [], [], o1);
    Displays(t1, t1, t1, t1);
  }

  /** Two trades on one symbol: two steps of its book. */
  lemma Chain2(scheme: Scheme, t1: Trade, t2: Trade, o1: StepOutcome, o2: StepOutcome)
    requires t2.symbol == t1.symbol
    requires Step(scheme, [], t1) == o1 && Step(scheme, o1.book, t2) == o2
    ensures Run(scheme, map[], [t1, t2]) ==
      Outcome(map[t1.symbol := o2.book], Emitted(o1.record) + Emitted(o2.record))
  {
    Chain1(scheme, t1, o1);
    Replay(scheme, [t1], t2, map[t1.symbol := o1.book], Emitted(o1.record), o1.book, o2);
    Displays(t1, t2, t2, t2);
    OverwriteEntry(map[], t1.symbol, o1.book, o2.book);
  }

  /** Three trades on one symbol: three steps of its book. */
  lemma Chain3(scheme: Scheme, t1: Trade, t2: Trade, t3: Trade, o1: StepOutcome, o2: StepOutcome, o3: StepOutcome)
    requires t2.symbol == t1.symbol && t3.symbol == t1.symbol
    requires Step(scheme, [], t1) == o1 && Step(scheme, o1.book, t2) == o2 && Step(scheme, o2.book, t3) == o3
    ensures Run(scheme, map[], [t1, t2, t3]) ==
      Outcome(map[t1.symbol := o3.book], Emitted(o1.record) + Emitted(o2.record) + Emitted(o3.record))
  {
    Chain2(scheme, t1, t2, o1, o2);
    Replay(scheme, [t1, t2], t3, map[t1.symbol := o2.book], Emitted(o1.record) + Emitted(o2.record), o2.book, o3);
    Displays(t1, t2, t3, t3);
    OverwriteEntry(map[], t1.symbol, o2.book, o3.book);
  }

  /** Four trades on one symbol: four steps of its book. */
  lemma Chain4(scheme: Scheme, t1: Trade, t2: Trade, t3: Trade, t4: Trade,
               o1: StepOutcome, o2: StepOutcome, o3: StepOutcome, o4: StepOutcome)
    requires t2.symbol == t1.symbol && t3.symbol == t1.symbol && t4.symbol == t1.symbol
    requires Step(scheme, [], t1) == o1 && Step(scheme, o1.book, t2) == o2 && Step(scheme, o2.book, t3) == o3
    requires Step(scheme, o3.book, t4) == o4
    ensures Run(scheme, map[], [t1, t2, t3, t4]) ==
      Outcome(map[t1.symbol := o4.book],
              Emitted(o1.record) + Emitted(o2.record) + Emitted(o3.record) + Emitted(o4.record))
  {
    Chain3(scheme, t1, t2, t3, o1, o2, o3);
    Replay(scheme, [t1, t2, t3], t4, map[t1.symbol := o3.book],
           Emitted(o1.record) + Emitted(o2.record) + Emitted(o3.record), o3.book, o4);
    Displays(t1, t2, t3, t4);
    OverwriteEntry(map[], t1.symbol, o3.book, o4.book);
  }

  /** Two symbols interleaved (a, g, a, g): each symbol's book takes only its own two steps. */
  lemma ChainTwoSymbols(scheme: Scheme, t1: Trade, t2: Trade, t3: Trade, t4: Trade,
                        o1: StepOutcome, o2: StepOutcome, o3: StepOutcome, o4: StepOutcome)
    requires t3.symbol == t1.symbol && t4.symbol == t2.symbol && t1.symbol != t2.symbol
    requires Step(scheme, [], t1) == o1 && Step(scheme, [], t2) == o2
    requires Step(scheme, o1.book, t3) == o3 && Step(scheme, o2.book, t4) == o4
    ensures Run(scheme, map[], [t1, t2, t3, t4]) ==
      Outcome(map[t1.symbol := o3.book, t2.symbol := o4.book],
              Emitted(o1.record) + Emitted(o2.record) + Emitted(o3.record) + Emitted(o4.record))
  {
    var a, g := t1.symbol, t2.symbol;
    Displays(t1, t2, t3, t4);
    TwoEntries(a, g, o1.book, o2.book, o3.book, o4.book);
    Chain1(scheme, t1, o1);
    Replay(scheme, [t1], t2, map[a := o1.book], Emitted(o1.record), [], o2);
    Replay(scheme, [t1, t2], t3, map[a := o1.book][g := o2.book],
           Emitted(o1.record) + Emitted(o2.record), o1.book, o3);
    Replay(scheme, [t1, t2, t3], t4, map[a := o3.book, g := o2.book],
           Emitted(o1.record) + Emitted(o2.record) + Emitted(o3.record), o2.book, o4);
  }

  // ---------------------------------------------------------------------
  // Buy 10@10, Buy 10@20, Sell 10@15

  lemma SecondBuy(scheme: Scheme, sym: string)
    ensures Step(scheme, [Lot(10.0, 10)], Trade(102, sym, Buy, 20.0, 10)) ==
      StepOutcome(if scheme == FIFO then [Lot(10.0, 10), Lot(20.0, 10)] else [Lot(20.0, 10), Lot(10.0, 10)], None)
  {
    assert [Lot(10.0, 10)] + [Lot(20.0, 10)] == [Lot(10.0, 10), Lot(20.0, 10)];
    assert [Lot(20.0, 10)] + [Lot(10.0, 10)] == [Lot(20.0, 10), Lot(10.0, 10)];
  }

  lemma FifoSell(sym: string)
    ensures Step(FIFO, [Lot(10.0, 10), Lot(20.0, 10)], Trade(103, sym, Sell, 15.0, 10)) ==
      StepOutcome([Lot(20.0, 10)], Some(PnLResult(103, sym, 50.0)))
  {
    assert Clear(Trade(103, sym, Sell, 15.0, 10), 10, [Lot(10.0, 10), Lot(20.0, 10)]) == Clearing(50.0, [Lot(20.0, 10)], 0);
  }

  lemma LifoSell(sym: string)
    ensures Step(LIFO, [Lot(20.0, 10), Lot(10.0, 10)], Trade(103, sym, Sell, 15.0, 10)) ==
      StepOutcome([Lot(10.0, 10)], Some(PnLResult(103, sym, -50.0)))
  {
    assert Clear(Trade(103, sym, Sell, 15.0, 10), 10, [Lot(20.0, 10), Lot(10.0, 10)]) == Clearing(-50.0, [Lot(10.0, 10)], 0);
  }

  /** Under FIFO the sell closes the 10@10 lot: +50, and the 10@20 lot stays open. */
  lemma FifoClosesFirstLot(sym: string)
    ensures Run(FIFO, map[], [Trade(101, sym, Buy, 10.0, 10), Trade(102, sym, Buy, 20.0, 10),
                              Trade(103, sym, Sell, 15.0, 10)]) ==
      Outcome(map[sym := [Lot(20.0, 10)]], [PnLResult(103, sym, 50.0)])
  {
    var t1 := Trade(101, sym, Buy, 10.0, 10);
    StepOnFlat(FIFO, t1);
    SecondBuy(FIFO, sym);
    FifoSell(sym);
    Chain3(FIFO, t1, Trade(102, sym, Buy, 20.0, 10), Trade(103, sym, Sell, 15.0, 10),
           StepOutcome([Lot(10.0, 10)], None), StepOutcome([Lot(10.0, 10), Lot(20.0, 10)], None),
           StepOutcome([Lot(20.0, 10)], Some(PnLResult(103, sym, 50.0))));
  }

  /** Under LIFO the sell closes the 10@20 lot: -50, and the 10@10 lot stays open. */
  lemma LifoClosesLastLot(sym: string)
    ensures Run(LIFO, map[], [Trade(101, sym, Buy, 10.0, 10), Trade(102, sym, Buy, 20.0, 10),
                              Trade(103, sym, Sell, 15.0, 10)]) ==
      Outcome(map[sym := [Lot(10.0, 10)]], [PnLResult(103, sym, -50.0)])
  {
    var t1 := Trade(101, sym, Buy, 10.0, 10);
    StepOnFlat(LIFO, t1);
    SecondBuy(LIFO, sym);
    LifoSell(sym);
    Chain3(LIFO, t1, Trade(102, sym, Buy, 20.0, 10), Trade(103, sym, Sell, 15.0, 10),
           StepOutcome([Lot(10.0, 10)], None), StepOutcome([Lot(20.0, 10), Lot(10.0, 10)], None),
           StepOutcome([Lot(10.0, 10)], Some(PnLResult(103, sym, -50.0))));
  }

  // ---------------------------------------------------------------------
  // Two-trade round trips: an opening trade, then a closing one

  lemma RoundTripSteps(sym: string)
    ensures Step(FIFO, [Lot(100.0, 10)], Trade(102, sym, Sell, 100.0, 10)) ==
      StepOutcome([], Some(PnLResult(102, sym, 0.0)))
    ensures Step(FIFO, [Lot(50.0, -10)], Trade(102, sym, Buy, 45.0, 10)) ==
      StepOutcome([], Some(PnLResult(102, sym, 50.0)))
    ensures Step(FIFO, [Lot(10.0, 1000000000)], Trade(102, sym, Sell, 11.0, 1000000000)) ==
      StepOutcome([], Some(PnLResult(102, sym, 1000000000.0)))
    ensures Step(FIFO, [Lot(10.0, 10)], Trade(102, sym, Sell, 20.0, 15)) ==
      StepOutcome([Lot(20.0, -5)], Some(PnLResult(102, sym, 100.0)))
  {
    assert Clear(Trade(102, sym, Sell, 100.0, 10), 10, [Lot(100.0, 10)]) == Clearing(0.0, [], 0);
    assert Clear(Trade(102, sym, Buy, 45.0, 10), 10, [Lot(50.0, -10)]) == Clearing(50.0, [], 0);
    assert Clear(Trade(102, sym, Sell, 11.0, 1000000000), 1000000000, [Lot(10.0, 1000000000)]) ==
      Clearing(1000000000.0, [], 0);
    assert Clear(Trade(102, sym, Sell, 20.0, 15), 15, [Lot(10.0, 10)]) == Clearing(100.0, [], 5);
    assert [] + [Lot(20.0, -5)] == [Lot(20.0, -5)];
  }

  /** Buy 10@100, Sell 10@100: one record with zero PnL, and a flat book. */
  lemma ZeroPnL(sym: string)
    ensures Run(FIFO, map[], [Trade(101, sym, Buy, 100.0, 10), Trade(102, sym, Sell, 100.0, 10)]) ==
      Outcome(map[sym := []], [PnLResult(102, sym, 0.0)])
  {
    var t1 := Trade(101, sym, Buy, 100.0, 10);
    StepOnFlat(FIFO, t1);
    RoundTripSteps(sym);
    Chain2(FIFO, t1, Trade(102, sym, Sell, 100.0, 10),
           StepOutcome([Lot(100.0, 10)], None), StepOutcome([], Some(PnLResult(102, sym, 0.0))));
  }

  /** Sell 10@50 opens a short; Buy 10@45 covers it for +50. */
  lemma ShortSelling(sym: string)
    ensures Run(FIFO, map[], [Trade(101, sym, Sell, 50.0, 10), Trade(102, sym, Buy, 45.0, 10)]) ==
      Outcome(map[sym := []], [PnLResult(102, sym, 50.0)])
  {
    var t1 := Trade(101, sym, Sell, 50.0, 10);
    StepOnFlat(FIFO, t1);
    RoundTripSteps(sym);
    Chain2(FIFO, t1, Trade(102, sym, Buy, 45.0, 10),
           StepOutcome([Lot(50.0, -10)], None), StepOutcome([], Some(PnLResult(102, sym, 50.0))));
  }

  /** One billion units bought at 10 and sold at 11 realize exactly one billion. */
  lemma LargeQuantities(sym: string)
    ensures Run(FIFO, map[], [Trade(101, sym, Buy, 10.0, 1000000000), Trade(102, sym, Sell, 11.0, 1000000000)]) ==
      Outcome(map[sym := []], [PnLResult(102, sym, 1000000000.0)])
  {
    var t1 := Trade(101, sym, Buy, 10.0, 1000000000);
    StepOnFlat(FIFO, t1);
    RoundTripSteps(sym);
    Chain2(FIFO, t1, Trade(102, sym, Sell, 11.0, 1000000000),
           StepOutcome([Lot(10.0, 1000000000)], None), StepOutcome([], Some(PnLResult(102, sym, 1000000000.0))));
  }

  /** Buy 10@10, Sell 15@20: +100 on the 10 units held, and a short lot of 5 at 20 is left (a sign flip). */
  lemma SignFlip(sym: string)
    ensures Run(FIFO, map[], [Trade(101, sym, Buy, 10.0, 10), Trade(102, sym, Sell, 20.0, 15)]) ==
      Outcome(map[sym := [Lot(20.0, -5)]], [PnLResult(102, sym, 100.0)])
  {
    var t1 := Trade(101, sym, Buy, 10.0, 10);
    StepOnFlat(FIFO, t1);
    RoundTripSteps(sym);
    Chain2(FIFO, t1, Trade(102, sym, Sell, 20.0, 15),
           StepOutcome([Lot(10.0, 10)], None), StepOutcome([Lot(20.0, -5)], Some(PnLResult(102, sym, 100.0))));
  }

  // ---------------------------------------------------------------------
  // Two symbols: Buy a 10@100, Buy g 5@2000, Sell a 5@110, Sell g 3@2100

  lemma MultiSymbolSells(a: string, g: string)
    ensures Step(FIFO, [Lot(100.0, 10)], Trade(103, a, Sell, 110.0, 5)) ==
      StepOutcome([Lot(100.0, 5)], Some(PnLResult(103, a, 50.0)))
    ensures Step(FIFO, [Lot(2000.0, 5)], Trade(104, g, Sell, 2100.0, 3)) ==
      StepOutcome([Lot(2000.0, 2)], Some(PnLResult(104, g, 300.0)))
  {
    assert Clear(Trade(103, a, Sell, 110.0, 5), 5, [Lot(100.0, 10)]) == Clearing(50.0, [Lot(100.0, 5)], 0);
    assert Clear(Trade(104, g, Sell, 2100.0, 3), 3, [Lot(2000.0, 5)]) == Clearing(300.0, [Lot(2000.0, 2)], 0);
  }

  /** The two symbols are matched independently: +50 on the first, +300 on the second. */
  lemma MultiSymbol(a: string, g: string)
    requires a != g
    ensures Run(FIFO, map[], [Trade(101, a, Buy, 100.0, 10), Trade(102, g, Buy, 2000.0, 5),
                              Trade(103, a, Sell, 110.0, 5), Trade(104, g, Sell, 2100.0, 3)]) ==
      Outcome(map[a := [Lot(100.0, 5)], g := [Lot(2000.0, 2)]],
              [PnLResult(103, a, 50.0), PnLResult(104, g, 300.0)])
  {
    var t1, t2 := Trade(101, a, Buy, 100.0, 10), Trade(102, g, Buy, 2000.0, 5);
    StepOnFlat(FIFO, t1);
    StepOnFlat(FIFO, t2);
    MultiSymbolSells(a, g);
    ChainTwoSymbols(FIFO, t1, t2, Trade(103, a, Sell, 110.0, 5), Trade(104, g, Sell, 2100.0, 3),
                    StepOutcome([Lot(100.0, 10)], None), StepOutcome([Lot(2000.0, 5)], None),
                    StepOutcome([Lot(100.0, 5)], Some(PnLResult(103, a, 50.0))),
                    StepOutcome([Lot(2000.0, 2)], Some(PnLResult(104, g, 300.0))));
  }

  // ---------------------------------------------------------------------
  // Partial fills: Buy 15@100, Buy 15@200, Sell 20@150, Sell 10@175

  lemma PartialFillsSteps(sym: string)
    ensures Step(FIFO, [Lot(100.0, 15)], Trade(102, sym, Buy, 200.0, 15)) ==
      StepOutcome([Lot(100.0, 15), Lot(200.0, 15)], None)
    ensures Step(FIFO, [Lot(100.0, 15), Lot(200.0, 15)], Trade(103, sym, Sell, 150.0, 20)) ==
      StepOutcome([Lot(200.0, 10)], Some(PnLResult(103, sym, 500.0)))
    ensures Step(FIFO, [Lot(200.0, 10)], Trade(104, sym, Sell, 175.0, 10)) ==
      StepOutcome([], Some(PnLResult(104, sym, -250.0)))
  {
    var t3 := Trade(103, sym, Sell, 150.0, 20);
    assert [Lot(100.0, 15)] + [Lot(200.0, 15)] == [Lot(100.0, 15), Lot(200.0, 15)];
    assert Clear(t3, 5, [Lot(200.0, 15)]) == Clearing(-250.0, [Lot(200.0, 10)], 0);
    assert Clear(t3, 20, [Lot(100.0, 15), Lot(200.0, 15)]) == Clearing(500.0, [Lot(200.0, 10)], 0);
    assert Clear(Trade(104, sym, Sell, 175.0, 10), 10, [Lot(200.0, 10)]) == Clearing(-250.0, [], 0);
  }

  /**
   * Under FIFO the first sell closes 15@100 and 5 of the 15@200 lot
   * (750 - 250 = 500); the second closes the rest of that lot (-250).
   */
  lemma PartialFills(sym: string)
    ensures Run(FIFO, map[], [Trade(101, sym, Buy, 100.0, 15), Trade(102, sym, Buy, 200.0, 15),
                              Trade(103, sym, Sell, 150.0, 20), Trade(104, sym, Sell, 175.0, 10)]) ==
      Outcome(map[sym := []], [PnLResult(103, sym, 500.0), PnLResult(104, sym, -250.0)])
  {
    var t1 := Trade(101, sym, Buy, 100.0, 15);
    StepOnFlat(FIFO, t1);
    PartialFillsSteps(sym);
    Chain4(FIFO, t1, Trade(102, sym, Buy, 200.0, 15), Trade(103, sym, Sell, 150.0, 20), Trade(104, sym, Sell, 175.0, 10),
           StepOutcome([Lot(100.0, 15)], None), StepOutcome([Lot(100.0, 15), Lot(200.0, 15)], None),
           StepOutcome([Lot(200.0, 10)], Some(PnLResult(103, sym, 500.0))),
           StepOutcome([], Some(PnLResult(104, sym, -250.0))));
  }
}
