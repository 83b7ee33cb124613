/**
 * One symbol's position book (an ordered sequence of open lots, consumed at
 * the front) and the specification of what one trade does to it.
 */
module Book {
  import opened Trades

  /** Total open units of a book: the sum of the lots' magnitudes. */
  function Exposure(book: seq<Lot>): (e: nat)
    ensures book == [] ==> e == 0
  {
    if book == [] then 0 else Abs(book[0].quantity) + Exposure(book[1..])
  }

  /** Net signed position of a book: the sum of the lots' signed quantities. */
  function NetQuantity(book: seq<Lot>): int
  {
    if book == [] then 0 else book[0].quantity + NetQuantity(book[1..])
  }

  ghost predicate Long(book: seq<Lot>)
  {
    forall i :: 0 <= i < |book| ==> book[i].quantity > 0
  }

  ghost predicate Short(book: seq<Lot>)
  {
    forall i :: 0 <= i < |book| ==> book[i].quantity < 0
  }

  /**
   * The book invariant between trades: every lot is non-zero and all lots
   * share one sign (flat, all long, or all short).
   */
  ghost predicate SingleSign(book: seq<Lot>)
  {
    Long(book) || Short(book)
  }

  /** Whether a trade of `side` closes against the front lot of `book`. */
  predicate IsOffsetting(side: Side, book: seq<Lot>)
  {
    book != [] &&
    ((side == Buy && book[0].quantity < 0) || (side == Sell && book[0].quantity > 0))
  }

  /** Where a newly opened lot goes: the back under FIFO, the front under LIFO. */
  function Insert(scheme: Scheme, book: seq<Lot>, lot: Lot): (r: seq<Lot>)
    ensures |r| == |book| + 1
    ensures scheme == FIFO ==> r[|book|] == lot && r[..|book|] == book
    ensures scheme == LIFO ==> r[0] == lot && r[1..] == book
  {
    if scheme == LIFO then [lot] + book else book + [lot]
  }

  /** The outcome of the clearing loop: accumulated PnL, what is left of the book, unconsumed quantity. */
  datatype Clearing = Clearing(pnl: real, rest: seq<Lot>, residual: int)

  /** The front lot after `cleared` of its units are consumed: same price and sign, smaller magnitude. */
  function Reduce(lot: Lot, cleared: int): (r: Lot)
    requires 0 <= cleared < Abs(lot.quantity)
    ensures r.price == lot.price
    ensures r.quantity > 0 <==> lot.quantity > 0
    ensures r.quantity != 0 && Abs(r.quantity) == Abs(lot.quantity) - cleared
  {
    Lot(lot.price, (if lot.quantity > 0 then 1 else -1) * (Abs(lot.quantity) - cleared))
  }

  /**
   * The clearing loop of a closing trade with `side` at `price`: while
   * quantity remains and the book is non-empty, consume
   * min(remaining, |front lot|) from the front lot, realize its PnL, pop the
   * lot when it reaches zero and otherwise shrink it in place.
   */
  function Clear(trade: Trade, remaining: int, book: seq<Lot>): (c: Clearing)
    ensures remaining >= 0 ==> 0 <= c.residual <= remaining
    ensures c.residual > 0 ==> c.rest == []
    ensures |c.rest| <= |book|
    decreases |book|, remaining
  {
    if remaining <= 0 || book == [] then Clearing(0.0, book, remaining)
    else
      var lot := book[0];
      var cleared := Min(remaining, Abs(lot.quantity));
      var book' := if Abs(lot.quantity) - cleared == 0 then book[1..] else [Reduce(lot, cleared)] + book[1..];
      var c := Clear(trade, remaining - cleared, book');
      Clearing(CalculatePnL(trade, lot, cleared) + c.pnl, c.rest, c.residual)
  }

  /** What `clearPositions` leaves behind: the new book and the trade's realized PnL. */
  datatype Settlement = Settlement(book: seq<Lot>, pnl: real)

  /**
   * A closing trade: run the clearing loop over the whole trade quantity,
   * and open any residual as a new lot of the trade's sign at the trade price.
   * A trade no larger than the open interest shrinks the book by exactly its
   * quantity and keeps the book's sign; a larger one empties the book and
   * leaves one lot of the trade's sign for the excess (a sign flip). Either
   * way a single-sign book stays single-sign.
   */
  function Settle(scheme: Scheme, trade: Trade, book: seq<Lot>): (s: Settlement)
    ensures s.pnl == Clear(trade, trade.quantity, book).pnl
    ensures trade.quantity <= Exposure(book) ==>
      Exposure(s.book) == Exposure(book) - trade.quantity &&
      (Long(book) ==> Long(s.book)) && (Short(book) ==> Short(s.book))
    ensures trade.quantity > Exposure(book) ==>
      s.book == [Lot(trade.price, Signed(trade.side, trade.quantity - Exposure(book)))]
    ensures SingleSign(book) ==> SingleSign(s.book)
  {
    var c := Clear(trade, trade.quantity, book);
    ClearConserves(trade, trade.quantity, book);
    ClearKeepsSign(trade, trade.quantity, book);
    if c.residual > 0 then
      assert [] + [Lot(trade.price, Signed(trade.side, c.residual))] == [Lot(trade.price, Signed(trade.side, c.residual))];
      Settlement(Insert(scheme, c.rest, Lot(trade.price, Signed(trade.side, c.residual))), c.pnl)
    else
      Settlement(c.rest, c.pnl)
  }

  /** What one trade does to its symbol's book: the new book, and the record it emits, if any. */
  datatype StepOutcome = StepOutcome(book: seq<Lot>, record: Option<PnLResult>)

  /**
   * One trade against its symbol's book: an offsetting trade settles and
   * emits one record; any other trade opens one lot and emits nothing.
   */
  function Step(scheme: Scheme, book: seq<Lot>, trade: Trade): (o: StepOutcome)
    ensures o.record.Some? <==> IsOffsetting(trade.side, book)
    ensures o.record.Some? ==>
      o.record.value.timestamp == trade.timestamp && o.record.value.symbol == trade.symbol
  {
    if IsOffsetting(trade.side, book) then
      var s := Settle(scheme, trade, book);
      StepOutcome(s.book, Some(PnLResult(trade.timestamp, trade.symbol, s.pnl)))
    else
      StepOutcome(Insert(scheme, book, Lot(trade.price, Signed(trade.side, trade.quantity))), None)
  }

  // ---------------------------------------------------------------------
  // Properties of the clearing loop

  /**
   * Quantity is conserved: the clearing loop consumes min(remaining, exposure)
   * units, exactly that many leave the book, and the rest is the residual.
   */
  lemma {:induction false} ClearConserves(trade: Trade, remaining: int, book: seq<Lot>)
    requires remaining >= 0
    ensures var c := Clear(trade, remaining, book);
      remaining - c.residual == Min(remaining, Exposure(book)) &&
      Exposure(c.rest) == Exposure(book) - (remaining - c.residual)
    decreases |book|, remaining
  {
    if remaining > 0 && book != [] {
      var lot := book[0];
      var cleared := Min(remaining, Abs(lot.quantity));
      if Abs(lot.quantity) - cleared == 0 {
        ClearConserves(trade, remaining - cleared, book[1..]);
      } else {
        var book' := [Reduce(lot, cleared)] + book[1..];
        assert book'[1..] == book[1..];
        ClearConserves(trade, remaining - cleared, book');
      }
    }
  }

  /** The clearing loop only removes or shrinks lots, so a long book stays long and a short one short. */
  lemma {:induction false} ClearKeepsSign(trade: Trade, remaining: int, book: seq<Lot>)
    ensures Long(book) ==> Long(Clear(trade, remaining, book).rest)
    ensures Short(book) ==> Short(Clear(trade, remaining, book).rest)
    decreases |book|, remaining
  {
    if remaining > 0 && book != [] {
      var lot := book[0];
      var cleared := Min(remaining, Abs(lot.quantity));
      if Abs(lot.quantity) - cleared == 0 {
        ClearKeepsSign(trade, remaining - cleared, book[1..]);
      } else {
        var book' := [Reduce(lot, cleared)] + book[1..];
        assert Long(book) ==> Long(book');
        assert Short(book) ==> Short(book');
        ClearKeepsSign(trade, remaining - cleared, book');
      }
    }
  }

  /** A trade that fits in the front lot realizes exactly that lot's PnL and shrinks or pops it. */
  lemma ClearWithinFrontLot(trade: Trade, remaining: int, book: seq<Lot>)
    requires book != [] && 0 < remaining <= Abs(book[0].quantity)
    ensures Clear(trade, remaining, book).pnl == CalculatePnL(trade, book[0], remaining)
    ensures Clear(trade, remaining, book).residual == 0
    ensures Clear(trade, remaining, book).rest ==
      if remaining == Abs(book[0].quantity) then book[1..] else [Reduce(book[0], remaining)] + book[1..]
  {
  }

  /**
   * One round of the clearing loop, as the loop writes it: the front lot is
   * popped when fully consumed and otherwise rewritten with its sign times
   * the units left; the loop over the rest then finishes the job.
   */
  lemma ClearRound(trade: Trade, remaining: int, book: seq<Lot>)
    requires remaining > 0 && book != []
    ensures var cleared := Min(remaining, Abs(book[0].quantity));
      var left := Abs(book[0].quantity) - cleared;
      var next := if left == 0 then book[1..]
        else [Lot(book[0].price, (if book[0].quantity > 0 then 1 else -1) * left)] + book[1..];
      var c := Clear(trade, remaining - cleared, next);
      Clear(trade, remaining, book) == Clearing(CalculatePnL(trade, book[0], cleared) + c.pnl, c.rest, c.residual)
  {
  }

  /**
   * Partial fills against the front lot compose: closing a units and then b
   * more realizes the PnL of closing a + b at once and leaves the same book.
   */
  lemma SplitCloseWithinFrontLot(trade: Trade, a: int, b: int, book: seq<Lot>)
    requires book != [] && 0 < a && 0 < b && a + b <= Abs(book[0].quantity)
    ensures Clear(trade, a + b, book).pnl ==
      Clear(trade, a, book).pnl + Clear(trade, b, Clear(trade, a, book).rest).pnl
    ensures Clear(trade, a + b, book).rest == Clear(trade, b, Clear(trade, a, book).rest).rest
  {
    ClearWithinFrontLot(trade, a + b, book);
    ClearWithinFrontLot(trade, a, book);
    var mid := [Reduce(book[0], a)] + book[1..];
    assert Clear(trade, a, book).rest == mid;
    assert mid[0] == Reduce(book[0], a) && mid[1..] == book[1..];
    ClearWithinFrontLot(trade, b, mid);
    CalculatePnLAdditive(trade, book[0], a, b);
    assert CalculatePnL(trade, mid[0], b) == CalculatePnL(trade, book[0], b);
    if a + b < Abs(book[0].quantity) {
      assert Reduce(mid[0], b) == Reduce(book[0], a + b);
    }
  }

  // ---------------------------------------------------------------------
  // Exposure and net position

  lemma {:induction false} LongNet(book: seq<Lot>)
    requires Long(book)
    ensures NetQuantity(book) == Exposure(book)
  {
    if book != [] {
      assert Long(book[1..]);
      LongNet(book[1..]);
    }
  }

  lemma {:induction false} ShortNet(book: seq<Lot>)
    requires Short(book)
    ensures NetQuantity(book) == -(Exposure(book) as int)
  {
    if book != [] {
      assert Short(book[1..]);
      ShortNet(book[1..]);
    }
  }

  lemma {:induction false} NetQuantityAppend(book: seq<Lot>, lot: Lot)
    ensures NetQuantity(book + [lot]) == NetQuantity(book) + lot.quantity
  {
    if book != [] {
      assert (book + [lot])[1..] == book[1..] + [lot];
      NetQuantityAppend(book[1..], lot);
    }
  }

  /** Inserting a lot at either end adds its signed quantity to the net position. */
  lemma InsertNet(scheme: Scheme, book: seq<Lot>, lot: Lot)
    ensures NetQuantity(Insert(scheme, book, lot)) == NetQuantity(book) + lot.quantity
  {
    if scheme == FIFO {
      NetQuantityAppend(book, lot);
    } else {
      assert ([lot] + book)[1..] == book;
    }
  }

  /** The sign of a single-sign book is the sign of its front lot. */
  lemma SingleSignFront(book: seq<Lot>)
    requires SingleSign(book) && book != []
    ensures book[0].quantity > 0 ==> Long(book)
    ensures book[0].quantity < 0 ==> Short(book)
    ensures book[0].quantity != 0
  {
  }

  // ---------------------------------------------------------------------
  // What one trade does to a book

  /**
   * A trade that is not offsetting emits nothing and opens exactly one lot
   * at the trade price, with +q for a buy and -q for a sell: at the back
   * under FIFO, at the front under LIFO.
   */
  lemma StepOpensLot(scheme: Scheme, book: seq<Lot>, trade: Trade)
    requires !IsOffsetting(trade.side, book)
    ensures var o := Step(scheme, book, trade);
      var lot := Lot(trade.price, if trade.side == Buy then trade.quantity as int else -(trade.quantity as int));
      o.record == None &&
      (scheme == FIFO ==> o.book == book + [lot]) &&
      (scheme == LIFO ==> o.book == [lot] + book)
  {
  }

  /** On a flat book any trade opens a single lot of its own sign at its price, under either scheme. */
  lemma StepOnFlat(scheme: Scheme, trade: Trade)
    ensures Step(scheme, [], trade) == StepOutcome([Lot(trade.price, Signed(trade.side, trade.quantity))], None)
  {
    assert [] + [Lot(trade.price, Signed(trade.side, trade.quantity))] == [Lot(trade.price, Signed(trade.side, trade.quantity))];
  }

  /** The single-sign invariant holds after every trade. */
  lemma StepKeepsSingleSign(scheme: Scheme, book: seq<Lot>, trade: Trade)
    requires SingleSign(book)
    ensures SingleSign(Step(scheme, book, trade).book)
  {
    var o := Step(scheme, book, trade);
    if !IsOffsetting(trade.side, book) {
      var lot := Lot(trade.price, Signed(trade.side, trade.quantity));
      if book != [] {
        SingleSignFront(book);
      }
      assert trade.side == Buy ==> Long(book);
      assert trade.side == Sell ==> Short(book);
      if trade.side == Buy {
        assert Long(o.book);
      } else {
        assert Short(o.book);
      }
    }
  }

  /**
   * Quantity is conserved across a trade: the net position afterwards is the
   * net position before plus the trade's signed quantity, under either scheme.
   */
  lemma StepNet(scheme: Scheme, book: seq<Lot>, trade: Trade)
    requires SingleSign(book)
    ensures NetQuantity(Step(scheme, book, trade).book) == NetQuantity(book) + Signed(trade.side, trade.quantity)
  {
    if IsOffsetting(trade.side, book) {
      var c := Clear(trade, trade.quantity, book);
      ClearConserves(trade, trade.quantity, book);
      ClearKeepsSign(trade, trade.quantity, book);
      SingleSignFront(book);
      if trade.side == Sell {
        LongNet(book);
        LongNet(c.rest);
      } else {
        ShortNet(book);
        ShortNet(c.rest);
      }
      if c.residual > 0 {
        InsertNet(scheme, c.rest, Lot(trade.price, Signed(trade.side, c.residual)));
      }
    } else {
      InsertNet(scheme, book, Lot(trade.price, Signed(trade.side, trade.quantity)));
    }
  }

  /**
   * For a single-sign book, whether a trade is offsetting depends only on
   * the sign of the net position, not on how it is split into lots.
   */
  lemma OffsettingByNet(side: Side, book: seq<Lot>)
    requires SingleSign(book)
    ensures IsOffsetting(side, book) <==>
      (side == Buy && NetQuantity(book) < 0) || (side == Sell && NetQuantity(book) > 0)
  {
    if book != [] {
      SingleSignFront(book);
      if Long(book) { LongNet(book); } else { ShortNet(book); }
      assert Exposure(book) >= Abs(book[0].quantity) > 0;
    }
  }

  /** Under FIFO a closing trade that fits in the oldest lot realizes that lot's PnL. */
  lemma FifoClosesOldestLot(book: seq<Lot>, opening: Trade, closing: Trade)
    requires !IsOffsetting(opening.side, book) && book != []
    requires IsOffsetting(closing.side, Step(FIFO, book, opening).book)
    requires closing.quantity <= Abs(book[0].quantity)
    ensures Step(FIFO, Step(FIFO, book, opening).book, closing).record.value.pnl ==
      CalculatePnL(closing, book[0], closing.quantity)
  {
    var b := Step(FIFO, book, opening).book;
    assert b[0] == book[0];
    ClearWithinFrontLot(closing, closing.quantity, b);
  }

  /** Under LIFO a closing trade that fits in the newest lot realizes that lot's PnL. */
  lemma LifoClosesNewestLot(book: seq<Lot>, opening: Trade, closing: Trade)
    requires !IsOffsetting(opening.side, book)
    requires IsOffsetting(closing.side, Step(LIFO, book, opening).book)
    requires closing.quantity <= opening.quantity
    ensures Step(LIFO, Step(LIFO, book, opening).book, closing).record.value.pnl ==
      CalculatePnL(closing, Lot(opening.price, Signed(opening.side, opening.quantity)), closing.quantity)
  {
    var b := Step(LIFO, book, opening).book;
    ClearWithinFrontLot(closing, closing.quantity, b);
  }
}
