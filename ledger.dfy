/**
 * The position book of all symbols (a map from symbol to that symbol's
 * lots) and the specification of processing a whole trade sequence.
 */
module Ledger {
  import opened Trades
  import opened Book

  type Positions = map<string, seq<Lot>>

  /** The lots of `symbol`; a symbol never seen has no lots. */
  function BookOf(positions: Positions, symbol: string): seq<Lot>
  {
    if symbol in positions then positions[symbol] else []
  }

  /** The invariant between trades: every symbol's book is single-sign. */
  ghost predicate AllSingleSign(positions: Positions)
  {
    forall s :: s in positions ==> SingleSign(positions[s])
  }

  /** All symbols after one trade, and the record it emits, if any. */
  datatype Applied = Applied(positions: Positions, record: Option<PnLResult>)

  /**
   * One trade against the whole book: the trade's symbol gets an entry (empty
   * on first sight, then the trade's step), and no other symbol changes.
   */
  function Apply(scheme: Scheme, positions: Positions, trade: Trade): (a: Applied)
    ensures a.positions.Keys == positions.Keys + {trade.symbol}
    ensures forall s :: s in positions && s != trade.symbol ==> a.positions[s] == positions[s]
    ensures a.record.Some? <==> IsOffsetting(trade.side, BookOf(positions, trade.symbol))
    ensures a.record.Some? ==>
      a.record.value.timestamp == trade.timestamp && a.record.value.symbol == trade.symbol
  {
    var o := Step(scheme, BookOf(positions, trade.symbol), trade);
    Applied(positions[trade.symbol := o.book], o.record)
  }

  /** Applying a trade depends only on the book of the trade's symbol. */
  lemma ApplyOnBook(scheme: Scheme, positions: Positions, book: seq<Lot>, trade: Trade)
    requires BookOf(positions, trade.symbol) == book
    ensures Apply(scheme, positions, trade) ==
      Applied(positions[trade.symbol := Step(scheme, book, trade).book], Step(scheme, book, trade).record)
  {
  }

  /** All symbols after a sequence of trades, and the records emitted in order. */
  datatype Outcome = Outcome(positions: Positions, results: seq<PnLResult>)

  /** The record a trade contributes to the result sequence: none, or exactly one. */
  function Emitted(record: Option<PnLResult>): (r: seq<PnLResult>)
    ensures |r| <= 1
    ensures r == [] <==> record.None?
  {
    if record.Some? then [record.value] else []
  }

  /**
   * Processing `trades` in order from `positions`: each trade is applied to
   * the book left by the earlier ones and appends at most one record.
   */
  function Run(scheme: Scheme, positions: Positions, trades: seq<Trade>): (o: Outcome)
    ensures |o.results| <= |trades|
  {
    if trades == [] then Outcome(positions, [])
    else
      var prev := Run(scheme, positions, trades[..|trades| - 1]);
      var a := Apply(scheme, prev.positions, trades[|trades| - 1]);
      Outcome(a.positions, prev.results + Emitted(a.record))
  }

  /** Extending the trade sequence by one trade applies that trade to the book left by the others. */
  lemma RunExtend(scheme: Scheme, positions: Positions, trades: seq<Trade>, i: int)
    requires 0 <= i < |trades|
    ensures var prev := Run(scheme, positions, trades[..i]);
      var a := Apply(scheme, prev.positions, trades[i]);
      Run(scheme, positions, trades[..i + 1]) == Outcome(a.positions, prev.results + Emitted(a.record))
  {
    assert trades[..i + 1][..i] == trades[..i];
  }

  /** Appending one trade applies it to the book left by the others. */
  lemma RunSnoc(scheme: Scheme, positions: Positions, trades: seq<Trade>, t: Trade)
    ensures var prev := Run(scheme, positions, trades);
      var a := Apply(scheme, prev.positions, t);
      Run(scheme, positions, trades + [t]) == Outcome(a.positions, prev.results + Emitted(a.record))
  {
    assert (trades + [t])[..|trades|] == trades;
  }

  lemma OverwriteEntry(positions: Positions, symbol: string, a: seq<Lot>, b: seq<Lot>)
    ensures positions[symbol := a][symbol := b] == positions[symbol := b]
  {
  }

  /** Sum of the signed quantities of the trades in `symbol`: buys count up, sells down. */
  function SignedVolume(trades: seq<Trade>, symbol: string): int
  {
    if trades == [] then 0
    else
      var last := trades[|trades| - 1];
      SignedVolume(trades[..|trades| - 1], symbol) +
        (if last.symbol == symbol then Signed(last.side, last.quantity) else 0)
  }

  /** The (timestamp, symbol) pair of each record, in order. */
  function Keys(results: seq<PnLResult>): (k: seq<(int, string)>)
    ensures |k| == |results|
    ensures forall i :: 0 <= i < |results| ==> k[i] == (results[i].timestamp, results[i].symbol)
  {
    if results == [] then [] else Keys(results[..|results| - 1]) + [(results[|results| - 1].timestamp, results[|results| - 1].symbol)]
  }

  // ---------------------------------------------------------------------
  // Properties of processing a trade sequence

  /** Every symbol's book is single-sign after every trade. */
  lemma {:induction false} RunKeepsSingleSign(scheme: Scheme, positions: Positions, trades: seq<Trade>)
    requires AllSingleSign(positions)
    ensures AllSingleSign(Run(scheme, positions, trades).positions)
  {
    if trades != [] {
      var prev := Run(scheme, positions, trades[..|trades| - 1]);
      var t := trades[|trades| - 1];
      RunKeepsSingleSign(scheme, positions, trades[..|trades| - 1]);
      assert SingleSign(BookOf(prev.positions, t.symbol));
      StepKeepsSingleSign(scheme, BookOf(prev.positions, t.symbol), t);
    }
  }

  /**
   * Every record is emitted by one of the trades, applied to the positions
   * left by the trades before it, and carries that trade's timestamp and symbol.
   */
  lemma RunRecordsComeFromTrades(scheme: Scheme, positions: Positions, trades: seq<Trade>, i: int)
    requires 0 <= i < |Run(scheme, positions, trades).results|
    ensures exists j :: (0 <= j < |trades| &&
      Apply(scheme, Run(scheme, positions, trades[..j]).positions, trades[j]).record ==
        Some(Run(scheme, positions, trades).results[i]) &&
      Run(scheme, positions, trades).results[i].timestamp == trades[j].timestamp &&
      Run(scheme, positions, trades).results[i].symbol == trades[j].symbol)
  {
    var j := RecordSource(scheme, positions, trades, i);
  }

  /**
   * The index of the trade that emitted record `i`: applied to the positions
   * left by the trades before it, that trade emits exactly this record.
   */
  lemma {:induction false} RecordSource(scheme: Scheme, positions: Positions, trades: seq<Trade>, i: int) returns (j: int)
    requires 0 <= i < |Run(scheme, positions, trades).results|
    ensures 0 <= j < |trades|
    ensures Apply(scheme, Run(scheme, positions, trades[..j]).positions, trades[j]).record ==
      Some(Run(scheme, positions, trades).results[i])
    ensures Run(scheme, positions, trades).results[i].timestamp == trades[j].timestamp
    ensures Run(scheme, positions, trades).results[i].symbol == trades[j].symbol
  {
    var init, last := trades[..|trades| - 1], trades[|trades| - 1];
    var prev := Run(scheme, positions, init);
    var a := Apply(scheme, prev.positions, last);
    var results := Run(scheme, positions, trades).results;
    assert results == prev.results + Emitted(a.record);
    if i < |prev.results| {
      j := RecordSource(scheme, positions, init, i);
      var before := Run(scheme, positions, init[..j]);
      assert Apply(scheme, before.positions, init[j]).record == Some(prev.results[i]);
      PrefixOfInit(trades, j);
      assert Run(scheme, positions, trades[..j]) == before;
      assert results[i] == prev.results[i];
      assert Apply(scheme, Run(scheme, positions, trades[..j]).positions, trades[j]).record == Some(results[i]);
    } else {
      assert a.record.Some? && results[i] == a.record.value;
      j := |trades| - 1;
      assert Run(scheme, positions, trades[..j]) == prev;
      assert Apply(scheme, Run(scheme, positions, trades[..j]).positions, trades[j]).record == Some(results[i]);
    }
  }

  lemma PrefixOfInit(trades: seq<Trade>, j: int)
    requires 0 <= j < |trades| - 1
    ensures trades[..|trades| - 1][..j] == trades[..j] && trades[..|trades| - 1][j] == trades[j]
  {
  }

  /** The symbols with an entry after a run: those before, plus every symbol traded. */
  lemma {:induction false} RunSymbols(scheme: Scheme, positions: Positions, trades: seq<Trade>)
    ensures Run(scheme, positions, trades).positions.Keys == positions.Keys + Symbols(trades)
  {
    if trades != [] {
      RunSymbols(scheme, positions, trades[..|trades| - 1]);
    }
  }

  /** The symbols the trades mention. */
  function Symbols(trades: seq<Trade>): set<string>
  {
    if trades == [] then {} else Symbols(trades[..|trades| - 1]) + {trades[|trades| - 1].symbol}
  }

  /** A symbol is among the traded symbols exactly when some trade is in it. */
  lemma {:induction false} SymbolsMentioned(trades: seq<Trade>, symbol: string)
    ensures symbol in Symbols(trades) <==> exists i :: 0 <= i < |trades| && trades[i].symbol == symbol
  {
    if trades != [] {
      var init := trades[..|trades| - 1];
      SymbolsMentioned(init, symbol);
      if symbol in Symbols(init) {
        var i :| 0 <= i < |init| && init[i].symbol == symbol;
        assert trades[i] == init[i];
      }
      if exists i :: 0 <= i < |trades| && trades[i].symbol == symbol {
        var i :| 0 <= i < |trades| && trades[i].symbol == symbol;
        if i < |init| {
          assert init[i] == trades[i];
        }
      }
    }
  }

  /** A symbol no trade mentions keeps its book, whatever happens to the other symbols. */
  lemma {:induction false} RunIsolatesSymbols(scheme: Scheme, positions: Positions, trades: seq<Trade>, symbol: string)
    requires forall i :: 0 <= i < |trades| ==> trades[i].symbol != symbol
    ensures BookOf(Run(scheme, positions, trades).positions, symbol) == BookOf(positions, symbol)
  {
    if trades != [] {
      RunIsolatesSymbols(scheme, positions, trades[..|trades| - 1], symbol);
    }
  }

  /**
   * Quantity is conserved: from single-sign books, each symbol's net position
   * after the run is its net position before plus the signed volume traded in it.
   */
  lemma {:induction false} RunNet(scheme: Scheme, positions: Positions, trades: seq<Trade>, symbol: string)
    requires AllSingleSign(positions)
    ensures NetQuantity(BookOf(Run(scheme, positions, trades).positions, symbol)) ==
      NetQuantity(BookOf(positions, symbol)) + SignedVolume(trades, symbol)
  {
    if trades != [] {
      var init := trades[..|trades| - 1];
      var prev := Run(scheme, positions, init);
      var t := trades[|trades| - 1];
      RunNet(scheme, positions, init, symbol);
      if t.symbol == symbol {
        RunKeepsSingleSign(scheme, positions, init);
        StepNet(scheme, BookOf(prev.positions, symbol), t);
      }
    }
  }

  /**
   * FIFO and LIFO, run over the same trades from the same single-sign books,
   * emit records with the same (timestamp, symbol) sequence; only the PnL
   * values may differ. Which trades emit is stated by SchemesAgreeOnEmitting.
   */
  lemma {:induction false} SchemesAgreeOnRecords(positions: Positions, trades: seq<Trade>)
    requires AllSingleSign(positions)
    ensures Keys(Run(FIFO, positions, trades).results) == Keys(Run(LIFO, positions, trades).results)
  {
    if trades != [] {
      var init := trades[..|trades| - 1];
      var t := trades[|trades| - 1];
      var f := Run(FIFO, positions, init);
      var l := Run(LIFO, positions, init);
      SchemesAgreeOnRecords(positions, init);
      SchemesAgreeOnEmitting(positions, trades, |trades| - 1);
      var af := Apply(FIFO, f.positions, t);
      var al := Apply(LIFO, l.positions, t);
      KeysAppend(f.results, Emitted(af.record));
      KeysAppend(l.results, Emitted(al.record));
    }
  }

  /**
   * Trade by trade, FIFO and LIFO agree on whether a record is emitted: from
   * the same single-sign books, trade j offsets under one scheme exactly when
   * it offsets under the other, on the positions each left after trades[..j].
   */
  lemma SchemesAgreeOnEmitting(positions: Positions, trades: seq<Trade>, j: int)
    requires AllSingleSign(positions) && 0 <= j < |trades|
    ensures Apply(FIFO, Run(FIFO, positions, trades[..j]).positions, trades[j]).record.Some? ==
      Apply(LIFO, Run(LIFO, positions, trades[..j]).positions, trades[j]).record.Some?
  {
    var t := trades[j];
    var f := Run(FIFO, positions, trades[..j]);
    var l := Run(LIFO, positions, trades[..j]);
    RunKeepsSingleSign(FIFO, positions, trades[..j]);
    RunKeepsSingleSign(LIFO, positions, trades[..j]);
    RunNet(FIFO, positions, trades[..j], t.symbol);
    RunNet(LIFO, positions, trades[..j], t.symbol);
    OffsettingByNet(t.side, BookOf(f.positions, t.symbol));
    OffsettingByNet(t.side, BookOf(l.positions, t.symbol));
  }

  lemma KeysAppend(a: seq<PnLResult>, b: seq<PnLResult>)
    ensures Keys(a + b) == Keys(a) + Keys(b)
  {
    assert |Keys(a + b)| == |Keys(a) + Keys(b)|;
  }
}
