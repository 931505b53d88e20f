/** strategy.py: MACD/RSI/Bollinger indicators written into the caller's frame, a crossover
    labeller that first checks its input columns and drops incomplete rows, and a single-position
    backtest that replays the labels. */
module Strategy {
  import opened Wrappers
  import opened Frames
  import opened Series

  // ---------------------------------------------------------------- calculate_indicators

  /** The seven columns `calculate_indicators` computes. */
  datatype Indicators = Indicators(macd: Column, signalLine: Column, rsi: Column, ma20: Column,
                                   std20: Column, upper: Column, lower: Column)

  /** The indicators of a defined Close column, given the 20-row rolling standard deviation of Close
      (`std20`, supplied: Dafny has no square root). */
  function Compute(close: seq<real>, std20: seq<real>): (ind: Indicators)
    requires |std20| == |close|
    ensures |ind.macd| == |ind.signalLine| == |ind.rsi| == |ind.ma20| == |close|
    ensures |ind.std20| == |ind.upper| == |ind.lower| == |close|
  {
    var ma := RollingMean(close, 20);
    var sd := RollingStd(std20, 20);
    Indicators(Lift(Macd(close)), Lift(MacdSignal(close)), Rsi(close, 14), ma, sd,
               Band(ma, sd, 2.0), Band(ma, sd, -2.0))
  }

  /** The frame's columns after the seven assignments, in the order the source makes them. */
  function WithIndicators(cols: map<string, Column>, ind: Indicators): map<string, Column>
  {
    cols["MACD" := ind.macd]["Signal_Line" := ind.signalLine]["RSI" := ind.rsi]
        ["20_MA" := ind.ma20]["20_STD" := ind.std20]["Upper_BB" := ind.upper]["Lower_BB" := ind.lower]
  }

  /** Row i of MACD is EMA12 - EMA26 of Close, and the signal line follows the EMA9 recurrence over
      MACD, starting from MACD's first value. */
  lemma MomentumFacts(close: seq<real>, std20: seq<real>, i: nat)
    requires |std20| == |close| && i < |close|
    ensures var ind := Compute(close, std20);
      && ind.macd[i] == Some(Ema(close, Alpha(12))[i] - Ema(close, Alpha(26))[i])
      && (i == 0 ==> ind.signalLine[i] == ind.macd[i])
      && (i > 0 ==> ind.signalLine[i].value == EmaStep(Alpha(9), ind.macd[i].value, ind.signalLine[i - 1].value))
  {
    var ind := Compute(close, std20);
    var m := Macd(close);
    var sl := MacdSignal(close);
    assert ind.macd == Lift(m) && ind.signalLine == Lift(sl);
    assert m[i] == Ema(close, Alpha(12))[i] - Ema(close, Alpha(26))[i];
    if i > 0 {
      assert sl[i] == EmaStep(Alpha(9), m[i], sl[i - 1]);
    }
  }

  /** RSI(14) is NaN on the first 13 rows and otherwise in [0, 100], below 100 wherever the average
      loss of the window is positive. */
  lemma RsiFacts(close: seq<real>, std20: seq<real>, i: nat)
    requires |std20| == |close| && i < |close|
    ensures var ind := Compute(close, std20);
      && (i < 13 ==> ind.rsi[i].None?)
      && (ind.rsi[i].Some? ==> 0.0 <= ind.rsi[i].value <= 100.0)
      && (i >= 13 && AverageLosses(close, 14)[i].value > 0.0 ==> 0.0 <= ind.rsi[i].value < 100.0)
  {
    RsiRange(close, 14, i);
  }

  /** The bands are NaN on the first 19 rows and then sit 2 std either side of 20_MA, upper above
      lower. */
  lemma BandFacts(close: seq<real>, std20: seq<real>, i: nat)
    requires |std20| == |close| && i < |close|
    requires forall j :: 0 <= j < |std20| ==> std20[j] >= 0.0
    ensures var ind := Compute(close, std20);
      && (ind.upper[i].Some? <==> i >= 19)
      && (ind.lower[i].Some? <==> i >= 19)
      && (i >= 19 ==>
            && ind.upper[i].value - ind.ma20[i].value == 2.0 * ind.std20[i].value
            && ind.ma20[i].value - ind.lower[i].value == 2.0 * ind.std20[i].value
            && ind.upper[i].value >= ind.ma20[i].value >= ind.lower[i].value)
  {
    var ma := RollingMean(close, 20);
    var sd := RollingStd(std20, 20);
    BandsSymmetric(ma, sd, i);
  }

  /** On a constant Close both MACD and its signal line are 0 on every row. */
  lemma FlatCloseHasNoMomentum(close: seq<real>, std20: seq<real>, c: real)
    requires |std20| == |close|
    requires forall j :: 0 <= j < |close| ==> close[j] == c
    ensures forall j :: 0 <= j < |close| ==>
              Compute(close, std20).macd[j] == Some(0.0) && Compute(close, std20).signalLine[j] == Some(0.0)
  {
    MacdOfConstant(close, c);
  }

  /** `calculate_indicators(df)`: adds (or overwrites) the seven columns in the caller's frame and
      returns that same frame; every other column and the number of rows are unchanged. */
  method CalculateIndicators(df: Frame, std20: seq<real>) returns (out: Frame)
    requires df.Valid()
    requires "Close" in df.table.columns && Defined(df.table.columns["Close"])
    requires |std20| == df.table.height
    modifies df
    ensures out == df && df.Valid()
    ensures df.table == Table(WithIndicators(old(df.table.columns),
                                             Compute(Values(old(df.table.columns["Close"])), std20)),
                              old(df.table.height))
  {
    var close := Values(df.table.columns["Close"]);
    var exp1 := ComputeEma(close, Alpha(12));
    var exp2 := ComputeEma(close, Alpha(26));
    var macd := Minus(exp1, exp2);
    df.Assign("MACD", Lift(macd));
    var signalLine := ComputeEma(macd, Alpha(9));
    df.Assign("Signal_Line", Lift(signalLine));
    df.Assign("RSI", Rsi(close, 14));
    var ma := RollingMean(close, 20);
    var sd := RollingStd(std20, 20);
    df.Assign("20_MA", ma);
    df.Assign("20_STD", sd);
    df.Assign("Upper_BB", Band(ma, sd, 2.0));
    df.Assign("Lower_BB", Band(ma, sd, -2.0));
    out := df;
  }

  // ---------------------------------------------------------------- generate_signals

  /** The indicator columns `generate_signals` checks for, in the order its KeyError lists them. */
  const SignalInputs: seq<string> := ["MACD", "Signal_Line", "RSI", "Lower_BB", "Upper_BB"]

  /** Every column the labels read: the checked ones and Close. */
  const LabelInputs: set<string> := {"MACD", "Signal_Line", "RSI", "Lower_BB", "Upper_BB", "Close"}

  datatype KeyError = KeyError(missing: seq<string>)

  /** The names among `names` that are not columns of `t`, in the order of `names`. */
  function Missing(names: seq<string>, t: Table): (m: seq<string>)
    ensures forall c :: c in m <==> c in names && c !in t.columns
    ensures m == [] <==> forall c :: c in names ==> c in t.columns
    ensures m == [] <==> FirstMissing(names, t).None?
    ensures m != [] ==> FirstMissing(names, t) == Some(m[0])
  {
    if |names| == 0 then []
    else (if names[0] in t.columns then [] else [names[0]]) + Missing(names[1..], t)
  }

  /** A labelled copy of a frame: its rows, and the Buy, Sell and Signal columns. */
  datatype Labelled = Labelled(table: Table, buy: seq<bool>, sell: seq<bool>, signal: seq<int>)

  predicate HasLabelInputs(t: Table)
  {
    t.Valid() && forall c :: c in LabelInputs ==> c in t.columns
  }

  /** The buy condition on row i: MACD crosses above the signal line between row i-1 and row i,
      RSI is below 30 and Close is at or under the lower band. `shift(1)` makes row i-1's values
      NaN on the first row, where every comparison with them is false. */
  predicate BuyAt(t: Table, i: nat)
    requires HasLabelInputs(t) && i < t.height
    ensures BuyAt(t, i) ==>
              && i > 0 && t.columns["MACD"][i].Some? && t.columns["Signal_Line"][i].Some?
              && t.columns["MACD"][i - 1].Some? && t.columns["Signal_Line"][i - 1].Some?
              && t.columns["RSI"][i].Some? && t.columns["Close"][i].Some? && t.columns["Lower_BB"][i].Some?
    ensures BuyAt(t, i) ==> !SellAt(t, i)
  {
    var macd, line := t.columns["MACD"], t.columns["Signal_Line"];
    && Gt(macd[i], line[i]) && i > 0 && Le(macd[i - 1], line[i - 1])
    && Lt(t.columns["RSI"][i], Some(30.0))
    && Le(t.columns["Close"][i], t.columns["Lower_BB"][i])
  }

  /** The mirror image: a cross below the signal line, RSI above 70, Close at or over the upper band. */
  predicate SellAt(t: Table, i: nat)
    requires HasLabelInputs(t) && i < t.height
    ensures SellAt(t, i) ==>
              && i > 0 && t.columns["MACD"][i].Some? && t.columns["Signal_Line"][i].Some?
              && t.columns["MACD"][i - 1].Some? && t.columns["Signal_Line"][i - 1].Some?
              && t.columns["RSI"][i].Some? && t.columns["Close"][i].Some? && t.columns["Upper_BB"][i].Some?
  {
    var macd, line := t.columns["MACD"], t.columns["Signal_Line"];
    && Lt(macd[i], line[i]) && i > 0 && Ge(macd[i - 1], line[i - 1])
    && Gt(t.columns["RSI"][i], Some(70.0))
    && Ge(t.columns["Close"][i], t.columns["Upper_BB"][i])
  }

  /** The Buy, Sell and Signal columns, as both copies of the strategy compute them: Signal starts at
      0, rows with Buy are set to 1, then rows with Sell to -1. */
  function Label(t: Table): (l: Labelled)
    requires HasLabelInputs(t)
    ensures l.table == t && |l.buy| == |l.sell| == |l.signal| == t.height
    ensures forall i :: 0 <= i < t.height ==> l.buy[i] == BuyAt(t, i) && l.sell[i] == SellAt(t, i)
    ensures forall i :: 0 <= i < t.height ==> !(l.buy[i] && l.sell[i])
    ensures forall i :: 0 <= i < t.height ==>
              && (l.signal[i] == 1 <==> l.buy[i])
              && (l.signal[i] == -1 <==> l.sell[i])
              && (l.signal[i] == 0 <==> !l.buy[i] && !l.sell[i])
    ensures t.height > 0 ==> l.signal[0] == 0
  {
    var buy := seq(t.height, i requires 0 <= i < t.height => BuyAt(t, i));
    var sell := seq(t.height, i requires 0 <= i < t.height => SellAt(t, i));
    var signal := seq(t.height, i requires 0 <= i < t.height =>
                    if sell[i] then -1 else if buy[i] then 1 else 0);
    Labelled(t, buy, sell, signal)
  }

  /** `generate_signals(df)` on a copy of the frame: a KeyError naming exactly the missing indicator
      columns; a KeyError for Close if only that is missing (from `dropna`'s subset); otherwise the
      rows with all five indicators and Close defined, labelled. */
  function GenerateSignals(t: Table): (r: Result<Labelled, KeyError>)
    requires t.Valid()
    ensures r.Failure? <==> Missing(SignalInputs, t) != [] || "Close" !in t.columns
    ensures r.Failure? ==> r.error.missing == if Missing(SignalInputs, t) != [] then Missing(SignalInputs, t)
                                              else ["Close"]
    ensures r.Success? ==> r.value.table == DropNa(t, LabelInputs)
  {
    var missing := Missing(SignalInputs, t);
    if |missing| > 0 then Failure(KeyError(missing))
    else if "Close" !in t.columns then Failure(KeyError(["Close"]))
    else
      var kept := DropNa(t, LabelInputs);
      assert HasLabelInputs(kept) by {
        assert forall c :: c in LabelInputs ==> c in SignalInputs || c == "Close";
      }
      Success(Label(kept))
  }

  /** When `generate_signals` fails and when it succeeds: the KeyError lists exactly the missing
      indicator columns; on success the kept rows are, in order, exactly the input rows on which all
      five indicators and Close are defined. */
  lemma GenerateSignalsOutcome(t: Table)
    requires t.Valid()
    ensures GenerateSignals(t).Failure? <==>
              (exists c :: c in SignalInputs && c !in t.columns) || "Close" !in t.columns
    ensures GenerateSignals(t).Failure? && (exists c :: c in SignalInputs && c !in t.columns) ==>
              forall c :: c in GenerateSignals(t).error.missing <==> c in SignalInputs && c !in t.columns
    ensures GenerateSignals(t).Success? ==>
              var rows := DefinedRows(t, LabelInputs, t.height);
              && GenerateSignals(t).value.table == SelectRows(t, rows)
              && (forall i :: 0 <= i < t.height ==> (i in rows <==> RowDefined(t, LabelInputs, i)))
              && (forall k, l :: 0 <= k < l < |rows| ==> rows[k] < rows[l])
  {
    var missing := Missing(SignalInputs, t);
    if exists c :: c in SignalInputs && c !in t.columns {
      var c :| c in SignalInputs && c !in t.columns;
      assert c in missing;
    }
  }

  /** On a kept row every compared value is a number, so the labels are plain comparisons; the first
      kept row compares against NaN and is never labelled. */
  lemma KeptRowSignals(t: Table, k: nat)
    requires t.Valid() && GenerateSignals(t).Success?
    requires k < GenerateSignals(t).value.table.height
    ensures var l := GenerateSignals(t).value;
      var c := l.table.columns;
      && (l.signal[k] == 1 <==>
            && k > 0
            && c["MACD"][k].value > c["Signal_Line"][k].value
            && c["MACD"][k - 1].value <= c["Signal_Line"][k - 1].value
            && c["RSI"][k].value < 30.0
            && c["Close"][k].value <= c["Lower_BB"][k].value)
      && (l.signal[k] == -1 <==>
            && k > 0
            && c["MACD"][k].value < c["Signal_Line"][k].value
            && c["MACD"][k - 1].value >= c["Signal_Line"][k - 1].value
            && c["RSI"][k].value > 70.0
            && c["Close"][k].value >= c["Upper_BB"][k].value)
      && (k == 0 ==> l.signal[k] == 0)
  {
    var l := GenerateSignals(t).value;
    assert HasLabelInputs(l.table) && l == Label(l.table);
    assert RowDefined(l.table, LabelInputs, k);
    assert k > 0 ==> RowDefined(l.table, LabelInputs, k - 1);
    DefinedRowLabels(l.table, k);
  }

  /** The labels of a row whose label inputs, and those of the row before, are all numbers. */
  lemma DefinedRowLabels(u: Table, k: nat)
    requires HasLabelInputs(u) && k < u.height
    requires RowDefined(u, LabelInputs, k) && (k > 0 ==> RowDefined(u, LabelInputs, k - 1))
    ensures var l := Label(u);
      var c := u.columns;
      && (l.signal[k] == 1 <==>
            && k > 0
            && c["MACD"][k].value > c["Signal_Line"][k].value
            && c["MACD"][k - 1].value <= c["Signal_Line"][k - 1].value
            && c["RSI"][k].value < 30.0
            && c["Close"][k].value <= c["Lower_BB"][k].value)
      && (l.signal[k] == -1 <==>
            && k > 0
            && c["MACD"][k].value < c["Signal_Line"][k].value
            && c["MACD"][k - 1].value >= c["Signal_Line"][k - 1].value
            && c["RSI"][k].value > 70.0
            && c["Close"][k].value >= c["Upper_BB"][k].value)
      && (k == 0 ==> l.signal[k] == 0)
  {
  }

  // ---------------------------------------------------------------- backtest_signals

  /** The tag of an entry in the positions log: 'Buy' or 'Sell'. */
  datatype Side = Bought | Sold

  /** One entry of the positions log: (tag, row index, price). */
  datatype Fill = Fill(side: Side, index: int, price: real)

  /** What the backtest reads of a labelled row: its index, Signal and Close. */
  datatype Row = Row(index: int, signal: int, close: real)

  /** The loop's state: `position_open`, `buy_price`, and the `positions` and `returns` lists. */
  datatype Book = Book(open: bool, buyPrice: real, positions: seq<Fill>, tradeReturns: seq<real>)

  const Flat: Book := Book(false, 0.0, [], [])

  /** The return of one round trip: (sell - buy) / buy. */
  function TradeReturn(buy: real, sell: real): real
    requires buy != 0.0
  {
    (sell - buy) / buy
  }

  /** One iteration: a 1 while flat opens at Close; a -1 while long closes at Close and records
      (sell - buy) / buy; anything else (a 1 while long, a -1 while flat, a 0) changes nothing. */
  function Step(b: Book, r: Row): (n: Book)
    requires b.open ==> b.buyPrice > 0.0
    ensures b.positions <= n.positions && b.tradeReturns <= n.tradeReturns
    ensures n.open == b.open ==> n == b
    ensures n.open != b.open ==> |n.positions| == |b.positions| + 1
    ensures n.open && !b.open ==>
              r.signal == 1 && n.buyPrice == r.close && n.tradeReturns == b.tradeReturns
              && n.positions[|b.positions|] == Fill(Bought, r.index, r.close)
    ensures !n.open && b.open ==>
              r.signal == -1 && n.positions[|b.positions|] == Fill(Sold, r.index, r.close)
              && n.tradeReturns == b.tradeReturns + [TradeReturn(b.buyPrice, r.close)]
  {
    if r.signal == 1 && !b.open then
      Book(true, r.close, b.positions + [Fill(Bought, r.index, r.close)], b.tradeReturns)
    else if r.signal == -1 && b.open then
      Book(false, b.buyPrice, b.positions + [Fill(Sold, r.index, r.close)],
           b.tradeReturns + [TradeReturn(b.buyPrice, r.close)])
    else b
  }

  /** The state after the loop has visited `rows` in order, from Flat. */
  function Replay(rows: seq<Row>): (b: Book)
    requires forall k :: 0 <= k < |rows| ==> rows[k].close > 0.0
    ensures b.open ==> b.buyPrice > 0.0
  {
    if |rows| == 0 then Flat
    else Step(Replay(rows[..|rows| - 1]), rows[|rows| - 1])
  }

  /** The log alternates Buy, Sell, Buy, ... starting with Buy; the position is open exactly when the
      log ends in a Buy, at that Buy's price; there is one return per Sell, computed from the Buy
      before it. */
  ghost predicate Alternates(b: Book)
  {
    && (forall k :: 0 <= k < |b.positions| ==>
          b.positions[k].side == if k % 2 == 0 then Bought else Sold)
    && (b.open <==> |b.positions| % 2 == 1)
    && |b.tradeReturns| == |b.positions| / 2
    && (forall j :: 0 <= j < |b.tradeReturns| ==>
          b.positions[2 * j].price > 0.0 &&
          b.tradeReturns[j] == TradeReturn(b.positions[2 * j].price, b.positions[2 * j + 1].price))
    && (b.open ==> b.buyPrice == b.positions[|b.positions| - 1].price)
  }

  /** Opening a position keeps the alternation: the log gains a Buy at an even place. */
  lemma OpenAlternates(b: Book, r: Row)
    requires Alternates(b) && !b.open
    ensures Alternates(Book(true, r.close, b.positions + [Fill(Bought, r.index, r.close)], b.tradeReturns))
  {
    var p := b.positions + [Fill(Bought, r.index, r.close)];
    assert forall k :: 0 <= k < |b.positions| ==> p[k] == b.positions[k];
  }

  /** Closing a position keeps the alternation: the log gains a Sell at an odd place and the new
      return is computed from the Buy just before it. */
  lemma CloseAlternates(b: Book, r: Row)
    requires Alternates(b) && b.open && b.buyPrice > 0.0
    ensures Alternates(Book(false, b.buyPrice, b.positions + [Fill(Sold, r.index, r.close)],
                            b.tradeReturns + [TradeReturn(b.buyPrice, r.close)]))
  {
    var n := |b.positions|;
    var p := b.positions + [Fill(Sold, r.index, r.close)];
    assert forall k :: 0 <= k < n ==> p[k] == b.positions[k];
    assert 2 * |b.tradeReturns| == n - 1;
    assert p[2 * |b.tradeReturns|] == b.positions[n - 1];
    assert p[2 * |b.tradeReturns| + 1] == Fill(Sold, r.index, r.close);
  }

  /** The backtest never holds two positions: whatever the labels, the replayed state alternates. */
  lemma {:induction false} ReplayAlternates(rows: seq<Row>)
    requires forall k :: 0 <= k < |rows| ==> rows[k].close > 0.0
    ensures Alternates(Replay(rows))
  {
    if |rows| > 0 {
      var prefix := rows[..|rows| - 1];
      ReplayAlternates(prefix);
      var b := Replay(prefix);
      var r := rows[|rows| - 1];
      if r.signal == 1 && !b.open {
        OpenAlternates(b, r);
      } else if r.signal == -1 && b.open {
        CloseAlternates(b, r);
      }
    }
  }

  /** Π (1 + r) over the returns. */
  function Compound(rs: seq<real>): real
  {
    if |rs| == 0 then 1.0 else Compound(rs[..|rs| - 1]) * (1.0 + rs[|rs| - 1])
  }

  /** The number of returns above zero. */
  function Wins(rs: seq<real>): (n: nat)
    ensures n <= |rs|
  {
    if |rs| == 0 then 0 else Wins(rs[..|rs| - 1]) + (if rs[|rs| - 1] > 0.0 then 1 else 0)
  }

  lemma RateWithinUnit(wins: real, total: real)
    requires 0.0 <= wins <= total && total > 0.0
    ensures 0.0 <= wins / total <= 1.0 && (wins / total) * total == wins
  {
  }

  /** The dictionary `backtest_signals` returns. */
  datatype Report = Report(totalReturn: real, winRate: real, totalTrades: nat,
                           positions: seq<Fill>, tradeReturns: seq<real>)

  /** The aggregates over a final state: the compounded return minus 1 and the share of winning
      trades, both 0 when no trade closed. */
  function Summary(b: Book): (rep: Report)
    ensures rep.totalTrades == |b.tradeReturns| && rep.positions == b.positions && rep.tradeReturns == b.tradeReturns
    ensures 0.0 <= rep.winRate <= 1.0
    ensures |b.tradeReturns| == 0 ==> rep.totalReturn == 0.0 && rep.winRate == 0.0
    ensures |b.tradeReturns| > 0 ==> rep.totalReturn + 1.0 == Compound(b.tradeReturns)
    ensures |b.tradeReturns| > 0 ==> rep.winRate * |b.tradeReturns| as real == Wins(b.tradeReturns) as real
  {
    var total := |b.tradeReturns|;
    var rate := if total > 0 then
                  RateWithinUnit(Wins(b.tradeReturns) as real, total as real);
                  Wins(b.tradeReturns) as real / total as real
                else 0.0;
    Report(if total > 0 then Compound(b.tradeReturns) - 1.0 else 0.0, rate, total, b.positions, b.tradeReturns)
  }

  /** `backtest_signals(df)`: walks the labelled rows once, opening on 1 when flat and closing on -1
      when long, then aggregates. The input is only read. */
  method Backtest(rows: seq<Row>) returns (rep: Report)
    requires forall k :: 0 <= k < |rows| ==> rows[k].close > 0.0
    ensures rep == Summary(Replay(rows))
    ensures forall k :: 0 <= k < |rep.positions| ==>
              rep.positions[k].side == if k % 2 == 0 then Bought else Sold
    ensures rep.totalTrades == |rep.tradeReturns| == |rep.positions| / 2
    ensures forall j :: 0 <= j < |rep.tradeReturns| ==>
              rep.positions[2 * j].price > 0.0 &&
              rep.tradeReturns[j] == TradeReturn(rep.positions[2 * j].price, rep.positions[2 * j + 1].price)
    ensures 0.0 <= rep.winRate <= 1.0
  {
    var positions: seq<Fill> := [];
    var tradeReturns: seq<real> := [];
    var positionOpen := false;
    var buyPrice := 0.0;
    var i := 0;
    while i < |rows|
      invariant 0 <= i <= |rows|
      invariant Book(positionOpen, buyPrice, positions, tradeReturns) == Replay(rows[..i])
    {
      assert rows[..i + 1][..i] == rows[..i];
      var row := rows[i];
      if row.signal == 1 && !positionOpen {
        buyPrice := row.close;
        positionOpen := true;
        positions := positions + [Fill(Bought, row.index, buyPrice)];
      } else if row.signal == -1 && positionOpen {
        var sellPrice := row.close;
        var ret := (sellPrice - buyPrice) / buyPrice;
        tradeReturns := tradeReturns + [ret];
        positions := positions + [Fill(Sold, row.index, sellPrice)];
        positionOpen := false;
      }
      i := i + 1;
    }
    assert rows[..|rows|] == rows;
    ReplayAlternates(rows);
    var totalTrades := |tradeReturns|;
    var totalReturn := if totalTrades > 0 then Compound(tradeReturns) - 1.0 else 0.0;
    var winTrades := Wins(tradeReturns);
    var winRate := if totalTrades > 0 then winTrades as real / totalTrades as real else 0.0;
    rep := Report(totalReturn, winRate, totalTrades, positions, tradeReturns);
  }
}
