/** App.py: indicators computed on a copy of the downloaded frame, incomplete rows dropped, and a
    trend-following decision with ATR-based stop-loss and take-profit read off the last row. */
module App {
  import opened Wrappers
  import opened Frames
  import opened Series
  import opened Actions

  // ---------------------------------------------------------------- calculate_indicators

  /** The three ValueErrors `calculate_indicators` raises. */
  datatype IndicatorError = EmptyFrame | MissingInput(column: string) | NoCompleteRow

  /** The price columns, in the order the column check visits them. */
  const RequiredInputs: seq<string> := ["Open", "High", "Low", "Close", "Volume"]

  /** High, Low and Close, where present, hold a number on every row. */
  predicate PricesDefined(t: Table)
  {
    && ("High" in t.columns ==> Defined(t.columns["High"]))
    && ("Low" in t.columns ==> Defined(t.columns["Low"]))
    && ("Close" in t.columns ==> Defined(t.columns["Close"]))
  }

  /** RSI with a zero average loss replaced by NaN before dividing: NaN whenever the window saw no
      loss, otherwise the usual quotient. */
  function RsiWithoutZeroLoss(g: Option<real>, l: Option<real>): (r: Option<real>)
    requires g.Some? ==> g.value >= 0.0
    requires l.Some? ==> l.value >= 0.0
    ensures r.Some? <==> g.Some? && l.Some? && l.value > 0.0
    ensures r.Some? ==> 0.0 <= r.value < 100.0
    ensures r.Some? ==> r == RsiFromAverages(g, l)
  {
    if g.Some? && l.Some? && l.value > 0.0 then RsiFromAverages(g, l) else None
  }

  /** RSI(w) of App.py, row by row. */
  function AppRsi(close: seq<real>, w: nat): (r: Column)
    requires w >= 1
    ensures |r| == |close|
  {
    var g := AverageGains(close, w);
    var l := AverageLosses(close, w);
    seq(|close|, i requires 0 <= i < |close| => RsiWithoutZeroLoss(g[i], l[i]))
  }

  /** The eleven columns App.py adds. */
  datatype Indicators = Indicators(ema20: Column, ema50: Column, ema200: Column,
                                   bbMid: Column, bbUpper: Column, bbLower: Column,
                                   rsi: Column, atr: Column, pivot: Column, r1: Column, s1: Column)

  function PivotColumn(high: seq<real>, low: seq<real>, close: seq<real>): (p: seq<Pivots>)
    requires |high| == |close| && |low| == |close|
    ensures |p| == |close|
    ensures forall i :: 0 <= i < |close| ==> p[i] == ClassicPivots(high[i], low[i], close[i])
  {
    seq(|close|, i requires 0 <= i < |close| => ClassicPivots(high[i], low[i], close[i]))
  }

  /** The Pivot, R1 and S1 columns of a pivot series. */
  function PivotLine(p: seq<Pivots>): (c: Column)
    ensures |c| == |p| && forall i :: 0 <= i < |p| ==> c[i] == Some(p[i].pivot)
  {
    Lift(seq(|p|, i requires 0 <= i < |p| => p[i].pivot))
  }

  function R1Line(p: seq<Pivots>): (c: Column)
    ensures |c| == |p| && forall i :: 0 <= i < |p| ==> c[i] == Some(p[i].r1)
  {
    Lift(seq(|p|, i requires 0 <= i < |p| => p[i].r1))
  }

  function S1Line(p: seq<Pivots>): (c: Column)
    ensures |c| == |p| && forall i :: 0 <= i < |p| ==> c[i] == Some(p[i].s1)
  {
    Lift(seq(|p|, i requires 0 <= i < |p| => p[i].s1))
  }

  /** The indicators of defined High, Low and Close series, with the 20-row rolling standard
      deviation of Close supplied as `std20`. */
  function Compute(high: seq<real>, low: seq<real>, close: seq<real>, std20: seq<real>): (ind: Indicators)
    requires |high| == |close| && |low| == |close| && |std20| == |close|
    ensures |ind.ema20| == |ind.ema50| == |ind.ema200| == |ind.bbMid| == |ind.bbUpper| == |ind.bbLower| == |close|
    ensures |ind.rsi| == |ind.atr| == |ind.pivot| == |ind.r1| == |ind.s1| == |close|
    ensures Defined(ind.ema20) && Defined(ind.ema50) && Defined(ind.ema200)
    ensures Defined(ind.pivot) && Defined(ind.r1) && Defined(ind.s1)
  {
    var mid := RollingMean(close, 20);
    var sd := RollingStd(std20, 20);
    var p := PivotColumn(high, low, close);
    Indicators(Lift(Ema(close, Alpha(20))), Lift(Ema(close, Alpha(50))), Lift(Ema(close, Alpha(200))),
               mid, Band(mid, sd, 2.0), Band(mid, sd, -2.0),
               AppRsi(close, 14), Atr(high, low, close, 14),
               PivotLine(p), R1Line(p), S1Line(p))
  }

  /** The columns after the eleven assignments, in the order the source makes them. */
  function WithIndicators(cols: map<string, Column>, ind: Indicators): map<string, Column>
  {
    cols["EMA20" := ind.ema20]["EMA50" := ind.ema50]["EMA200" := ind.ema200]
        ["BB_Mid" := ind.bbMid]["BB_Upper" := ind.bbUpper]["BB_Lower" := ind.bbLower]
        ["RSI" := ind.rsi]["ATR" := ind.atr]["Pivot" := ind.pivot]["R1" := ind.r1]["S1" := ind.s1]
  }

  /** The copy with the indicators added, before any row is dropped. */
  function Augmented(t: Table, std20: seq<real>): (u: Table)
    requires t.Valid() && PricesDefined(t) && |std20| == t.height
    requires "High" in t.columns && "Low" in t.columns && "Close" in t.columns
    ensures u.Valid() && u.height == t.height
  {
    var ind := Compute(Values(t.columns["High"]), Values(t.columns["Low"]), Values(t.columns["Close"]), std20);
    Table(WithIndicators(t.columns, ind), t.height)
  }

  /** `calculate_indicators(df)` as a value: the three errors, in the order the source checks them,
      or the copy with the indicators added and every row holding a NaN anywhere dropped. */
  function Calculate(t: Table, std20: seq<real>): (r: Result<Table, IndicatorError>)
    requires t.Valid() && PricesDefined(t) && |std20| == t.height
    ensures r == Failure(EmptyFrame) <==> t.Empty()
    ensures r.Failure? && r.error.MissingInput? <==> !t.Empty() && FirstMissing(RequiredInputs, t).Some?
    ensures r.Failure? && r.error.MissingInput? ==> FirstMissing(RequiredInputs, t) == Some(r.error.column)
    ensures r.Success? ==> r.value.Valid() && r.value.height > 0
    ensures r.Success? ==> "High" in t.columns && "Low" in t.columns && "Close" in t.columns
  {
    if t.Empty() then Failure(EmptyFrame)
    else match FirstMissing(RequiredInputs, t)
      case Some(c) => Failure(MissingInput(c))
      case None =>
        assert RequiredInputs[1] == "High" && RequiredInputs[2] == "Low" && RequiredInputs[3] == "Close";
        var u := Augmented(t, std20);
        var kept := DropNa(u, u.columns.Keys);
        if kept.height == 0 then Failure(NoCompleteRow) else Success(kept)
  }

  /** The procedure itself: works on a fresh copy of the caller's frame, assigns the eleven columns one
      after the other, then drops incomplete rows. The caller's frame is only read. */
  method CalculateIndicators(df: Frame, std20: seq<real>) returns (r: Result<Table, IndicatorError>)
    requires df.Valid() && PricesDefined(df.table) && |std20| == df.table.height
    ensures r == Calculate(df.table, std20)
  {
    if df.table.Empty() {
      return Failure(EmptyFrame);
    }
    var work := new Frame(df.table);
    for k := 0 to |RequiredInputs|
      invariant work.table == df.table && work.Valid()
      invariant forall j :: 0 <= j < k ==> RequiredInputs[j] in work.table.columns
    {
      if RequiredInputs[k] !in work.table.columns {
        MissingIsFirst(df.table, k);
        return Failure(MissingInput(RequiredInputs[k]));
      }
    }
    assert RequiredInputs[1] == "High" && RequiredInputs[2] == "Low" && RequiredInputs[3] == "Close";
    AddIndicators(work, std20);
    var kept := DropNa(work.table, work.table.columns.Keys);
    if kept.height == 0 {
      return Failure(NoCompleteRow);
    }
    return Success(kept);
  }

  /** The eleven column assignments on the working copy. */
  method AddIndicators(work: Frame, std20: seq<real>)
    requires work.Valid() && PricesDefined(work.table) && |std20| == work.table.height
    requires "High" in work.table.columns && "Low" in work.table.columns && "Close" in work.table.columns
    modifies work
    ensures work.Valid() && work.table == Augmented(old(work.table), std20)
  {
    ghost var t := work.table;
    var close := Values(work.table.columns["Close"]);
    var high := Values(work.table.columns["High"]);
    var low := Values(work.table.columns["Low"]);
    var ema20 := ComputeEma(close, Alpha(20));
    work.Assign("EMA20", Lift(ema20));
    var ema50 := ComputeEma(close, Alpha(50));
    work.Assign("EMA50", Lift(ema50));
    var ema200 := ComputeEma(close, Alpha(200));
    work.Assign("EMA200", Lift(ema200));
    var mid := RollingMean(close, 20);
    var sd := RollingStd(std20, 20);
    work.Assign("BB_Mid", mid);
    work.Assign("BB_Upper", Band(mid, sd, 2.0));
    work.Assign("BB_Lower", Band(mid, sd, -2.0));
    work.Assign("RSI", AppRsi(close, 14));
    work.Assign("ATR", Atr(high, low, close, 14));
    var p := PivotColumn(high, low, close);
    work.Assign("Pivot", PivotLine(p));
    work.Assign("R1", R1Line(p));
    work.Assign("S1", S1Line(p));
    assert work.table.columns == WithIndicators(t.columns, Compute(high, low, close, std20));
  }

  /** The column check stops at the first absent name, which is the one FirstMissing finds. */
  lemma MissingIsFirst(t: Table, k: nat)
    requires k < |RequiredInputs| && RequiredInputs[k] !in t.columns
    requires forall j :: 0 <= j < k ==> RequiredInputs[j] in t.columns
    ensures FirstMissing(RequiredInputs, t) == Some(RequiredInputs[k])
  {
    var r := FirstMissing(RequiredInputs, t);
    assert r.Some?;
    var k' :| 0 <= k' < |RequiredInputs| && RequiredInputs[k'] == r.value && r.value !in t.columns
              && forall j :: 0 <= j < k' ==> RequiredInputs[j] in t.columns;
    assert k' == k;
  }

  /** When `calculate_indicators` fails and what it returns otherwise: a ValueError for an empty frame,
      for the first missing price column and for a frame with no complete row; on success a
      non-empty frame with the input columns and the eleven indicators, every cell a number, whose
      rows are exactly the complete rows of the augmented copy, in order. */
  lemma CalculateOutcome(t: Table, std20: seq<real>)
    requires t.Valid() && PricesDefined(t) && |std20| == t.height
    ensures Calculate(t, std20).Failure? && Calculate(t, std20).error == EmptyFrame <==> t.Empty()
    ensures Calculate(t, std20).Failure? && Calculate(t, std20).error.MissingInput? <==>
              !t.Empty() && exists c :: c in RequiredInputs && c !in t.columns
    ensures Calculate(t, std20).Failure? && Calculate(t, std20).error == NoCompleteRow <==>
              && !t.Empty() && FirstMissing(RequiredInputs, t).None?
              && "High" in t.columns && "Low" in t.columns && "Close" in t.columns
              && var u := Augmented(t, std20);
                 forall i :: 0 <= i < u.height ==> !RowDefined(u, u.columns.Keys, i)
    ensures Calculate(t, std20).Success? ==>
              var u := Augmented(t, std20);
              var s := Calculate(t, std20).value;
              && s.height > 0
              && s.columns.Keys == t.columns.Keys + IndicatorNames
              && (forall name, k :: name in s.columns && 0 <= k < s.height ==> s.columns[name][k].Some?)
              && s == SelectRows(u, DefinedRows(u, u.columns.Keys, u.height))
  {
    if exists c :: c in RequiredInputs && c !in t.columns {
      var c :| c in RequiredInputs && c !in t.columns;
      var k :| 0 <= k < |RequiredInputs| && RequiredInputs[k] == c;
    }
    if !t.Empty() && FirstMissing(RequiredInputs, t).None? {
      NoCompleteRowExactly(t, std20);
    }
    if Calculate(t, std20).Success? {
      SuccessIsComplete(t, std20);
    }
  }

  /** Past the column checks, the last ValueError is raised exactly when no row of the augmented
      copy is complete: one complete row is enough for a result. */
  lemma NoCompleteRowExactly(t: Table, std20: seq<real>)
    requires t.Valid() && PricesDefined(t) && |std20| == t.height
    requires !t.Empty() && FirstMissing(RequiredInputs, t).None?
    ensures "High" in t.columns && "Low" in t.columns && "Close" in t.columns
    ensures var u := Augmented(t, std20);
            Calculate(t, std20) == Failure(NoCompleteRow) <==>
              forall i :: 0 <= i < u.height ==> !RowDefined(u, u.columns.Keys, i)
  {
    assert RequiredInputs[1] == "High" && RequiredInputs[2] == "Low" && RequiredInputs[3] == "Close";
    var u := Augmented(t, std20);
    var rows := DefinedRows(u, u.columns.Keys, u.height);
    assert DropNa(u, u.columns.Keys) == SelectRows(u, rows);
    assert DropNa(u, u.columns.Keys).height == |rows|;
    if |rows| > 0 {
      assert RowDefined(u, u.columns.Keys, rows[0]);
    }
  }

  /** The success half of `CalculateOutcome`. */
  lemma SuccessIsComplete(t: Table, std20: seq<real>)
    requires t.Valid() && PricesDefined(t) && |std20| == t.height
    requires Calculate(t, std20).Success?
    ensures var u := Augmented(t, std20);
            var s := Calculate(t, std20).value;
            && s.height > 0
            && s.columns.Keys == t.columns.Keys + IndicatorNames
            && (forall name, k :: name in s.columns && 0 <= k < s.height ==> s.columns[name][k].Some?)
            && s == SelectRows(u, DefinedRows(u, u.columns.Keys, u.height))
  {
    assert RequiredInputs[1] == "High" && RequiredInputs[2] == "Low" && RequiredInputs[3] == "Close";
    var u := Augmented(t, std20);
    var s := DropNa(u, u.columns.Keys);
    forall name, k | name in s.columns && 0 <= k < s.height ensures s.columns[name][k].Some? {
      assert RowDefined(s, u.columns.Keys, k);
    }
  }

  const IndicatorNames: set<string> :=
    {"EMA20", "EMA50", "EMA200", "BB_Mid", "BB_Upper", "BB_Lower", "RSI", "ATR", "Pivot", "R1", "S1"}

  /** A constant Close keeps EMA20, EMA50 and EMA200 at that constant on every row. */
  lemma FlatCloseEmas(high: seq<real>, low: seq<real>, close: seq<real>, std20: seq<real>, c: real)
    requires |high| == |close| && |low| == |close| && |std20| == |close|
    requires forall j :: 0 <= j < |close| ==> close[j] == c
    ensures var ind := Compute(high, low, close, std20);
      forall j :: 0 <= j < |close| ==>
        ind.ema20[j] == Some(c) && ind.ema50[j] == Some(c) && ind.ema200[j] == Some(c)
  {
    EmaOfConstant(close, Alpha(20), c);
    EmaOfConstant(close, Alpha(50), c);
    EmaOfConstant(close, Alpha(200), c);
  }

  /** App.py's RSI is NaN wherever the 14-row average loss is zero (so such rows are dropped) and
      lies in [0, 100) everywhere else it is defined; where defined it equals the strategy RSI. */
  lemma RsiFacts(high: seq<real>, low: seq<real>, close: seq<real>, std20: seq<real>, i: nat)
    requires |high| == |close| && |low| == |close| && |std20| == |close| && i < |close|
    ensures var rsi := Compute(high, low, close, std20).rsi;
      && (rsi[i].Some? <==> i >= 13 && AverageLosses(close, 14)[i].value > 0.0)
      && (rsi[i].Some? ==> 0.0 <= rsi[i].value < 100.0 && rsi[i] == Rsi(close, 14)[i])
  {
  }

  /** ATR is NaN on the first 13 rows, the mean of the last 14 true ranges after that, and
      non-negative once its window leaves the first row. */
  lemma AtrFacts(high: seq<real>, low: seq<real>, close: seq<real>, std20: seq<real>, i: nat)
    requires |high| == |close| && |low| == |close| && |std20| == |close| && i < |close|
    ensures var atr := Compute(high, low, close, std20).atr;
      && (atr[i].Some? <==> i >= 13)
      && (i >= 13 ==> atr[i].value == Sum(TrueRange(high, low, close)[i - 13 .. i + 1]) / 14.0)
      && (i >= 14 ==> atr[i].value >= 0.0)
  {
    AtrNonNegative(high, low, close, 14, i);
  }

  /** The pivot columns keep the classic identities on every row. */
  lemma PivotFacts(high: seq<real>, low: seq<real>, close: seq<real>, std20: seq<real>, i: nat)
    requires |high| == |close| && |low| == |close| && |std20| == |close| && i < |close|
    ensures var ind := Compute(high, low, close, std20);
      && ind.pivot[i].Some? && ind.r1[i].Some? && ind.s1[i].Some?
      && 3.0 * ind.pivot[i].value == high[i] + low[i] + close[i]
      && ind.r1[i].value - ind.pivot[i].value == ind.pivot[i].value - low[i]
      && ind.pivot[i].value - ind.s1[i].value == high[i] - ind.pivot[i].value
      && ind.r1[i].value - ind.s1[i].value == high[i] - low[i]
  {
    var p := PivotColumn(high, low, close);
    assert p[i] == ClassicPivots(high[i], low[i], close[i]);
  }

  // ---------------------------------------------------------------- generate_signal

  /** What `generate_signal` reports: one of its three fallback messages, or a decision with its
      price and, for BUY and SELL, the stop-loss and take-profit levels. */
  datatype Reply =
    | NoData
    | MissingColumn(column: string)
    | NotEnoughData
    | Decision(action: Action, price: real, stopLoss: Option<real>, takeProfit: Option<real>)

  /** The inputs of the decision, in the order the check visits them. */
  const SignalInputs: seq<string> := ["Close", "EMA20", "EMA50", "EMA200", "RSI", "ATR"]

  /** The check loop: for each name in turn, a missing column is reported by name, and a NaN on the
      last row stops with "not enough data"; None when every name passes. */
  function CheckLast(names: seq<string>, t: Table): (r: Option<Reply>)
    requires t.Valid() && t.height > 0
    ensures r.None? <==> forall k :: 0 <= k < |names| ==>
                           names[k] in t.columns && t.columns[names[k]][t.height - 1].Some?
    ensures r.Some? ==> r.value.NotEnoughData? || (r.value.MissingColumn? && r.value.column in names
                                                    && r.value.column !in t.columns)
    ensures r.Some? ==> exists k :: 0 <= k < |names| && FirstFailure(names, t, k, r.value)
  {
    if |names| == 0 then None
    else if names[0] !in t.columns then
      assert FirstFailure(names, t, 0, MissingColumn(names[0]));
      Some(MissingColumn(names[0]))
    else if t.columns[names[0]][t.height - 1].None? then
      assert FirstFailure(names, t, 0, NotEnoughData);
      Some(NotEnoughData)
    else
      var r := CheckLast(names[1..], t);
      assert forall k :: 1 <= k < |names| ==> names[k] == names[1..][k - 1];
      assert r.Some? ==> exists k :: 0 <= k < |names| && FirstFailure(names, t, k, r.value) by {
        if r.Some? {
          var k :| 0 <= k < |names[1..]| && FirstFailure(names[1..], t, k, r.value);
          assert FirstFailure(names, t, k + 1, r.value);
        }
      }
      r
  }

  /** The name at position k is the first one that fails, and the reply is the one its failure
      gives: every earlier name is a column with a number on the last row, and names[k] is either
      absent, reported by name, or NaN on the last row, reported as not enough data. */
  predicate FirstFailure(names: seq<string>, t: Table, k: nat, reply: Reply)
    requires t.Valid() && t.height > 0 && k < |names|
  {
    && (forall j :: 0 <= j < k ==> names[j] in t.columns && t.columns[names[j]][t.height - 1].Some?)
    && (if names[k] !in t.columns then reply == MissingColumn(names[k])
        else t.columns[names[k]][t.height - 1].None? && reply == NotEnoughData)
  }

  /** The decision on the last row's numbers: BUY above the 200 EMA with EMA20 over EMA50 and RSI over
      50, SELL in the mirror case, otherwise no trade and no levels. */
  function Decide(price: real, ema20: real, ema50: real, ema200: real, rsi: real, atr: real,
                  rrRatio: real, atrMultiplier: real): (d: Reply)
    ensures d.Decision? && d.price == price
  {
    if price > ema200 && ema20 > ema50 && rsi > 50.0 then
      Decision(Buy, price, Some(price - atr * atrMultiplier), Some(price + atr * atrMultiplier * rrRatio))
    else if price < ema200 && ema20 < ema50 && rsi < 50.0 then
      Decision(Sell, price, Some(price + atr * atrMultiplier), Some(price - atr * atrMultiplier * rrRatio))
    else
      Decision(Hold, price, None, None)
  }

  /** Which action is taken exactly when, and the risk levels: the take-profit is rr times as far from
      the price as the stop-loss, on the other side, and with positive ATR, multiplier and ratio a BUY
      has SL < price < TP and a SELL TP < price < SL. */
  lemma DecideFacts(price: real, ema20: real, ema50: real, ema200: real, rsi: real, atr: real,
                    rr: real, m: real)
    ensures var d := Decide(price, ema20, ema50, ema200, rsi, atr, rr, m);
      && (d.action == Buy <==> price > ema200 && ema20 > ema50 && rsi > 50.0)
      && (d.action == Sell <==> !(price > ema200 && ema20 > ema50 && rsi > 50.0)
                                && price < ema200 && ema20 < ema50 && rsi < 50.0)
      && (d.action == Hold <==> d.stopLoss.None? && d.takeProfit.None?)
      && (d.action == Buy ==>
            d.takeProfit.Some? && d.stopLoss.Some? && d.takeProfit.value - price == rr * (price - d.stopLoss.value))
      && (d.action == Sell ==>
            d.takeProfit.Some? && d.stopLoss.Some? && price - d.takeProfit.value == rr * (d.stopLoss.value - price))
      && (atr > 0.0 && m > 0.0 && rr > 0.0 ==>
            (d.action == Buy ==> d.stopLoss.value < price < d.takeProfit.value)
            && (d.action == Sell ==> d.takeProfit.value < price < d.stopLoss.value))
  {
    var am := atr * m;
    assert am * rr == atr * m * rr;
    if atr > 0.0 && m > 0.0 && rr > 0.0 {
      MulPositive(atr, m);
      MulPositive(am, rr);
    }
  }

  /** `generate_signal(df, rr_ratio, atr_multiplier)`. */
  function GenerateSignal(t: Table, rrRatio: real := 2.0, atrMultiplier: real := 1.5): (r: Reply)
    requires t.Valid()
    ensures r == NoData <==> t.Empty()
  {
    if t.Empty() then NoData
    else match CheckLast(SignalInputs, t)
      case Some(reply) => reply
      case None =>
        var last := t.height - 1;
        assert forall k :: 0 <= k < 6 ==> SignalInputs[k] in t.columns && t.columns[SignalInputs[k]][last].Some?;
        assert SignalInputs[0] == "Close" && SignalInputs[1] == "EMA20" && SignalInputs[2] == "EMA50";
        assert SignalInputs[3] == "EMA200" && SignalInputs[4] == "RSI" && SignalInputs[5] == "ATR";
        Decide(t.columns["Close"][last].value, t.columns["EMA20"][last].value,
               t.columns["EMA50"][last].value, t.columns["EMA200"][last].value,
               t.columns["RSI"][last].value, t.columns["ATR"][last].value, rrRatio, atrMultiplier)
  }

  /** The fallbacks: a missing input is reported by name, a NaN on the last row as not enough data,
      and a decision is made exactly when every input is present with a number on the last row. */
  lemma GenerateSignalFallbacks(t: Table, rr: real, m: real)
    requires t.Valid() && !t.Empty()
    ensures GenerateSignal(t, rr, m).MissingColumn? ==>
              GenerateSignal(t, rr, m).column in SignalInputs && GenerateSignal(t, rr, m).column !in t.columns
    ensures GenerateSignal(t, rr, m).Decision? <==>
              forall k :: 0 <= k < |SignalInputs| ==>
                SignalInputs[k] in t.columns && t.columns[SignalInputs[k]][t.height - 1].Some?
    ensures (exists k :: 0 <= k < |SignalInputs| && SignalInputs[k] !in t.columns) &&
            (forall k :: 0 <= k < |SignalInputs| && SignalInputs[k] in t.columns ==>
               t.columns[SignalInputs[k]][t.height - 1].Some?) ==>
              GenerateSignal(t, rr, m).MissingColumn?
  {
    if && (exists k :: 0 <= k < |SignalInputs| && SignalInputs[k] !in t.columns)
       && (forall k :: 0 <= k < |SignalInputs| && SignalInputs[k] in t.columns ==>
             t.columns[SignalInputs[k]][t.height - 1].Some?) {
      FirstAbsentIsReported(SignalInputs, t);
    }
  }

  /** If some name is absent, the check loop reports a missing column (possibly an earlier one) or
      stops earlier on a NaN; it reports a missing column when no earlier name is NaN. */
  lemma {:induction false} FirstAbsentIsReported(names: seq<string>, t: Table)
    requires t.Valid() && t.height > 0
    requires exists k :: 0 <= k < |names| && names[k] !in t.columns
    requires forall k :: 0 <= k < |names| && names[k] in t.columns ==> t.columns[names[k]][t.height - 1].Some?
    ensures CheckLast(names, t).Some? && CheckLast(names, t).value.MissingColumn?
  {
    if names[0] in t.columns {
      var k :| 0 <= k < |names| && names[k] !in t.columns;
      assert names[1..][k - 1] == names[k];
      assert forall j :: 0 <= j < |names| - 1 ==> names[1..][j] == names[j + 1];
      FirstAbsentIsReported(names[1..], t);
    }
  }

  /** Whatever `calculate_indicators` returns successfully, `generate_signal` turns into a decision:
      the indicator frame has every input and no NaN. */
  lemma PipelineAlwaysDecides(t: Table, std20: seq<real>, rr: real, m: real)
    requires t.Valid() && PricesDefined(t) && |std20| == t.height
    requires Calculate(t, std20).Success?
    ensures GenerateSignal(Calculate(t, std20).value, rr, m).Decision?
  {
    SuccessIsComplete(t, std20);
    var s := Calculate(t, std20).value;
    assert forall k :: 0 <= k < |SignalInputs| ==> SignalInputs[k] in IndicatorNames + {"Close"};
    assert "Close" in t.columns;
    GenerateSignalFallbacks(s, rr, m);
  }
}
