/** indicators.py: ten indicator columns written into the caller's frame in place. */
module Indicators {
  import opened Wrappers
  import opened Frames
  import opened Series

  /** The ten columns `calculate_indicators` adds. */
  datatype Indicators = Indicators(ema20: Column, ema50: Column, ema200: Column, macd: Column,
                                   macdSignal: Column, rsi: Column, bbMid: Column, bbUpper: Column,
                                   bbLower: Column, atr: Column)

  const Names: set<string> :=
    {"EMA20", "EMA50", "EMA200", "MACD", "MACD_Signal", "RSI", "BB_Mid", "BB_Upper", "BB_Lower", "ATR"}

  /** The indicators of defined High, Low and Close series, with the 20-row rolling standard
      deviation of Close supplied as `std20`. */
  function Compute(high: seq<real>, low: seq<real>, close: seq<real>, std20: seq<real>): (ind: Indicators)
    requires |high| == |close| && |low| == |close| && |std20| == |close|
    ensures |ind.ema20| == |ind.ema50| == |ind.ema200| == |ind.macd| == |ind.macdSignal| == |close|
    ensures |ind.rsi| == |ind.bbMid| == |ind.bbUpper| == |ind.bbLower| == |ind.atr| == |close|
  {
    var mid := RollingMean(close, 20);
    var sd := RollingStd(std20, 20);
    Indicators(Lift(Ema(close, Alpha(20))), Lift(Ema(close, Alpha(50))), Lift(Ema(close, Alpha(200))),
               Lift(Macd(close)), Lift(MacdSignal(close)), Rsi(close, 14),
               mid, Band(mid, sd, 2.0), Band(mid, sd, -2.0), Atr(high, low, close, 14))
  }

  /** The columns after the ten assignments, in the order the source makes them. */
  function WithIndicators(cols: map<string, Column>, ind: Indicators): map<string, Column>
  {
    cols["EMA20" := ind.ema20]["EMA50" := ind.ema50]["EMA200" := ind.ema200]["MACD" := ind.macd]
        ["MACD_Signal" := ind.macdSignal]["RSI" := ind.rsi]["BB_Mid" := ind.bbMid]
        ["BB_Upper" := ind.bbUpper]["BB_Lower" := ind.bbLower]["ATR" := ind.atr]
  }

  /** High, Low and Close are columns with a number on every row. */
  predicate PricesDefined(t: Table)
  {
    && "High" in t.columns && Defined(t.columns["High"])
    && "Low" in t.columns && Defined(t.columns["Low"])
    && "Close" in t.columns && Defined(t.columns["Close"])
  }

  /** The indicators of a frame's own price columns. */
  function Of(t: Table, std20: seq<real>): (ind: Indicators)
    requires t.Valid() && PricesDefined(t) && |std20| == t.height
    ensures |ind.ema20| == |ind.ema50| == |ind.ema200| == |ind.macd| == |ind.macdSignal| == t.height
    ensures |ind.rsi| == |ind.bbMid| == |ind.bbUpper| == |ind.bbLower| == |ind.atr| == t.height
  {
    Compute(Values(t.columns["High"]), Values(t.columns["Low"]), Values(t.columns["Close"]), std20)
  }

  /** `calculate_indicators(df)`: adds the ten columns to the caller's frame and returns that frame. */
  method CalculateIndicators(df: Frame, std20: seq<real>) returns (out: Frame)
    requires df.Valid() && PricesDefined(df.table) && |std20| == df.table.height
    modifies df
    ensures out == df && df.Valid()
    ensures df.table == Table(WithIndicators(old(df.table.columns), Of(old(df.table), std20)), old(df.table.height))
  {
    ghost var t := df.table;
    // High, Low and Close are not among the ten names, so reading them up front reads what the
    // source reads after the earlier assignments.
    var close := Values(df.table.columns["Close"]);
    var high := Values(df.table.columns["High"]);
    var low := Values(df.table.columns["Low"]);
    var ema20 := ComputeEma(close, Alpha(20));
    df.Assign("EMA20", Lift(ema20));
    var ema50 := ComputeEma(close, Alpha(50));
    df.Assign("EMA50", Lift(ema50));
    var ema200 := ComputeEma(close, Alpha(200));
    df.Assign("EMA200", Lift(ema200));
    var ema12 := ComputeEma(close, Alpha(12));
    var ema26 := ComputeEma(close, Alpha(26));
    var macd := Minus(ema12, ema26);
    df.Assign("MACD", Lift(macd));
    var macdSignal := ComputeEma(macd, Alpha(9));
    df.Assign("MACD_Signal", Lift(macdSignal));
    df.Assign("RSI", Rsi(close, 14));
    var mid := RollingMean(close, 20);
    var sd := RollingStd(std20, 20);
    df.Assign("BB_Mid", mid);
    df.Assign("BB_Upper", Band(mid, sd, 2.0));
    df.Assign("BB_Lower", Band(mid, sd, -2.0));
    df.Assign("ATR", Atr(high, low, close, 14));
    assert df.table.columns == WithIndicators(t.columns, Of(t, std20));
    out := df;
  }

  /** Exactly the ten names are added: every earlier column not among them keeps its cells, and the
      frame's column set grows by the ten names and nothing else. */
  lemma AddsTenColumns(cols: map<string, Column>, ind: Indicators)
    ensures WithIndicators(cols, ind).Keys == cols.Keys + Names
    ensures forall name :: name in cols && name !in Names ==> WithIndicators(cols, ind)[name] == cols[name]
  {
  }

  /** The frame `calculate_indicators` leaves behind is well formed, holds the ten names, and its MACD
      and MACD_Signal columns are the computed ones. */
  lemma AugmentedShape(t: Table, std20: seq<real>)
    requires t.Valid() && PricesDefined(t) && |std20| == t.height
    ensures var ind := Of(t, std20);
      var u := Table(WithIndicators(t.columns, ind), t.height);
      && u.Valid() && u.columns.Keys == t.columns.Keys + Names
      && u.columns["MACD"] == ind.macd && u.columns["MACD_Signal"] == ind.macdSignal
  {
    var ind := Of(t, std20);
    AddsTenColumns(t.columns, ind);
    KeepsHeight(t.columns, ind, t.height);
  }

  /** Ten columns of the frame's height leave every column at that height. */
  lemma KeepsHeight(cols: map<string, Column>, ind: Indicators, n: nat)
    requires forall name :: name in cols ==> |cols[name]| == n
    requires |ind.ema20| == |ind.ema50| == |ind.ema200| == |ind.macd| == |ind.macdSignal| == n
    requires |ind.rsi| == |ind.bbMid| == |ind.bbUpper| == |ind.bbLower| == |ind.atr| == n
    ensures forall name :: name in WithIndicators(cols, ind) ==> |WithIndicators(cols, ind)[name]| == n
  {
  }

  /** The three trend EMAs follow e[0] = c[0], e[i] = a c[i] + (1 - a) e[i-1] with a = 2/(span+1). */
  lemma EmaFacts(high: seq<real>, low: seq<real>, close: seq<real>, std20: seq<real>, i: nat)
    requires |high| == |close| && |low| == |close| && |std20| == |close| && 0 < i < |close|
    ensures var ind := Compute(high, low, close, std20);
      && ind.ema20[0] == Some(close[0]) && ind.ema50[0] == Some(close[0]) && ind.ema200[0] == Some(close[0])
      && ind.ema20[i].value == EmaStep(Alpha(20), close[i], ind.ema20[i - 1].value)
      && ind.ema50[i].value == EmaStep(Alpha(50), close[i], ind.ema50[i - 1].value)
      && ind.ema200[i].value == EmaStep(Alpha(200), close[i], ind.ema200[i - 1].value)
  {
    var e20, e50, e200 := Ema(close, Alpha(20)), Ema(close, Alpha(50)), Ema(close, Alpha(200));
    assert e20[i] == EmaStep(Alpha(20), close[i], e20[i - 1]);
    assert e50[i] == EmaStep(Alpha(50), close[i], e50[i - 1]);
    assert e200[i] == EmaStep(Alpha(200), close[i], e200[i - 1]);
  }

  /** A constant Close keeps every EMA at that constant and makes MACD and its signal line 0. */
  lemma FlatClose(high: seq<real>, low: seq<real>, close: seq<real>, std20: seq<real>, c: real)
    requires |high| == |close| && |low| == |close| && |std20| == |close|
    requires forall j :: 0 <= j < |close| ==> close[j] == c
    ensures var ind := Compute(high, low, close, std20);
      forall j :: 0 <= j < |close| ==>
        && ind.ema20[j] == Some(c) && ind.ema50[j] == Some(c) && ind.ema200[j] == Some(c)
        && ind.macd[j] == Some(0.0) && ind.macdSignal[j] == Some(0.0)
  {
    EmaOfConstant(close, Alpha(20), c);
    EmaOfConstant(close, Alpha(50), c);
    EmaOfConstant(close, Alpha(200), c);
    MacdOfConstant(close, c);
  }

  /** RSI(14) is NaN on the first 13 rows; where the average loss is positive it lies in [0, 100);
      with no loss and some gain it is 100; with neither it is NaN. */
  lemma RsiFacts(high: seq<real>, low: seq<real>, close: seq<real>, std20: seq<real>, i: nat)
    requires |high| == |close| && |low| == |close| && |std20| == |close| && i < |close|
    ensures var rsi := Compute(high, low, close, std20).rsi;
      && (i < 13 ==> rsi[i].None?)
      && (i >= 13 && AverageLosses(close, 14)[i].value > 0.0 ==> 0.0 <= rsi[i].value < 100.0)
      && (i >= 13 && AverageLosses(close, 14)[i].value == 0.0 ==>
            (AverageGains(close, 14)[i].value > 0.0 ==> rsi[i] == Some(100.0))
            && (AverageGains(close, 14)[i].value == 0.0 ==> rsi[i].None?))
  {
    RsiRange(close, 14, i);
  }

  /** The bands sit 2 std either side of BB_Mid from row 19 on, and are NaN before. */
  lemma BandFacts(high: seq<real>, low: seq<real>, close: seq<real>, std20: seq<real>, i: nat)
    requires |high| == |close| && |low| == |close| && |std20| == |close| && i < |close|
    ensures var ind := Compute(high, low, close, std20);
      && (ind.bbUpper[i].Some? <==> i >= 19) && (ind.bbLower[i].Some? <==> i >= 19)
      && (i >= 19 ==>
            ind.bbUpper[i].value - ind.bbMid[i].value == ind.bbMid[i].value - ind.bbLower[i].value
            == 2.0 * std20[i])
  {
    BandsSymmetric(RollingMean(close, 20), RollingStd(std20, 20), i);
  }

  /** ATR(14) is NaN on the first 13 rows, the mean of the last 14 true ranges after that, and never
      negative once its window has left the first row. */
  lemma AtrFacts(high: seq<real>, low: seq<real>, close: seq<real>, std20: seq<real>, i: nat)
    requires |high| == |close| && |low| == |close| && |std20| == |close| && i < |close|
    ensures var atr := Compute(high, low, close, std20).atr;
      && (atr[i].Some? <==> i >= 13)
      && (i >= 13 ==> atr[i].value == Sum(TrueRange(high, low, close)[i - 13 .. i + 1]) / 14.0)
      && (i >= 14 ==> atr[i].value >= 0.0)
  {
    AtrNonNegative(high, low, close, 14, i);
  }
}
