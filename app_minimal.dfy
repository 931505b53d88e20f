/** app.py: a moving-average crossover signal written next to its averages, ATR risk levels around
    the last close, and a one-pass crossover backtest over the downloaded frame. The simple moving
    averages of the `ta` library are plain rolling means; its ATR is taken as given. */
module MinimalApp {
  import opened Wrappers
  import opened Frames
  import opened Series
  import opened Actions
  import RiskManager

  /** Close is a column with a number on every row. */
  predicate CloseDefined(t: Table)
  {
    "Close" in t.columns && Defined(t.columns["Close"])
  }

  /** The crossover rule: BUY when the fast average is above the slow one, SELL when below, HOLD on a
      tie or when either is NaN. */
  function Crossover(fast: Option<real>, slow: Option<real>): (a: Action)
    ensures a == Buy <==> Gt(fast, slow)
    ensures a == Sell <==> Lt(fast, slow)
    ensures a == Hold <==> !Gt(fast, slow) && !Lt(fast, slow)
  {
    if Gt(fast, slow) then Buy else if Lt(fast, slow) then Sell else Hold
  }

  /** `generate_signal(df)`: writes SMA_20 and SMA_50 of Close into the caller's frame, then applies
      the crossover rule to their last values. A NaN close makes every window holding it NaN. */
  method GenerateSignal(df: Frame) returns (a: Action)
    requires df.Valid() && "Close" in df.table.columns && df.table.height > 0
    modifies df
    ensures var close := old(df.table.columns["Close"]);
      df.table == Table(old(df.table.columns)["SMA_20" := RollingMeanWithNaN(close, 20)]
                                             ["SMA_50" := RollingMeanWithNaN(close, 50)],
                        old(df.table.height))
    ensures var last := df.table.height - 1;
      a == Crossover(df.table.columns["SMA_20"][last], df.table.columns["SMA_50"][last])
  {
    var close := df.table.columns["Close"];
    df.Assign("SMA_20", RollingMeanWithNaN(close, 20));
    df.Assign("SMA_50", RollingMeanWithNaN(close, 50));
    var last := df.table.height - 1;
    var fast, slow := df.table.columns["SMA_20"][last], df.table.columns["SMA_50"][last];
    if Gt(fast, slow) {
      return Buy;
    } else if Lt(fast, slow) {
      return Sell;
    }
    return Hold;
  }

  /** With fewer than 50 bars SMA_50 is still NaN on the last one, so the signal is HOLD. */
  lemma ShortHistoryHolds(close: Column)
    requires 0 < |close| < 50
    ensures Crossover(RollingMeanWithNaN(close, 20)[|close| - 1], RollingMeanWithNaN(close, 50)[|close| - 1]) == Hold
  {
  }

  /** A NaN among the last 20 closes makes SMA_20 NaN on the last bar, so the signal is HOLD. */
  lemma RecentGapHolds(close: Column, j: nat)
    requires j < |close| && |close| - 20 < j && close[j].None?
    ensures Crossover(RollingMeanWithNaN(close, 20)[|close| - 1], RollingMeanWithNaN(close, 50)[|close| - 1]) == Hold
  {
    RollingMeanWithNaNAt(close, 20, |close| - 1, j);
  }

  /** On a Close without NaN the signal is the crossover of the plain rolling means of its numbers. */
  lemma DefinedCloseCrossover(close: Column)
    requires Defined(close) && |close| > 0
    ensures var last := |close| - 1;
      Crossover(RollingMeanWithNaN(close, 20)[last], RollingMeanWithNaN(close, 50)[last])
        == Crossover(RollingMean(Values(close), 20)[last], RollingMean(Values(close), 50)[last])
  {
    RollingMeanWithNaNOnDefined(close, 20);
    RollingMeanWithNaNOnDefined(close, 50);
  }

  /** `calculate_risk_levels(df, entry_price, risk_ratio=2)` on the last value of the ATR column (given):
      NaN levels when that value is NaN, otherwise a stop one ATR below the entry and a target
      `risk_ratio` times as far above it. */
  function CalculateRiskLevels(atr: Column, entry: real, riskRatio: real := 2.0): (l: Option<RiskManager.Levels>)
    requires |atr| > 0
    ensures l.Some? <==> atr[|atr| - 1].Some?
    ensures l.Some? ==> entry - l.value.stopLoss == atr[|atr| - 1].value
                        && l.value.takeProfit - entry == riskRatio * (entry - l.value.stopLoss)
  {
    var last := atr[|atr| - 1];
    if last.Some? then Some(RiskManager.CalculateRiskLevels(entry, last.value, riskRatio)) else None
  }

  // ---------------------------------------------------------------- backtest

  /** `df.loc[mask, 'Signal'] = v`: the masked rows take v, the others keep their value. */
  function Mark(signal: seq<real>, mask: seq<bool>, v: real): (s: seq<real>)
    requires |mask| == |signal|
    ensures |s| == |signal|
    ensures forall i :: 0 <= i < |signal| ==> (mask[i] ==> s[i] == v) && (!mask[i] ==> s[i] == signal[i])
  {
    seq(|signal|, i requires 0 <= i < |signal| => if mask[i] then v else signal[i])
  }

  /** The Signal column: 0, then 1 where SMA_20 > SMA_50, then -1 where SMA_20 < SMA_50. */
  function Labels(fast: Column, slow: Column): (s: seq<real>)
    requires |slow| == |fast|
    ensures |s| == |fast|
    ensures forall i :: 0 <= i < |fast| ==>
              && (s[i] == 1.0 <==> Gt(fast[i], slow[i]))
              && (s[i] == -1.0 <==> Lt(fast[i], slow[i]))
              && (s[i] == 0.0 <==> !Gt(fast[i], slow[i]) && !Lt(fast[i], slow[i]))
  {
    var n := |fast|;
    var zero := seq(n, i requires 0 <= i < n => 0.0);
    var up := Mark(zero, seq(n, i requires 0 <= i < n => Gt(fast[i], slow[i])), 1.0);
    Mark(up, seq(n, i requires 0 <= i < n => Lt(fast[i], slow[i])), -1.0)
  }

  /** `Close.pct_change() * Signal.shift(1)`: the bar's price change earned with the previous bar's
      label; NaN on the first bar. */
  function StrategyReturns(close: seq<real>, signal: seq<real>): (r: Column)
    requires |signal| == |close|
    requires forall i :: 0 <= i < |close| ==> close[i] > 0.0
    ensures |r| == |close|
    ensures forall i :: 0 <= i < |close| ==> (r[i].Some? <==> i > 0)
  {
    seq(|close|, i requires 0 <= i < |close| => if i == 0 then None else Some(BarReturn(close, signal, i)))
  }

  /** The bar's price change times the previous bar's label. */
  function BarReturn(close: seq<real>, signal: seq<real>, i: nat): (r: real)
    requires |signal| == |close| && 0 < i < |close| && close[i - 1] > 0.0
    ensures r == 0.0 <==> signal[i - 1] == 0.0 || close[i] == close[i - 1]
    ensures signal[i - 1] == 1.0 ==> 1.0 + r == close[i] / close[i - 1]
    ensures signal[i - 1] == -1.0 ==> 1.0 - r == close[i] / close[i - 1]
  {
    (close[i] / close[i - 1] - 1.0) * signal[i - 1]
  }

  /** `(Returns + 1).prod()`: the product of 1 + r over the defined returns (NaN is skipped). */
  function Growth(r: Column): (g: real)
    ensures (forall i :: 0 <= i < |r| && r[i].Some? ==> r[i].value > -1.0) ==> g > 0.0
  {
    if |r| == 0 then 1.0
    else
      var p := Growth(r[..|r| - 1]);
      var f := if r[|r| - 1].Some? then 1.0 + r[|r| - 1].value else 1.0;
      if p > 0.0 && f > 0.0 then MulPositive(p, f); p * f else p * f
  }

  /** `(Returns + 1).prod() - 1`: no bar losing all of its value means the total loss stays above -100%. */
  function TotalReturn(r: Column): (t: real)
    ensures (forall i :: 0 <= i < |r| && r[i].Some? ==> r[i].value > -1.0) ==> t > -1.0
  {
    Growth(r) - 1.0
  }

  /** The script's backtest on the downloaded frame: writes Signal, SMA_20, SMA_50, the labels and
      Returns into it, in that order, and reports the compounded return. */
  method Backtest(df: Frame) returns (totalReturn: real)
    requires df.Valid() && CloseDefined(df.table)
    requires forall i :: 0 <= i < df.table.height ==> df.table.columns["Close"][i].value > 0.0
    modifies df
    ensures var close := Values(old(df.table.columns["Close"]));
      var fast, slow := RollingMean(close, 20), RollingMean(close, 50);
      var signal := Labels(fast, slow);
      && df.table == Table(old(df.table.columns)["Signal" := Lift(seq(|close|, i requires 0 <= i < |close| => 0.0))]
                             ["SMA_20" := fast]["SMA_50" := slow]["Signal" := Lift(signal)]
                             ["Returns" := StrategyReturns(close, signal)],
                           old(df.table.height))
      && totalReturn == TotalReturn(StrategyReturns(close, signal))
  {
    var close := Values(df.table.columns["Close"]);
    var n := |close|;
    df.Assign("Signal", Lift(seq(n, i requires 0 <= i < n => 0.0)));
    var fast := RollingMean(close, 20);
    var slow := RollingMean(close, 50);
    df.Assign("SMA_20", fast);
    df.Assign("SMA_50", slow);
    var signal := Labels(fast, slow);
    df.Assign("Signal", Lift(signal));
    var barReturns := StrategyReturns(close, signal);
    df.Assign("Returns", barReturns);
    totalReturn := TotalReturn(barReturns);
  }

  /** No look-ahead: a bar's return depends on the labels of earlier bars only. */
  lemma NoLookAhead(close: seq<real>, signal: seq<real>, other: seq<real>, i: nat)
    requires |signal| == |close| && |other| == |close| && i < |close|
    requires forall j :: 0 <= j < |close| ==> close[j] > 0.0
    requires signal[..i] == other[..i]
    ensures StrategyReturns(close, signal)[i] == StrategyReturns(close, other)[i]
  {
    if i > 0 {
      assert signal[i - 1] == signal[..i][i - 1] == other[..i][i - 1] == other[i - 1];
      assert BarReturn(close, signal, i) == BarReturn(close, other, i);
    }
  }

  lemma RatioChain(a: real, b: real, c: real)
    requires a > 0.0 && b > 0.0
    ensures (b / a) * (1.0 + (c / b - 1.0) * 1.0) == c / a
  {
    assert (c / b - 1.0) * 1.0 + 1.0 == c / b;
    assert (b / a) * (c / b) == c / a;
  }

  /** Growth of the first k returns when every label is 1: the price ratio over those bars. */
  lemma {:induction false} LongGrowth(close: seq<real>, signal: seq<real>, k: nat)
    requires |signal| == |close| && 1 <= k <= |close|
    requires forall i :: 0 <= i < |close| ==> close[i] > 0.0 && signal[i] == 1.0
    ensures Growth(StrategyReturns(close, signal)[..k]) == close[k - 1] / close[0]
  {
    var r := StrategyReturns(close, signal);
    if k == 1 {
      assert r[..1][..0] == [];
    } else {
      LongGrowth(close, signal, k - 1);
      assert r[..k][..k - 1] == r[..k - 1];
      RatioChain(close[0], close[k - 2], close[k - 1]);
    }
  }

  /** Labelled long on every bar, the backtest earns exactly the buy-and-hold return. */
  lemma LongThroughoutIsBuyAndHold(close: seq<real>, signal: seq<real>)
    requires |signal| == |close| && |close| > 0
    requires forall i :: 0 <= i < |close| ==> close[i] > 0.0 && signal[i] == 1.0
    ensures TotalReturn(StrategyReturns(close, signal)) == close[|close| - 1] / close[0] - 1.0
  {
    LongGrowth(close, signal, |close|);
    assert StrategyReturns(close, signal)[..|close|] == StrategyReturns(close, signal);
  }

  /** Growth of the first k returns when every label is 0: nothing is ever earned or lost. */
  lemma {:induction false} FlatGrowth(close: seq<real>, signal: seq<real>, k: nat)
    requires |signal| == |close| && k <= |close|
    requires forall i :: 0 <= i < |close| ==> close[i] > 0.0 && signal[i] == 0.0
    ensures Growth(StrategyReturns(close, signal)[..k]) == 1.0
  {
    if k > 0 {
      var r := StrategyReturns(close, signal);
      FlatGrowth(close, signal, k - 1);
      assert r[..k][..k - 1] == r[..k - 1];
    }
  }

  /** With no label ever set, the backtest's total return is 0. */
  lemma FlatEarnsNothing(close: seq<real>, signal: seq<real>)
    requires |signal| == |close|
    requires forall i :: 0 <= i < |close| ==> close[i] > 0.0 && signal[i] == 0.0
    ensures TotalReturn(StrategyReturns(close, signal)) == 0.0
  {
    FlatGrowth(close, signal, |close|);
    assert StrategyReturns(close, signal)[..|close|] == StrategyReturns(close, signal);
  }

  /** Fewer than 50 bars leave SMA_50 NaN everywhere, so no bar is labelled and the backtest's
      total return is 0. */
  lemma ShortHistoryEarnsNothing(close: seq<real>)
    requires |close| < 50
    requires forall i :: 0 <= i < |close| ==> close[i] > 0.0
    ensures TotalReturn(StrategyReturns(close, Labels(RollingMean(close, 20), RollingMean(close, 50)))) == 0.0
  {
    var slow := RollingMean(close, 50);
    var signal := Labels(RollingMean(close, 20), slow);
    forall i | 0 <= i < |close|
      ensures signal[i] == 0.0
    {
      assert slow[i].None?;
    }
    FlatEarnsNothing(close, signal);
  }
}
