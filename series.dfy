/** The indicator recurrences every dashboard recomputes, over exact reals: pandas'
    `ewm(span, adjust=False).mean()`, `diff()`, the gain/loss split, `rolling(w).mean()`,
    RSI with floating-point division by zero made explicit, true range and ATR, Bollinger
    bands around a rolling mean, and classic pivot levels. */
module Series {
  import opened Wrappers
  import opened Frames

  // ---------------------------------------------------------------- EMA

  /** The smoothing factor of `ewm(span=s)`: 2/(s+1). */
  function Alpha(span: nat): (a: real)
    requires span >= 1
    ensures 0.0 < a <= 1.0
  {
    2.0 / (span as real + 1.0)
  }

  /** One step of the recurrence: the new value weighted by a, the previous average by 1 - a. */
  function EmaStep(a: real, x: real, prev: real): real
  {
    a * x + (1.0 - a) * prev
  }

  /** `ewm(span, adjust=False).mean()` of a fully defined series, with `a` = Alpha(span). */
  function Ema(xs: seq<real>, a: real): (e: seq<real>)
    ensures |e| == |xs|
    ensures |xs| > 0 ==> e[0] == xs[0]
    ensures forall i :: 0 < i < |xs| ==> e[i] == EmaStep(a, xs[i], e[i - 1])
    decreases |xs|
  {
    if |xs| == 0 then []
    else if |xs| == 1 then [xs[0]]
    else
      var p := Ema(xs[..|xs| - 1], a);
      p + [EmaStep(a, xs[|xs| - 1], p[|p| - 1])]
  }

  /** The EMA computed step by step into a buffer, one row per iteration. */
  method ComputeEma(xs: seq<real>, a: real) returns (e: seq<real>)
    ensures e == Ema(xs, a)
  {
    var buf := new real[|xs|];
    var i := 0;
    while i < |xs|
      invariant 0 <= i <= |xs|
      invariant buf[..i] == Ema(xs[..i], a)
    {
      ghost var done := buf[..i];
      ghost var next := Ema(xs[..i + 1], a);
      EmaPrefix(xs[..i + 1], a);
      assert xs[..i + 1][..i] == xs[..i];
      assert next == done + [next[i]];
      if i == 0 {
        buf[0] := xs[0];
      } else {
        assert next[i - 1] == done[i - 1] == buf[i - 1];
        buf[i] := EmaStep(a, xs[i], buf[i - 1]);
      }
      assert buf[i] == next[i];
      assert buf[..i + 1] == done + [buf[i]];
      i := i + 1;
    }
    assert xs[..|xs|] == xs;
    e := buf[..];
  }

  /** Dropping the last input drops the last EMA value and changes no other. */
  lemma EmaPrefix(xs: seq<real>, a: real)
    requires |xs| > 0
    ensures Ema(xs, a) == Ema(xs[..|xs| - 1], a) + [Ema(xs, a)[|xs| - 1]]
  {
  }

  /** A constant series is its own EMA. */
  lemma {:induction false} EmaOfConstantAt(xs: seq<real>, a: real, c: real, i: nat)
    requires forall j :: 0 <= j < |xs| ==> xs[j] == c
    requires i < |xs|
    ensures Ema(xs, a)[i] == c
  {
    if i > 0 {
      EmaOfConstantAt(xs, a, c, i - 1);
    }
  }

  lemma EmaOfConstant(xs: seq<real>, a: real, c: real)
    requires forall j :: 0 <= j < |xs| ==> xs[j] == c
    ensures forall i :: 0 <= i < |xs| ==> Ema(xs, a)[i] == c
  {
    forall i | 0 <= i < |xs| {
      EmaOfConstantAt(xs, a, c, i);
    }
  }

  /** With 0 <= a <= 1 the EMA is a weighted average, so it stays within the range of its inputs. */
  lemma {:induction false} EmaWithinBounds(xs: seq<real>, a: real, lo: real, hi: real, i: nat)
    requires 0.0 <= a <= 1.0
    requires forall j :: 0 <= j < |xs| ==> lo <= xs[j] <= hi
    requires i < |xs|
    ensures lo <= Ema(xs, a)[i] <= hi
  {
    if i > 0 {
      var e := Ema(xs, a);
      EmaWithinBounds(xs, a, lo, hi, i - 1);
      assert lo <= xs[i] <= hi;
      ConvexCombinationWithin(a, xs[i], e[i - 1], lo, hi);
      assert e[i] == EmaStep(a, xs[i], e[i - 1]);
    }
  }

  /** On a strictly rising series with 0 < a < 1 the EMA lags: after the first row it is below the close. */
  lemma {:induction false} EmaLagsRisingSeries(xs: seq<real>, a: real, i: nat)
    requires 0.0 < a < 1.0
    requires forall j, k :: 0 <= j < k < |xs| ==> xs[j] < xs[k]
    requires 0 < i < |xs|
    ensures Ema(xs, a)[i] < xs[i]
  {
    var e := Ema(xs, a);
    if i > 1 {
      EmaLagsRisingSeries(xs, a, i - 1);
    }
    assert e[i - 1] < xs[i];
    ConvexCombinationBelow(a, xs[i], e[i - 1]);
    assert e[i] == EmaStep(a, xs[i], e[i - 1]);
  }

  lemma ConvexCombinationWithin(a: real, x: real, p: real, lo: real, hi: real)
    requires 0.0 <= a <= 1.0 && lo <= x <= hi && lo <= p <= hi
    ensures lo <= a * x + (1.0 - a) * p <= hi
  {
    assert a * x + (1.0 - a) * p - lo == a * (x - lo) + (1.0 - a) * (p - lo);
    assert hi - (a * x + (1.0 - a) * p) == a * (hi - x) + (1.0 - a) * (hi - p);
    MulNonNegative(a, x - lo);
    MulNonNegative(1.0 - a, p - lo);
    MulNonNegative(a, hi - x);
    MulNonNegative(1.0 - a, hi - p);
  }

  lemma ConvexCombinationBelow(a: real, x: real, p: real)
    requires 0.0 < a < 1.0 && p < x
    ensures a * x + (1.0 - a) * p < x
  {
    var u, v := 1.0 - a, x - p;
    MulPositive(u, v);
    assert a * x + (1.0 - a) * p == x - u * v;
  }

  lemma MulNonNegative(x: real, y: real)
    requires x >= 0.0 && y >= 0.0
    ensures x * y >= 0.0
  {
  }

  lemma MulPositive(x: real, y: real)
    requires x > 0.0 && y > 0.0
    ensures x * y > 0.0
  {
  }

  /** The difference of two series, row by row. */
  function Minus(xs: seq<real>, ys: seq<real>): (d: seq<real>)
    requires |xs| == |ys|
    ensures |d| == |xs|
    ensures forall i :: 0 <= i < |xs| ==> d[i] + ys[i] == xs[i]
  {
    seq(|xs|, i requires 0 <= i < |xs| => xs[i] - ys[i])
  }

  /** MACD(12, 26): EMA12(close) - EMA26(close). */
  function Macd(close: seq<real>): (m: seq<real>)
    ensures |m| == |close|
    ensures forall i :: 0 <= i < |close| ==> m[i] + Ema(close, Alpha(26))[i] == Ema(close, Alpha(12))[i]
  {
    Minus(Ema(close, Alpha(12)), Ema(close, Alpha(26)))
  }

  /** The MACD signal line: EMA9 of MACD. */
  function MacdSignal(close: seq<real>): (s: seq<real>)
    ensures |s| == |close|
    ensures |close| > 0 ==> s[0] == Macd(close)[0]
    ensures forall i :: 0 < i < |close| ==> s[i] == EmaStep(Alpha(9), Macd(close)[i], s[i - 1])
  {
    Ema(Macd(close), Alpha(9))
  }

  /** A flat close makes MACD and its signal line zero on every row. */
  lemma MacdOfConstant(close: seq<real>, c: real)
    requires forall j :: 0 <= j < |close| ==> close[j] == c
    ensures |Macd(close)| == |MacdSignal(close)| == |close|
    ensures forall i :: 0 <= i < |close| ==> Macd(close)[i] == 0.0 && MacdSignal(close)[i] == 0.0
  {
    EmaOfConstant(close, Alpha(12), c);
    EmaOfConstant(close, Alpha(26), c);
    EmaOfConstant(Macd(close), Alpha(9), 0.0);
  }

  // ---------------------------------------------------------------- differences, gains, losses

  /** `diff()`: NaN on the first row, then each row's change from the row before. */
  function Diff(xs: seq<real>): (d: Column)
    ensures |d| == |xs|
    ensures |xs| > 0 ==> d[0].None?
    ensures forall i :: 0 < i < |xs| ==> d[i] == Some(xs[i] - xs[i - 1])
  {
    seq(|xs|, i requires 0 <= i < |xs| => if i == 0 then None else Some(xs[i] - xs[i - 1]))
  }

  /** `delta.where(delta > 0, 0)`: the rise on each row, 0 on a fall, a tie or NaN. */
  function Gains(d: Column): (g: seq<real>)
    ensures |g| == |d|
    ensures forall i :: 0 <= i < |d| ==> g[i] >= 0.0
  {
    seq(|d|, i requires 0 <= i < |d| => if Gt(d[i], Some(0.0)) then d[i].value else 0.0)
  }

  /** `-delta.where(delta < 0, 0)`: the size of the fall on each row, 0 on a rise, a tie or NaN. */
  function Losses(d: Column): (l: seq<real>)
    ensures |l| == |d|
    ensures forall i :: 0 <= i < |d| ==> l[i] >= 0.0
  {
    seq(|d|, i requires 0 <= i < |d| => if Lt(d[i], Some(0.0)) then -d[i].value else 0.0)
  }

  /** Gains and losses split every move: at most one is non-zero, and their difference is the move. */
  lemma GainsLossesSplitMoves(xs: seq<real>, i: nat)
    requires i < |xs|
    ensures Gains(Diff(xs))[i] == 0.0 || Losses(Diff(xs))[i] == 0.0
    ensures i == 0 ==> Gains(Diff(xs))[i] == 0.0 && Losses(Diff(xs))[i] == 0.0
    ensures i > 0 ==> Gains(Diff(xs))[i] - Losses(Diff(xs))[i] == xs[i] - xs[i - 1]
  {
  }

  // ---------------------------------------------------------------- rolling mean

  function Sum(xs: seq<real>): real
  {
    if |xs| == 0 then 0.0 else Sum(xs[..|xs| - 1]) + xs[|xs| - 1]
  }

  lemma {:induction false} SumWithinBounds(xs: seq<real>, lo: real, hi: real)
    requires forall j :: 0 <= j < |xs| ==> lo <= xs[j] <= hi
    ensures |xs| as real * lo <= Sum(xs) <= |xs| as real * hi
  {
    if |xs| > 0 {
      SumWithinBounds(xs[..|xs| - 1], lo, hi);
    }
  }

  /** `rolling(w).mean()` of a fully defined series: NaN on the first w-1 rows, then the mean of the
      last w values. */
  function RollingMean(xs: seq<real>, w: nat): (m: Column)
    requires w >= 1
    ensures |m| == |xs|
    ensures forall i :: 0 <= i < |xs| ==> (m[i].Some? <==> i >= w - 1)
  {
    seq(|xs|, i requires 0 <= i < |xs| =>
      if i < w - 1 then None else Some(Sum(xs[i - w + 1 .. i + 1]) / w as real))
  }

  /** `rolling(w).mean()` of a column that may hold NaN, with `min_periods = w`: a window holding a
      NaN has fewer than w numbers, so its mean is NaN too. */
  function RollingMeanWithNaN(c: Column, w: nat): (m: Column)
    requires w >= 1
    ensures |m| == |c|
    ensures forall i :: 0 <= i < |c| ==> (m[i].Some? <==> i >= w - 1 && Defined(c[i - w + 1 .. i + 1]))
  {
    seq(|c|, i requires 0 <= i < |c| =>
      if i < w - 1 || !Defined(c[i - w + 1 .. i + 1]) then None
      else Some(Sum(Values(c[i - w + 1 .. i + 1])) / w as real))
  }

  /** On a column without NaN the NaN-aware rolling mean is the rolling mean of its numbers. */
  lemma RollingMeanWithNaNOnDefined(c: Column, w: nat)
    requires w >= 1 && Defined(c)
    ensures RollingMeanWithNaN(c, w) == RollingMean(Values(c), w)
  {
    var m, r := RollingMeanWithNaN(c, w), RollingMean(Values(c), w);
    forall i | 0 <= i < |c| ensures m[i] == r[i] {
      if i >= w - 1 {
        assert Values(c[i - w + 1 .. i + 1]) == Values(c)[i - w + 1 .. i + 1];
      }
    }
  }

  /** A NaN inside the window makes the rolling mean NaN on that row. */
  lemma RollingMeanWithNaNAt(c: Column, w: nat, i: nat, j: nat)
    requires w >= 1 && i < |c| && i - w < j <= i && c[j].None?
    ensures RollingMeanWithNaN(c, w)[i].None?
  {
    if i >= w - 1 {
      assert c[i - w + 1 .. i + 1][j - (i - w + 1)] == c[j];
    }
  }

  /** A rolling mean lies within the range of the values in its window. */
  lemma RollingMeanWithinBounds(xs: seq<real>, w: nat, i: nat, lo: real, hi: real)
    requires w >= 1 && w - 1 <= i < |xs|
    requires forall j :: i - w < j <= i ==> lo <= xs[j] <= hi
    ensures lo <= RollingMean(xs, w)[i].value <= hi
  {
    var win := xs[i - w + 1 .. i + 1];
    forall j | 0 <= j < |win| ensures lo <= win[j] <= hi {
      assert win[j] == xs[i - w + 1 + j];
    }
    SumWithinBounds(win, lo, hi);
    assert RollingMean(xs, w)[i].value == Sum(win) / w as real;
    QuotientWithin(Sum(win), w as real, lo, hi);
  }

  lemma QuotientWithin(s: real, n: real, lo: real, hi: real)
    requires n > 0.0 && n * lo <= s <= n * hi
    ensures lo <= s / n <= hi
  {
    assert s / n - lo == (s - n * lo) / n;
    assert hi - s / n == (n * hi - s) / n;
  }

  /** The rolling mean of a series with no negative value has no negative value. */
  lemma RollingMeanOfNonNegative(xs: seq<real>, w: nat)
    requires w >= 1
    requires forall j :: 0 <= j < |xs| ==> xs[j] >= 0.0
    ensures forall i :: 0 <= i < |xs| && RollingMean(xs, w)[i].Some? ==> RollingMean(xs, w)[i].value >= 0.0
  {
    forall i | 0 <= i < |xs| && RollingMean(xs, w)[i].Some?
      ensures RollingMean(xs, w)[i].value >= 0.0
    {
      var hi := Sum(xs[i - w + 1 .. i + 1]);
      var win := xs[i - w + 1 .. i + 1];
      SumNonNegativeBound(win);
      RollingMeanWithinBounds(xs, w, i, 0.0, Sum(win));
    }
  }

  /** Every element of a non-negative sequence is at most its sum. */
  lemma {:induction false} SumNonNegativeBound(xs: seq<real>)
    requires forall j :: 0 <= j < |xs| ==> xs[j] >= 0.0
    ensures Sum(xs) >= 0.0
    ensures forall j :: 0 <= j < |xs| ==> xs[j] <= Sum(xs)
  {
    if |xs| > 0 {
      SumNonNegativeBound(xs[..|xs| - 1]);
    }
  }

  // ---------------------------------------------------------------- RSI

  /** `100 - 100 / (1 + g / l)` evaluated in floating point on two rolling averages: with l > 0 it is
      an ordinary quotient; with l = 0 and g > 0 the ratio is +inf and the RSI 100; with both 0 the
      ratio is 0/0 = NaN. */
  function RsiFromAverages(g: Option<real>, l: Option<real>): (r: Option<real>)
    requires g.Some? ==> g.value >= 0.0
    requires l.Some? ==> l.value >= 0.0
    ensures r.Some? <==> g.Some? && l.Some? && (l.value > 0.0 || g.value > 0.0)
    ensures r.Some? ==> 0.0 <= r.value <= 100.0
    ensures g.Some? && l.Some? && l.value > 0.0 ==> r.value < 100.0
    ensures g.Some? && g.value > 0.0 && l == Some(0.0) ==> r == Some(100.0)
  {
    if g.None? || l.None? then None
    else if l.value > 0.0 then
      var rs := g.value / l.value;
      assert rs >= 0.0;
      Some(100.0 - 100.0 / (1.0 + rs))
    else if g.value > 0.0 then Some(100.0)
    else None
  }

  /** Where the average loss is positive, the RSI is the gains' share of all movement, in percent. */
  lemma RsiIsGainShare(g: real, l: real)
    requires g >= 0.0 && l > 0.0
    ensures RsiFromAverages(Some(g), Some(l)) == Some(100.0 * g / (g + l))
  {
    var rs := g / l;
    assert rs * l == g;
    assert rs >= 0.0;
    var q := 100.0 / (1.0 + rs);
    assert q * (1.0 + rs) == 100.0;
    assert q * (g + l) == 100.0 * l by {
      assert (1.0 + rs) * l == g + l;
      assert q * (g + l) == q * ((1.0 + rs) * l);
      assert q * ((1.0 + rs) * l) == (q * (1.0 + rs)) * l;
    }
    assert (100.0 - q) * (g + l) == 100.0 * g;
    var t := 100.0 * g / (g + l);
    assert t * (g + l) == 100.0 * g;
    CancelFactor(100.0 - q, t, g + l);
  }

  lemma CancelFactor(u: real, v: real, s: real)
    requires s != 0.0 && u * s == v * s
    ensures u == v
  {
    assert (u - v) * s == 0.0;
  }

  /** Average gains and losses over `w` rows: `diff().where(...).rolling(w).mean()`. */
  function AverageGains(close: seq<real>, w: nat): (m: Column)
    requires w >= 1
    ensures |m| == |close|
    ensures forall i :: 0 <= i < |close| && m[i].Some? ==> m[i].value >= 0.0
  {
    RollingMeanOfNonNegative(Gains(Diff(close)), w);
    RollingMean(Gains(Diff(close)), w)
  }

  function AverageLosses(close: seq<real>, w: nat): (m: Column)
    requires w >= 1
    ensures |m| == |close|
    ensures forall i :: 0 <= i < |close| && m[i].Some? ==> m[i].value >= 0.0
  {
    RollingMeanOfNonNegative(Losses(Diff(close)), w);
    RollingMean(Losses(Diff(close)), w)
  }

  /** RSI(w) as the strategy files and indicators.py compute it (`rs = avg_gain / avg_loss`). */
  function Rsi(close: seq<real>, w: nat): (r: Column)
    requires w >= 1
    ensures |r| == |close|
  {
    var g := AverageGains(close, w);
    var l := AverageLosses(close, w);
    seq(|close|, i requires 0 <= i < |close| => RsiFromAverages(g[i], l[i]))
  }

  /** RSI(w) is NaN on the first w-1 rows and, where defined, lies in [0, 100]; it is below 100
      whenever the average loss is positive, 100 when only gains occurred, NaN when the window is flat. */
  lemma RsiRange(close: seq<real>, w: nat, i: nat)
    requires w >= 1 && i < |close|
    ensures i < w - 1 ==> Rsi(close, w)[i].None?
    ensures Rsi(close, w)[i].Some? ==> 0.0 <= Rsi(close, w)[i].value <= 100.0
    ensures i >= w - 1 && AverageLosses(close, w)[i].value > 0.0 ==> Rsi(close, w)[i].value < 100.0
    ensures i >= w - 1 && AverageLosses(close, w)[i].value == 0.0 ==>
              (AverageGains(close, w)[i].value > 0.0 ==> Rsi(close, w)[i] == Some(100.0)) &&
              (AverageGains(close, w)[i].value == 0.0 ==> Rsi(close, w)[i].None?)
  {
  }

  // ---------------------------------------------------------------- true range and ATR

  function Abs(x: real): real { if x < 0.0 then -x else x }

  function Max3(a: real, b: real, c: real): (m: real)
    ensures m >= a && m >= b && m >= c
    ensures m == a || m == b || m == c
  {
    if a >= b && a >= c then a else if b >= c then b else c
  }

  /** True range: the row-wise maximum of High-Low, |High-prevClose| and |Low-prevClose|. On the first
      row the previous close is NaN and pandas' row maximum skips NaN, so it is High-Low alone. */
  function TrueRange(high: seq<real>, low: seq<real>, close: seq<real>): (tr: seq<real>)
    requires |high| == |close| && |low| == |close|
    ensures |tr| == |close|
    ensures |close| > 0 ==> tr[0] == high[0] - low[0]
    ensures forall i :: 0 < i < |close| ==>
              tr[i] >= high[i] - low[i] && tr[i] >= Abs(high[i] - close[i - 1]) && tr[i] >= Abs(low[i] - close[i - 1])
              && (tr[i] == high[i] - low[i] || tr[i] == Abs(high[i] - close[i - 1]) || tr[i] == Abs(low[i] - close[i - 1]))
  {
    seq(|close|, i requires 0 <= i < |close| =>
      if i == 0 then high[0] - low[0]
      else Max3(high[i] - low[i], Abs(high[i] - close[i - 1]), Abs(low[i] - close[i - 1])))
  }

  /** ATR(w): the simple rolling mean of the true range. */
  function Atr(high: seq<real>, low: seq<real>, close: seq<real>, w: nat): (atr: Column)
    requires |high| == |close| && |low| == |close| && w >= 1
    ensures |atr| == |close|
  {
    RollingMean(TrueRange(high, low, close), w)
  }

  /** ATR(w) is NaN on the first w-1 rows and never negative once its window starts after the first
      row (or the first row has High >= Low). */
  lemma AtrNonNegative(high: seq<real>, low: seq<real>, close: seq<real>, w: nat, i: nat)
    requires |high| == |close| && |low| == |close| && w >= 1 && i < |close|
    ensures (Atr(high, low, close, w)[i].Some? <==> i >= w - 1)
    ensures i >= w && Atr(high, low, close, w)[i].Some? ==> Atr(high, low, close, w)[i].value >= 0.0
    ensures i >= w - 1 && high[0] >= low[0] ==> Atr(high, low, close, w)[i].value >= 0.0
  {
    if i >= w - 1 && (i >= w || high[0] >= low[0]) {
      var win := TrueRange(high, low, close)[i - w + 1 .. i + 1];
      TrueRangeNonNegative(high, low, close, i - w + 1, i + 1);
      assert forall j :: 0 <= j < |win| ==> win[j] >= 0.0;
      SumNonNegativeBound(win);
      assert Atr(high, low, close, w)[i].value == Sum(win) / w as real;
      QuotientNonNegative(Sum(win), w as real);
    }
  }

  lemma QuotientNonNegative(s: real, n: real)
    requires s >= 0.0 && n > 0.0
    ensures s / n >= 0.0
  {
  }

  /** True ranges are never negative after the first row, nor on it when High >= Low there. */
  lemma TrueRangeNonNegative(high: seq<real>, low: seq<real>, close: seq<real>, lo: nat, hi: nat)
    requires |high| == |close| && |low| == |close| && lo <= hi <= |close|
    requires lo > 0 || (0 < |close| && high[0] >= low[0])
    ensures forall j :: lo <= j < hi ==> TrueRange(high, low, close)[j] >= 0.0
  {
  }

  // ---------------------------------------------------------------- Bollinger bands

  /** The rolling standard deviation as a column: the values are supplied (Dafny has no square root)
      and, like pandas' `rolling(w).std()` of a defined series, are NaN on the first w-1 rows. */
  function RollingStd(std: seq<real>, w: nat): (s: Column)
    requires w >= 1
    ensures |s| == |std|
    ensures forall i :: 0 <= i < |std| ==> (s[i].Some? <==> i >= w - 1)
  {
    seq(|std|, i requires 0 <= i < |std| => if i < w - 1 then None else Some(std[i]))
  }

  /** `mid + k * dev` on columns: NaN where either operand is NaN. */
  function Band(mid: Column, dev: Column, k: real): (b: Column)
    requires |dev| == |mid|
    ensures |b| == |mid|
  {
    seq(|mid|, i requires 0 <= i < |mid| =>
      if mid[i].Some? && dev[i].Some? then Some(mid[i].value + k * dev[i].value) else None)
  }

  /** Bollinger bands `mid +- 2 std` are symmetric about the mid line with half-width 2 std, and ordered
      upper >= mid >= lower wherever the deviation is non-negative. */
  lemma BandsSymmetric(mid: Column, dev: Column, i: nat)
    requires |dev| == |mid| && i < |mid|
    ensures Band(mid, dev, 2.0)[i].Some? <==> mid[i].Some? && dev[i].Some?
    ensures Band(mid, dev, -2.0)[i].Some? <==> mid[i].Some? && dev[i].Some?
    ensures Band(mid, dev, 2.0)[i].Some? ==>
              Band(mid, dev, 2.0)[i].value - mid[i].value == mid[i].value - Band(mid, dev, -2.0)[i].value
              == 2.0 * dev[i].value
    ensures Band(mid, dev, 2.0)[i].Some? && dev[i].value >= 0.0 ==>
              Band(mid, dev, 2.0)[i].value >= mid[i].value >= Band(mid, dev, -2.0)[i].value
  {
  }

  // ---------------------------------------------------------------- pivots

  datatype Pivots = Pivots(pivot: real, r1: real, s1: real)

  /** Classic one-bar pivot levels: P = (H+L+C)/3, R1 = 2P - L, S1 = 2P - H. */
  function ClassicPivots(high: real, low: real, close: real): (p: Pivots)
    ensures 3.0 * p.pivot == high + low + close
    ensures p.r1 - p.pivot == p.pivot - low
    ensures p.pivot - p.s1 == high - p.pivot
    ensures p.r1 - p.s1 == high - low
  {
    var pivot := (high + low + close) / 3.0;
    Pivots(pivot, 2.0 * pivot - low, 2.0 * pivot - high)
  }
}
