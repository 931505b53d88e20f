/** signal_engine.py: a read-only decision on the last row of an indicator frame. Each value is the
    row's float, possibly NaN, and every comparison with NaN is false. */
module SignalEngine {
  import opened Wrappers
  import opened Frames
  import opened Actions
  import opened Series
  import Indicators

  /** The columns the engine reads. */
  const Inputs: set<string> :=
    {"Close", "EMA20", "EMA50", "EMA200", "MACD", "MACD_Signal", "RSI", "ATR", "BB_Upper", "BB_Lower"}

  /** The last row's values. */
  datatype Snapshot = Snapshot(price: Option<real>, ema20: Option<real>, ema50: Option<real>,
                               ema200: Option<real>, macd: Option<real>, macdSignal: Option<real>,
                               rsi: Option<real>, atr: Option<real>, bbUpper: Option<real>,
                               bbLower: Option<real>)

  /** Reads the last row of a non-empty frame holding every input column. */
  function LastRow(t: Table): (s: Snapshot)
    requires t.Valid() && t.height > 0 && Inputs <= t.columns.Keys
    ensures var c, last := t.columns, t.height - 1;
      && s.price == c["Close"][last] && s.ema20 == c["EMA20"][last] && s.ema50 == c["EMA50"][last]
      && s.ema200 == c["EMA200"][last] && s.macd == c["MACD"][last] && s.macdSignal == c["MACD_Signal"][last]
      && s.rsi == c["RSI"][last] && s.atr == c["ATR"][last]
      && s.bbUpper == c["BB_Upper"][last] && s.bbLower == c["BB_Lower"][last]
  {
    var last := t.height - 1;
    Snapshot(t.columns["Close"][last], t.columns["EMA20"][last], t.columns["EMA50"][last],
             t.columns["EMA200"][last], t.columns["MACD"][last], t.columns["MACD_Signal"][last],
             t.columns["RSI"][last], t.columns["ATR"][last], t.columns["BB_Upper"][last],
             t.columns["BB_Lower"][last])
  }

  datatype Trend = Uptrend | Downtrend
  datatype RsiZone = Overbought | Oversold | Neutral
  datatype BandZone = NearUpper | NearLower | InRange

  /** The dictionary the engine returns, its texts as tags: the signal, the confidence score out of
      5, the trend, whether the EMA and MACD readings are bullish, the RSI value and zone, the band
      reading, and the suggested stop-loss and take-profit (NaN when the price or ATR is). */
  datatype Report = Report(signal: Action, confidence: nat, trend: Trend, emaBullish: bool,
                           macdBullish: bool, rsi: Option<real>, rsiZone: RsiZone, band: BandZone,
                           stopLoss: Option<real>, takeProfit: Option<real>)

  /** The trend check: up only when price is above the 200 EMA; a tie or a NaN is a downtrend. */
  function TrendOf(s: Snapshot): (tr: Trend)
    ensures tr == Uptrend <==> Gt(s.price, s.ema200)
  {
    if Gt(s.price, s.ema200) then Uptrend else Downtrend
  }

  /** The score: the trend and EMA checks each add one point whichever way they go; MACD adds one
      only above its signal line. */
  function Confidence(s: Snapshot): (c: nat)
    ensures 2 <= c <= 3
    ensures c == 3 <==> Gt(s.macd, s.macdSignal)
  {
    var trendPoint := 1;
    var emaPoint := 1;
    var macdPoint := if Gt(s.macd, s.macdSignal) then 1 else 0;
    trendPoint + emaPoint + macdPoint
  }

  function ZoneOfRsi(rsi: Option<real>): (z: RsiZone)
    ensures z == Overbought <==> Gt(rsi, Some(70.0))
    ensures z == Oversold <==> Lt(rsi, Some(30.0))
    ensures z == Neutral <==> rsi.None? || 30.0 <= rsi.value <= 70.0
  {
    if Gt(rsi, Some(70.0)) then Overbought else if Lt(rsi, Some(30.0)) then Oversold else Neutral
  }

  /** The band reading tests the upper band first, so a price at or above the upper band is "near
      upper" even if it is also at or below the lower one. */
  function ZoneOfBands(s: Snapshot): (z: BandZone)
    ensures z == NearUpper <==> Ge(s.price, s.bbUpper)
    ensures z == NearLower <==> !Ge(s.price, s.bbUpper) && Le(s.price, s.bbLower)
  {
    if Ge(s.price, s.bbUpper) then NearUpper else if Le(s.price, s.bbLower) then NearLower else InRange
  }

  /** The BUY / SELL / WAIT rule: BUY on the four bullish readings, SELL on the four bearish ones
      with price at or below the 200 EMA, WAIT otherwise. */
  function Decide(s: Snapshot): (a: Action)
    ensures a == Buy <==>
              Gt(s.price, s.ema200) && Gt(s.ema20, s.ema50) && Gt(s.macd, s.macdSignal) && Gt(s.rsi, Some(50.0))
    ensures a == Sell <==>
              !Gt(s.price, s.ema200) && Lt(s.ema20, s.ema50) && Lt(s.macd, s.macdSignal) && Lt(s.rsi, Some(50.0))
    ensures a == Buy || a == Sell || a == Hold
  {
    if TrendOf(s) == Uptrend && Gt(s.ema20, s.ema50) && Gt(s.macd, s.macdSignal) && Gt(s.rsi, Some(50.0)) then Buy
    else if TrendOf(s) == Downtrend && Lt(s.ema20, s.ema50) && Lt(s.macd, s.macdSignal) && Lt(s.rsi, Some(50.0)) then Sell
    else Hold
  }

  /** `price + k * atr`, NaN if either is NaN. */
  function Offset(price: Option<real>, k: real, atr: Option<real>): (r: Option<real>)
    ensures r.Some? <==> price.Some? && atr.Some?
  {
    if price.Some? && atr.Some? then Some(price.value + k * atr.value) else None
  }

  /** `generate_signal(df)` on a snapshot of the last row: the report carries the rule's signal, the
      score and the readings of that row, and its levels are defined exactly when price and ATR are. */
  function Evaluate(s: Snapshot): (r: Report)
    ensures r.signal == Decide(s) && r.confidence == Confidence(s) && r.trend == TrendOf(s)
    ensures (r.emaBullish <==> Gt(s.ema20, s.ema50)) && (r.macdBullish <==> Gt(s.macd, s.macdSignal))
    ensures r.rsi == s.rsi && r.rsiZone == ZoneOfRsi(s.rsi) && r.band == ZoneOfBands(s)
    ensures (r.stopLoss.Some? <==> s.price.Some? && s.atr.Some?) && (r.takeProfit.Some? <==> r.stopLoss.Some?)
  {
    var signal := Decide(s);
    Report(signal, Confidence(s), TrendOf(s), Gt(s.ema20, s.ema50), Gt(s.macd, s.macdSignal),
           s.rsi, ZoneOfRsi(s.rsi), ZoneOfBands(s),
           if signal == Buy then Offset(s.price, -1.5, s.atr) else Offset(s.price, 1.5, s.atr),
           if signal == Buy then Offset(s.price, 3.0, s.atr) else Offset(s.price, -3.0, s.atr))
  }

  /** `generate_signal(df)`: the decision on the frame's last row, scored 2 or 3. */
  function GenerateSignal(t: Table): (r: Report)
    requires t.Valid() && t.height > 0 && Inputs <= t.columns.Keys
    ensures var c, last := t.columns, t.height - 1;
      && (r.signal == Buy <==>
            && Gt(c["Close"][last], c["EMA200"][last]) && Gt(c["EMA20"][last], c["EMA50"][last])
            && Gt(c["MACD"][last], c["MACD_Signal"][last]) && Gt(c["RSI"][last], Some(50.0)))
      && (r.signal == Sell <==>
            && !Gt(c["Close"][last], c["EMA200"][last]) && Lt(c["EMA20"][last], c["EMA50"][last])
            && Lt(c["MACD"][last], c["MACD_Signal"][last]) && Lt(c["RSI"][last], Some(50.0)))
      && 2 <= r.confidence <= 3
  {
    Evaluate(LastRow(t))
  }

  /** BUY exactly on an uptrend with EMA20 over EMA50, MACD over its signal line and RSI over 50; SELL
      exactly on the mirror image with price at or below the 200 EMA; the two never coincide, and
      everything else, NaN included, is WAIT. */
  lemma DecisionRule(s: Snapshot)
    ensures Evaluate(s).signal == Buy <==>
              Gt(s.price, s.ema200) && Gt(s.ema20, s.ema50) && Gt(s.macd, s.macdSignal) && Gt(s.rsi, Some(50.0))
    ensures Evaluate(s).signal == Sell <==>
              !Gt(s.price, s.ema200) && Lt(s.ema20, s.ema50) && Lt(s.macd, s.macdSignal) && Lt(s.rsi, Some(50.0))
    ensures Evaluate(s).signal == Buy ==> Evaluate(s).confidence == 3 && Evaluate(s).trend == Uptrend
    ensures Evaluate(s).signal == Sell ==> Evaluate(s).confidence == 2 && Evaluate(s).trend == Downtrend
  {
  }

  /** The levels: a BUY puts the stop 1.5 ATR below and the target 3 ATR above, so the target is twice
      as far as the stop, and with positive ATR SL < price < TP; every other signal, WAIT included,
      gets the mirrored levels. */
  lemma RiskLevels(s: Snapshot)
    requires s.price.Some? && s.atr.Some?
    ensures var r := Evaluate(s);
      var p, atr := s.price.value, s.atr.value;
      && r.stopLoss.Some? && r.takeProfit.Some?
      && (r.signal == Buy ==>
            && r.stopLoss.value == p - 1.5 * atr && r.takeProfit.value == p + 3.0 * atr
            && r.takeProfit.value - p == 2.0 * (p - r.stopLoss.value)
            && (atr > 0.0 ==> r.stopLoss.value < p < r.takeProfit.value))
      && (r.signal != Buy ==>
            && r.stopLoss.value == p + 1.5 * atr && r.takeProfit.value == p - 3.0 * atr
            && p - r.takeProfit.value == 2.0 * (r.stopLoss.value - p)
            && (atr > 0.0 ==> r.takeProfit.value < p < r.stopLoss.value))
  {
  }

  /** Run on what indicators.py writes into a frame whose Close never moves, the engine waits: MACD
      equals its signal line on every row, so neither BUY nor SELL can fire, and the score is 2. */
  lemma FlatMarketWaits(t: Table, std20: seq<real>, c: real)
    requires t.Valid() && t.height > 0 && Indicators.PricesDefined(t) && |std20| == t.height
    requires forall j :: 0 <= j < t.height ==> t.columns["Close"][j] == Some(c)
    ensures var u := Table(Indicators.WithIndicators(t.columns, Indicators.Of(t, std20)), t.height);
      && u.Valid() && Inputs <= u.columns.Keys
      && GenerateSignal(u).signal == Hold
      && GenerateSignal(u).confidence == 2
  {
    var ind := Indicators.Of(t, std20);
    Indicators.FlatClose(Values(t.columns["High"]), Values(t.columns["Low"]), Values(t.columns["Close"]), std20, c);
    Indicators.AugmentedShape(t, std20);
    var u := Table(Indicators.WithIndicators(t.columns, ind), t.height);
    assert ind.macd[t.height - 1] == Some(0.0) && ind.macdSignal[t.height - 1] == Some(0.0);
    var s := LastRow(u);
    assert s.macd == Some(0.0) && s.macdSignal == Some(0.0);
    DecisionRule(s);
  }
}
