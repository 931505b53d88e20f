/** Core/Signals.py: an RSI threshold signal written next to the RSI column it reads. */
module CoreSignals {
  import opened Wrappers
  import opened Frames
  import opened Actions

  /** BUY under 30, SELL over 70, HOLD otherwise: at exactly 30 or 70, and when RSI is NaN. */
  function RsiSignal(rsi: Option<real>): (a: Action)
    ensures a == Buy <==> Lt(rsi, Some(30.0))
    ensures a == Sell <==> Gt(rsi, Some(70.0))
    ensures a == Hold <==> rsi.None? || 30.0 <= rsi.value <= 70.0
  {
    if Lt(rsi, Some(30.0)) then Buy else if Gt(rsi, Some(70.0)) then Sell else Hold
  }

  /** `generate_signal(df)`: writes the RSI of the `ta` library (given as `rsi`, computed from the
      frame's lower-case 'close' column) into the caller's frame as column 'rsi', and decides on that
      column's last value only. */
  method GenerateSignal(df: Frame, rsi: Column) returns (a: Action)
    requires df.Valid() && "close" in df.table.columns && |rsi| == df.table.height && df.table.height > 0
    modifies df
    ensures df.table == Table(old(df.table.columns)["rsi" := rsi], old(df.table.height))
    ensures a == RsiSignal(df.table.columns["rsi"][df.table.height - 1])
  {
    df.Assign("rsi", rsi);
    var latest := df.table.columns["rsi"][df.table.height - 1];
    if Lt(latest, Some(30.0)) {
      return Buy;
    } else if Gt(latest, Some(70.0)) {
      return Sell;
    }
    return Hold;
  }
}
