/** Core/Risk_manager.py: ATR-based stop-loss and take-profit around an entry price. */
module RiskManager {
  datatype Levels = Levels(stopLoss: real, takeProfit: real)

  /** `calculate_risk_levels(df, entry_price, risk_ratio=2.0)`, with the last ATR value given: the
      stop sits one ATR from the entry and the target `risk_ratio` ATRs away on the other side. */
  function CalculateRiskLevels(entry: real, atr: real, riskRatio: real := 2.0): (l: Levels)
    ensures entry - l.stopLoss == atr
    ensures l.takeProfit - entry == riskRatio * (entry - l.stopLoss)
    ensures atr > 0.0 && riskRatio > 0.0 ==> l.stopLoss < entry < l.takeProfit
    ensures atr == 0.0 ==> l.stopLoss == entry == l.takeProfit
  {
    Levels(entry - atr, entry + atr * riskRatio)
  }
}
