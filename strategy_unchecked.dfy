/** Strategy.py: the same indicators and backtest as strategy.py, but a labeller that neither checks
    its columns first nor drops incomplete rows, and a backtest that also counts losing trades. */
module StrategyUnchecked {
  import opened Wrappers
  import opened Frames
  import Strategy

  /** The columns in the order the two label expressions first read them; the first absent one is
      the KeyError pandas raises. */
  const AccessOrder: seq<string> := ["MACD", "Signal_Line", "RSI", "Close", "Lower_BB", "Upper_BB"]

  /** `generate_signals(df)` on a copy: the first absent column as a KeyError, otherwise every row,
      NaN included, labelled. */
  function GenerateSignals(t: Table): (r: Result<Strategy.Labelled, Strategy.KeyError>)
    requires t.Valid()
    ensures r.Success? <==> forall c :: c in AccessOrder ==> c in t.columns
    ensures r.Failure? ==> |r.error.missing| == 1 && r.error.missing[0] in AccessOrder
                           && r.error.missing[0] !in t.columns
    ensures r.Failure? ==> FirstMissing(AccessOrder, t) == Some(r.error.missing[0])
    ensures r.Success? ==> r.value.table == t
  {
    match FirstMissing(AccessOrder, t)
    case Some(c) => Failure(Strategy.KeyError([c]))
    case None =>
      assert Strategy.HasLabelInputs(t) by {
        assert forall c :: c in Strategy.LabelInputs ==> c in AccessOrder;
      }
      Success(Strategy.Label(t))
  }

  /** Without the row drop a NaN in a compared column is simply no signal: a row whose MACD, signal
      line, RSI or Close is NaN (or whose previous MACD or signal line is NaN) is labelled 0, a NaN
      lower band rules out a buy and a NaN upper band rules out a sell. */
  lemma NaNMeansNoSignal(t: Table, i: nat)
    requires t.Valid() && GenerateSignals(t).Success? && i < t.height
    ensures var l := GenerateSignals(t).value;
      var c := t.columns;
      && ((c["MACD"][i].None? || c["Signal_Line"][i].None? || c["RSI"][i].None? || c["Close"][i].None?)
            ==> l.signal[i] == 0)
      && (i > 0 && (c["MACD"][i - 1].None? || c["Signal_Line"][i - 1].None?) ==> l.signal[i] == 0)
      && (c["Lower_BB"][i].None? ==> l.signal[i] != 1)
      && (c["Upper_BB"][i].None? ==> l.signal[i] != -1)
  {
  }

  /** A buy label is exactly what the documentation promises: MACD crossed above its signal line
      between the previous row and this one, RSI is under 30 and Close is at or under the lower
      band, all on numbers; and symmetrically for a sell. */
  lemma SignalsAreDocumentedCrossings(t: Table, i: nat)
    requires t.Valid() && GenerateSignals(t).Success? && i < t.height
    ensures var l := GenerateSignals(t).value;
      var c := t.columns;
      && (l.signal[i] == 1 <==>
            && i > 0
            && c["MACD"][i].Some? && c["Signal_Line"][i].Some?
            && c["MACD"][i - 1].Some? && c["Signal_Line"][i - 1].Some?
            && c["RSI"][i].Some? && c["Close"][i].Some? && c["Lower_BB"][i].Some?
            && c["MACD"][i].value > c["Signal_Line"][i].value
            && c["MACD"][i - 1].value <= c["Signal_Line"][i - 1].value
            && c["RSI"][i].value < 30.0
            && c["Close"][i].value <= c["Lower_BB"][i].value)
      && (l.signal[i] == -1 <==>
            && i > 0
            && c["MACD"][i].Some? && c["Signal_Line"][i].Some?
            && c["MACD"][i - 1].Some? && c["Signal_Line"][i - 1].Some?
            && c["RSI"][i].Some? && c["Close"][i].Some? && c["Upper_BB"][i].Some?
            && c["MACD"][i].value < c["Signal_Line"][i].value
            && c["MACD"][i - 1].value >= c["Signal_Line"][i - 1].value
            && c["RSI"][i].value > 70.0
            && c["Close"][i].value >= c["Upper_BB"][i].value)
  {
  }

  /** On a frame with no NaN in the label inputs both copies of `generate_signals` agree. */
  lemma AgreesWithCheckedOnCompleteFrames(t: Table)
    requires t.Valid()
    requires Strategy.LabelInputs <= t.columns.Keys
    requires forall i :: 0 <= i < t.height ==> RowDefined(t, Strategy.LabelInputs, i)
    ensures Strategy.GenerateSignals(t) == GenerateSignals(t)
  {
    var rows := DefinedRows(t, Strategy.LabelInputs, t.height);
    AllRowsKept(t, Strategy.LabelInputs, t.height);
    var s := SelectRows(t, rows);
    assert s.columns == t.columns by {
      forall name | name in t.columns ensures s.columns[name] == t.columns[name] {
        assert |s.columns[name]| == |t.columns[name]|;
      }
    }
    assert Strategy.Missing(Strategy.SignalInputs, t) == [];
  }

  /** When every row is defined, the kept rows are 0, 1, ..., n-1. */
  lemma AllRowsKept(t: Table, names: set<string>, n: nat)
    requires t.Valid() && n <= t.height
    requires forall i :: 0 <= i < n ==> RowDefined(t, names, i)
    ensures DefinedRows(t, names, n) == seq(n, i requires 0 <= i < n => i)
  {
    WhereOfAllTrue(seq(n, i requires 0 <= i < n => RowDefined(t, names, i)));
  }

  /** The number of returns at or below zero (`loss_trades`; computed and not reported). */
  function LossTrades(rs: seq<real>): (n: nat)
    ensures n <= |rs|
  {
    if |rs| == 0 then 0 else LossTrades(rs[..|rs| - 1]) + (if rs[|rs| - 1] <= 0.0 then 1 else 0)
  }

  /** Every closed trade is either a win or a loss, never both. */
  lemma {:induction false} WinsAndLossesPartition(rs: seq<real>)
    ensures Strategy.Wins(rs) + LossTrades(rs) == |rs|
  {
    if |rs| > 0 {
      WinsAndLossesPartition(rs[..|rs| - 1]);
    }
  }
}
