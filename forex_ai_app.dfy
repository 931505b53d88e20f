/** forex_ai_app.py: header flattening, the Close-column search, numeric coercion and row dropping,
    MA20 and RSI, and the per-row BUY / SELL / HOLD classifier. The download is a frame after
    `reset_index()`: its first column is the former time index. */
module ForexAiApp {
  import opened Wrappers
  import opened Actions
  import opened Frames
  import opened Series

  // ---------------------------------------------------------------- header

  /** A two-level header flattened to the first level's name, or the second level's name where the
      first is empty. */
  function FlattenHeader(levels: seq<(string, string)>): (names: seq<string>)
    ensures |names| == |levels|
    ensures forall i :: 0 <= i < |levels| ==>
              (levels[i].0 != "" ==> names[i] == levels[i].0) && (levels[i].0 == "" ==> names[i] == levels[i].1)
  {
    seq(|levels|, i requires 0 <= i < |levels| => if levels[i].0 != "" then levels[i].0 else levels[i].1)
  }

  // ---------------------------------------------------------------- close column

  /** `str.lower` on ASCII letters. */
  function LowerChar(c: char): char
  {
    if 'A' <= c <= 'Z' then (c as int + 32) as char else c
  }

  function Lower(s: string): (l: string)
    ensures |l| == |s| && forall i :: 0 <= i < |s| ==> l[i] == LowerChar(s[i])
  {
    seq(|s|, i requires 0 <= i < |s| => LowerChar(s[i]))
  }

  predicate IsCloseName(name: string)
  {
    Lower(name) == "close"
  }

  /** An illustration of the name test, which is case-insensitive and whole-name: Close, CLOSE and
      close all name the Close column, while Adj Close and Open do not. */
  lemma CloseNames()
    ensures IsCloseName("Close") && IsCloseName("CLOSE") && IsCloseName("close")
    ensures !IsCloseName("Adj Close") && !IsCloseName("Open")
  {
    assert Lower("Close") == "close";
    assert Lower("CLOSE") == "close";
    assert Lower("close") == "close";
    assert |Lower("Adj Close")| == 9;
    assert Lower("Open")[0] == 'o';
  }

  /** The first position from `i` on whose name is Close in any case. */
  function FindCloseName(names: seq<string>, i: nat): (k: Option<nat>)
    requires i <= |names|
    ensures k.Some? ==> i <= k.value < |names| && IsCloseName(names[k.value])
    decreases |names| - i
  {
    if i == |names| then None
    else if IsCloseName(names[i]) then Some(i)
    else FindCloseName(names, i + 1)
  }

  /** The first position from `i` on holding a numeric column. */
  function FindNumeric(numeric: seq<bool>, i: nat): (k: Option<nat>)
    ensures k.Some? ==> i <= k.value < |numeric| && numeric[k.value]
    decreases |numeric| - i
  {
    if i >= |numeric| then None
    else if numeric[i] then Some(i)
    else FindNumeric(numeric, i + 1)
  }

  /** The position of the Close column: the first name that is Close in any case, otherwise the first
      numeric column after the first one, otherwise none. */
  function CloseColumn(names: seq<string>, numeric: seq<bool>): (k: Option<nat>)
    requires |numeric| == |names|
    ensures k.Some? ==> k.value < |names|
  {
    match FindCloseName(names, 0)
    case Some(k) => Some(k)
    case None => FindNumeric(numeric, 1)
  }

  lemma {:induction false} FindCloseNameIsFirst(names: seq<string>, i: nat)
    requires i <= |names|
    ensures FindCloseName(names, i).None? <==> forall j :: i <= j < |names| ==> !IsCloseName(names[j])
    ensures FindCloseName(names, i).Some? ==>
              forall j :: i <= j < FindCloseName(names, i).value ==> !IsCloseName(names[j])
    decreases |names| - i
  {
    if i < |names| && !IsCloseName(names[i]) {
      FindCloseNameIsFirst(names, i + 1);
    }
  }

  lemma {:induction false} FindNumericIsFirst(numeric: seq<bool>, i: nat)
    ensures FindNumeric(numeric, i).None? <==> forall j :: i <= j < |numeric| ==> !numeric[j]
    ensures FindNumeric(numeric, i).Some? ==> forall j :: i <= j < FindNumeric(numeric, i).value ==> !numeric[j]
    decreases |numeric| - i
  {
    if i < |numeric| && !numeric[i] {
      FindNumericIsFirst(numeric, i + 1);
    }
  }

  /** Which column is chosen: a Close-named one whenever one exists, and then the first; otherwise the
      first numeric column at position 1 or later; none exactly when there is neither. */
  lemma CloseColumnChoice(names: seq<string>, numeric: seq<bool>)
    requires |numeric| == |names|
    ensures var k := CloseColumn(names, numeric);
      && ((exists j :: 0 <= j < |names| && IsCloseName(names[j])) ==>
            k.Some? && IsCloseName(names[k.value]) && forall j :: 0 <= j < k.value ==> !IsCloseName(names[j]))
      && ((forall j :: 0 <= j < |names| ==> !IsCloseName(names[j])) ==>
            (k.Some? ==> 1 <= k.value && numeric[k.value] && forall j :: 1 <= j < k.value ==> !numeric[j])
            && (k.None? <==> forall j :: 1 <= j < |numeric| ==> !numeric[j]))
  {
    FindCloseNameIsFirst(names, 0);
    FindNumericIsFirst(numeric, 1);
  }

  /** The search as the script runs it: a loop over the names that stops at the first Close, then,
      if none was found, a loop over the columns after the first that stops at the first numeric one. */
  method DetectCloseColumn(names: seq<string>, numeric: seq<bool>) returns (closeCol: Option<nat>)
    requires |numeric| == |names|
    ensures closeCol == CloseColumn(names, numeric)
  {
    closeCol := None;
    var i := 0;
    while i < |names|
      invariant 0 <= i <= |names|
      invariant FindCloseName(names, i) == FindCloseName(names, 0)
    {
      if IsCloseName(names[i]) {
        closeCol := Some(i);
        break;
      }
      i := i + 1;
    }
    if closeCol.None? {
      var j := 1;
      while j < |names|
        invariant 1 <= j
        invariant FindNumeric(numeric, j) == FindNumeric(numeric, 1)
      {
        if numeric[j] {
          closeCol := Some(j);
          break;
        }
        j := j + 1;
      }
    }
  }

  // ---------------------------------------------------------------- the prepared frame

  /** A downloaded cell: a number, a string, or missing (NaN). */
  datatype Cell = Num(x: real) | Text(s: string) | Missing

  /** The frame after `reset_index()`: column names, the cells of each column, and whether pandas
      types each column as numeric. */
  datatype Download = Download(names: seq<string>, columns: seq<seq<Cell>>, numeric: seq<bool>, height: nat)
  {
    predicate Valid()
    {
      && |columns| == |names| && |numeric| == |names|
      && forall c :: 0 <= c < |columns| ==> |columns[c]| == height
    }
  }

  /** `pd.to_numeric(errors='coerce')`: numbers stay, anything else becomes NaN. */
  function Coerce(c: Cell): (r: Option<real>)
    ensures r.Some? <==> c.Num?
  {
    if c.Num? then Some(c.x) else None
  }

  /** A series computed elsewhere, aligned on the rows it was computed from: NaN where it is short. */
  function Align(r: Column, n: nat): (c: Column)
    ensures |c| == n && forall i :: 0 <= i < n ==> c[i] == if i < |r| then r[i] else None
  {
    seq(n, i requires 0 <= i < n => if i < |r| then r[i] else None)
  }

  /** No cell of the row is missing outside the Close column (whose NaNs are already gone). */
  predicate OthersPresent(d: Download, k: nat, i: nat)
    requires d.Valid() && i < d.height
  {
    forall c :: 0 <= c < |d.columns| && c != k ==> d.columns[c][i] != Missing
  }

  /** `smarter_signal(row)`: BUY above MA20 with RSI under 30, SELL below MA20 with RSI over 70. */
  function SmarterSignal(close: real, ma20: real, rsi: real): (a: Action)
    ensures a == Buy <==> close > ma20 && rsi < 30.0
    ensures a == Sell <==> close < ma20 && rsi > 70.0
    ensures a == Hold <==> !(close > ma20 && rsi < 30.0) && !(close < ma20 && rsi > 70.0)
  {
    if close > ma20 && rsi < 30.0 then Buy
    else if close < ma20 && rsi > 70.0 then Sell
    else Hold
  }

  /** A kept row: its position in the download, Close, MA20, RSI and label. */
  datatype Bar = Bar(row: nat, close: real, ma20: real, rsi: real, signal: Action)

  datatype Prepared = Prepared(names: seq<string>, bars: seq<Bar>)

  /** The two places the script stops with an error. */
  datatype ScriptError = NoData | NoCloseColumn

  /** Which cells `pd.to_numeric(errors='coerce')` turns into numbers. */
  function NumericMask(cells: seq<Cell>): (m: seq<bool>)
    ensures |m| == |cells| && forall i :: 0 <= i < |cells| ==> (m[i] <==> Coerce(cells[i]).Some?)
  {
    seq(|cells|, i requires 0 <= i < |cells| => Coerce(cells[i]).Some?)
  }

  /** The numbers at the given rows of a column that holds a number on each of them. */
  function Closes(cells: seq<Cell>, rows: seq<nat>): (closes: seq<real>)
    requires forall p :: 0 <= p < |rows| ==> rows[p] < |cells| && cells[rows[p]].Num?
    ensures |closes| == |rows| && forall p :: 0 <= p < |rows| ==> cells[rows[p]] == Num(closes[p])
  {
    seq(|rows|, p requires 0 <= p < |rows| => cells[rows[p]].x)
  }

  /** Whether `dropna()` keeps the row at position p of the cleaned rows: MA20, RSI and every other
      cell are present. */
  predicate Complete(d: Download, k: nat, rows: seq<nat>, ma: Column, rsi: Column, p: nat)
    requires d.Valid() && |ma| == |rows| && |rsi| == |rows| && p < |rows| && rows[p] < d.height
  {
    ma[p].Some? && rsi[p].Some? && OthersPresent(d, k, rows[p])
  }

  /** `dropna()` and `apply(smarter_signal)` on the rows left after the Close cleaning: `rows` are
      their positions in the download, `closes`, `ma` and `rsi` their Close, MA20 and RSI. The
      complete rows are kept, in order, each with its own Close, MA20 and RSI, and labelled by the
      classifier. */
  function LabelBars(d: Download, k: nat, rows: seq<nat>, closes: seq<real>, ma: Column, rsi: Column): (bars: seq<Bar>)
    requires d.Valid() && k < |d.columns|
    requires |closes| == |rows| && |ma| == |rows| && |rsi| == |rows|
    requires forall p :: 0 <= p < |rows| ==> rows[p] < d.height && d.columns[k][rows[p]] == Num(closes[p])
    requires forall p, q :: 0 <= p < q < |rows| ==> rows[p] < rows[q]
    ensures forall j :: 0 <= j < |bars| ==>
              && bars[j].row < d.height
              && d.columns[k][bars[j].row] == Num(bars[j].close)
              && OthersPresent(d, k, bars[j].row)
              && bars[j].signal == SmarterSignal(bars[j].close, bars[j].ma20, bars[j].rsi)
    ensures forall j :: 0 <= j < |bars| ==>
              exists p :: 0 <= p < |rows| && rows[p] == bars[j].row && closes[p] == bars[j].close
                          && ma[p] == Some(bars[j].ma20) && rsi[p] == Some(bars[j].rsi)
    ensures forall p :: 0 <= p < |rows| && Complete(d, k, rows, ma, rsi, p) ==>
              exists j :: 0 <= j < |bars| && bars[j].row == rows[p]
    ensures forall j, l :: 0 <= j < l < |bars| ==> bars[j].row < bars[l].row
  {
    var bars := BarsAt(rows, closes, ma, rsi, KeepMask(d, k, rows, ma, rsi));
    KeptAreComplete(d, k, rows, closes, ma, rsi, bars);
    CompleteAreKept(d, k, rows, closes, ma, rsi, bars);
    bars
  }

  /** The complete rows as a mask over the cleaned rows. */
  function KeepMask(d: Download, k: nat, rows: seq<nat>, ma: Column, rsi: Column): (m: seq<bool>)
    requires d.Valid() && |ma| == |rows| && |rsi| == |rows|
    requires forall p :: 0 <= p < |rows| ==> rows[p] < d.height
    ensures |m| == |rows| && forall p :: 0 <= p < |rows| ==> (m[p] <==> Complete(d, k, rows, ma, rsi, p))
  {
    seq(|rows|, p requires 0 <= p < |rows| => Complete(d, k, rows, ma, rsi, p))
  }

  /** Every bar `dropna()` keeps is a complete row, with its own Close, MA20 and RSI. */
  lemma KeptAreComplete(d: Download, k: nat, rows: seq<nat>, closes: seq<real>, ma: Column, rsi: Column, bars: seq<Bar>)
    requires d.Valid() && k < |d.columns|
    requires |closes| == |rows| && |ma| == |rows| && |rsi| == |rows|
    requires forall p :: 0 <= p < |rows| ==> rows[p] < d.height && d.columns[k][rows[p]] == Num(closes[p])
    requires bars == BarsAt(rows, closes, ma, rsi, KeepMask(d, k, rows, ma, rsi))
    ensures forall j :: 0 <= j < |bars| ==>
              && bars[j].row < d.height
              && d.columns[k][bars[j].row] == Num(bars[j].close)
              && OthersPresent(d, k, bars[j].row)
              && exists p :: 0 <= p < |rows| && rows[p] == bars[j].row && closes[p] == bars[j].close
                             && ma[p] == Some(bars[j].ma20) && rsi[p] == Some(bars[j].rsi)
  {
    var keep := KeepMask(d, k, rows, ma, rsi);
    var kept := Where(keep);
    forall j | 0 <= j < |bars|
      ensures && bars[j].row < d.height
              && d.columns[k][bars[j].row] == Num(bars[j].close)
              && OthersPresent(d, k, bars[j].row)
              && exists p :: 0 <= p < |rows| && rows[p] == bars[j].row && closes[p] == bars[j].close
                             && ma[p] == Some(bars[j].ma20) && rsi[p] == Some(bars[j].rsi)
    {
      var p := kept[j];
      assert keep[p];
    }
  }

  /** Every complete row is kept. */
  lemma CompleteAreKept(d: Download, k: nat, rows: seq<nat>, closes: seq<real>, ma: Column, rsi: Column, bars: seq<Bar>)
    requires d.Valid()
    requires |closes| == |rows| && |ma| == |rows| && |rsi| == |rows|
    requires forall p :: 0 <= p < |rows| ==> rows[p] < d.height
    requires bars == BarsAt(rows, closes, ma, rsi, KeepMask(d, k, rows, ma, rsi))
    ensures forall p :: 0 <= p < |rows| && Complete(d, k, rows, ma, rsi, p) ==>
              exists j :: 0 <= j < |bars| && bars[j].row == rows[p]
  {
    var keep := KeepMask(d, k, rows, ma, rsi);
    var kept := Where(keep);
    forall p | 0 <= p < |rows| && Complete(d, k, rows, ma, rsi, p)
      ensures exists j :: 0 <= j < |bars| && bars[j].row == rows[p]
    {
      assert keep[p];
      var j :| 0 <= j < |kept| && kept[j] == p;
      assert bars[j].row == rows[p];
    }
  }

  /** The bars at the positions a mask selects among the cleaned rows, each labelled by the
      classifier. */
  function BarsAt(rows: seq<nat>, closes: seq<real>, ma: Column, rsi: Column, keep: seq<bool>): (bars: seq<Bar>)
    requires |closes| == |rows| && |ma| == |rows| && |rsi| == |rows| && |keep| == |rows|
    requires forall p :: 0 <= p < |rows| && keep[p] ==> ma[p].Some? && rsi[p].Some?
    ensures var kept := Where(keep);
            && |bars| == |kept|
            && forall j :: 0 <= j < |kept| ==>
                 var p := kept[j];
                 && bars[j].row == rows[p] && bars[j].close == closes[p]
                 && Some(bars[j].ma20) == ma[p] && Some(bars[j].rsi) == rsi[p]
                 && bars[j].signal == SmarterSignal(bars[j].close, bars[j].ma20, bars[j].rsi)
  {
    var kept := Where(keep);
    seq(|kept|, j requires 0 <= j < |kept| =>
      var p := kept[j];
      Bar(rows[p], closes[p], ma[p].value, rsi[p].value, SmarterSignal(closes[p], ma[p].value, rsi[p].value)))
  }

  /** The script from the download to the labelled rows. `rsiOf` is the RSI(14) of the `ta` library,
      taken as given. */
  function Script(d: Download, rsiOf: seq<real> -> Column): (r: Result<Prepared, ScriptError>)
    requires d.Valid()
    ensures r == Failure(NoData) <==> d.height == 0 || |d.names| == 0
    ensures r.Success? ==> CloseColumn(d.names, d.numeric).Some?
                           && r.value.names == d.names[CloseColumn(d.names, d.numeric).value := "Close"]
  {
    if d.height == 0 || |d.names| == 0 then Failure(NoData)
    else match CloseColumn(d.names, d.numeric)
      case None => Failure(NoCloseColumn)
      case Some(k) =>
        var cells := d.columns[k];
        var rows := Where(NumericMask(cells));
        var closes := Closes(cells, rows);
        var bars := LabelBars(d, k, rows, closes, RollingMean(closes, 20), Align(rsiOf(closes), |closes|));
        Success(Prepared(d.names[k := "Close"], bars))
  }

  /** The script's outcomes: it stops on an empty download and when no Close column can be found.
      Otherwise the chosen column is renamed Close, the cleaning keeps exactly the rows whose Close
      is a number, and the labelled rows are, in order, exactly the complete ones among them: each
      with its Close, its 20-row mean of the cleaned closes and its RSI, no other cell missing, and
      the classifier's label. */
  lemma ScriptOutcome(d: Download, rsiOf: seq<real> -> Column)
    requires d.Valid()
    ensures Script(d, rsiOf) == Failure(NoData) <==> d.height == 0 || |d.names| == 0
    ensures Script(d, rsiOf) == Failure(NoCloseColumn) <==>
              d.height > 0 && |d.names| > 0 && CloseColumn(d.names, d.numeric).None?
    ensures Script(d, rsiOf).Success? ==>
              var k := CloseColumn(d.names, d.numeric).value;
              var cells := d.columns[k];
              var rows := Where(NumericMask(cells));
              var closes := Closes(cells, rows);
              var ma := RollingMean(closes, 20);
              var rsi := Align(rsiOf(closes), |closes|);
              var p := Script(d, rsiOf).value;
              && p.names == d.names[k := "Close"]
              && (forall i :: 0 <= i < d.height ==> (i in rows <==> cells[i].Num?))
              && (forall j :: 0 <= j < |p.bars| ==>
                    && p.bars[j].row < d.height
                    && cells[p.bars[j].row] == Num(p.bars[j].close)
                    && OthersPresent(d, k, p.bars[j].row)
                    && p.bars[j].signal == SmarterSignal(p.bars[j].close, p.bars[j].ma20, p.bars[j].rsi))
              && (forall j :: 0 <= j < |p.bars| ==>
                    exists q :: 0 <= q < |rows| && rows[q] == p.bars[j].row && closes[q] == p.bars[j].close
                                && ma[q] == Some(p.bars[j].ma20) && rsi[q] == Some(p.bars[j].rsi))
              && (forall q :: 0 <= q < |rows| && Complete(d, k, rows, ma, rsi, q) ==>
                    exists j :: 0 <= j < |p.bars| && p.bars[j].row == rows[q])
              && (forall j, l :: 0 <= j < l < |p.bars| ==> p.bars[j].row < p.bars[l].row)
  {
  }
}
