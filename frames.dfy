/** A model of the small part of a pandas DataFrame the dashboards rely on: named columns of
    equal length whose cells may be NaN, NaN-aware comparisons, `dropna`, and the caller's frame
    as a mutable object to which `df[name] = column` adds a column in place. */
module Frames {
  import opened Wrappers

  /** One column; `None` is NaN. */
  type Column = seq<Option<real>>

  /** A column with no NaN in it. */
  predicate Defined(c: Column)
  {
    forall i :: 0 <= i < |c| ==> c[i].Some?
  }

  /** A fully defined series as a column. */
  function Lift(v: seq<real>): (c: Column)
    ensures |c| == |v| && Defined(c)
    ensures forall i :: 0 <= i < |v| ==> c[i] == Some(v[i])
  {
    seq(|v|, i requires 0 <= i < |v| => Some(v[i]))
  }

  /** The numbers of a fully defined column. */
  function Values(c: Column): (v: seq<real>)
    requires Defined(c)
    ensures |v| == |c|
    ensures forall i :: 0 <= i < |c| ==> c[i] == Some(v[i])
  {
    seq(|c|, i requires 0 <= i < |c| => c[i].value)
  }

  /** Comparisons as pandas and NumPy evaluate them: any comparison with NaN is false. */
  predicate Gt(a: Option<real>, b: Option<real>) { a.Some? && b.Some? && a.value > b.value }
  predicate Lt(a: Option<real>, b: Option<real>) { a.Some? && b.Some? && a.value < b.value }
  predicate Ge(a: Option<real>, b: Option<real>) { a.Some? && b.Some? && a.value >= b.value }
  predicate Le(a: Option<real>, b: Option<real>) { a.Some? && b.Some? && a.value <= b.value }

  /** A frame's contents as a value: what `df.copy()` produces. */
  datatype Table = Table(columns: map<string, Column>, height: nat)
  {
    /** Every column has one cell per row. */
    predicate Valid()
    {
      forall name :: name in columns ==> |columns[name]| == height
    }

    /** pandas' `df.empty`: no rows, or no columns. */
    predicate Empty()
    {
      height == 0 || |columns| == 0
    }
  }

  /** The first of `names` that is not a column of `t`, in the order of `names`. */
  function FirstMissing(names: seq<string>, t: Table): (r: Option<string>)
    ensures r.None? <==> forall k :: 0 <= k < |names| ==> names[k] in t.columns
    ensures r.Some? ==> exists k :: 0 <= k < |names| && names[k] == r.value && r.value !in t.columns
                          && forall j :: 0 <= j < k ==> names[j] in t.columns
  {
    if |names| == 0 then None
    else if names[0] !in t.columns then Some(names[0])
    else
      var r := FirstMissing(names[1..], t);
      assert forall k :: 1 <= k < |names| ==> names[k] == names[1..][k - 1];
      r
  }

  /** Row `i` has a value in each of `names` that `t` holds. */
  predicate RowDefined(t: Table, names: set<string>, i: nat)
    requires t.Valid() && i < t.height
  {
    forall name :: name in names && name in t.columns ==> t.columns[name][i].Some?
  }

  /** The positions holding true, in increasing order: the rows a boolean mask selects. */
  function Where(keep: seq<bool>): (rows: seq<nat>)
    ensures forall k :: 0 <= k < |rows| ==> rows[k] < |keep| && keep[rows[k]]
    ensures forall k, l :: 0 <= k < l < |rows| ==> rows[k] < rows[l]
    ensures forall i :: 0 <= i < |keep| && keep[i] ==> i in rows
  {
    if |keep| == 0 then []
    else Where(keep[..|keep| - 1]) + (if keep[|keep| - 1] then [|keep| - 1] else [])
  }

  /** A mask that holds everywhere selects every position. */
  lemma {:induction false} WhereOfAllTrue(keep: seq<bool>)
    requires forall i :: 0 <= i < |keep| ==> keep[i]
    ensures Where(keep) == seq(|keep|, i requires 0 <= i < |keep| => i)
  {
    var n := |keep|;
    if n > 0 {
      var w := Where(keep);
      assert |w| == n && forall i :: 0 <= i < n ==> w[i] == i by {
        WhereOfAllTrue(keep[..n - 1]);
        assert w == Where(keep[..n - 1]) + [n - 1];
      }
    }
  }

  /** The rows below `n` that `dropna(subset=names)` keeps, in increasing order. */
  function DefinedRows(t: Table, names: set<string>, n: nat): (rows: seq<nat>)
    requires t.Valid() && n <= t.height
    ensures forall k :: 0 <= k < |rows| ==> rows[k] < n && RowDefined(t, names, rows[k])
    ensures forall k, l :: 0 <= k < l < |rows| ==> rows[k] < rows[l]
    ensures forall i :: 0 <= i < n && RowDefined(t, names, i) ==> i in rows
  {
    Where(seq(n, i requires 0 <= i < n => RowDefined(t, names, i)))
  }

  /** The cells of `c` at the given rows. */
  function Pick<T>(c: seq<T>, rows: seq<nat>): (r: seq<T>)
    requires forall k :: 0 <= k < |rows| ==> rows[k] < |c|
    ensures |r| == |rows|
    ensures forall k :: 0 <= k < |rows| ==> r[k] == c[rows[k]]
  {
    seq(|rows|, k requires 0 <= k < |rows| => c[rows[k]])
  }

  /** The table made of the given rows of `t`, in that order. */
  function SelectRows(t: Table, rows: seq<nat>): (s: Table)
    requires t.Valid()
    requires forall k :: 0 <= k < |rows| ==> rows[k] < t.height
    ensures s.Valid() && s.height == |rows| && s.columns.Keys == t.columns.Keys
    ensures forall name, k :: name in t.columns && 0 <= k < |rows| ==>
              s.columns[name][k] == t.columns[name][rows[k]]
  {
    Table(map name | name in t.columns :: Pick(t.columns[name], rows), |rows|)
  }

  /** `df.dropna(subset=names)`: keeps, in order, exactly the rows with no NaN among `names`. */
  function DropNa(t: Table, names: set<string>): (s: Table)
    requires t.Valid()
    ensures s.Valid() && s.columns.Keys == t.columns.Keys
    ensures forall k :: 0 <= k < s.height ==> RowDefined(s, names, k)
  {
    var rows := DefinedRows(t, names, t.height);
    var s := SelectRows(t, rows);
    assert forall k :: 0 <= k < s.height ==> RowDefined(s, names, k) by {
      forall k | 0 <= k < s.height ensures RowDefined(s, names, k) {
        assert RowDefined(t, names, rows[k]);
      }
    }
    s
  }

  /** A DataFrame held by reference: the object a caller passes in and sees changed. */
  class Frame {
    var table: Table

    ghost predicate Valid()
      reads this
    {
      table.Valid()
    }

    constructor (t: Table)
      requires t.Valid()
      ensures Valid() && table == t
    {
      table := t;
    }

    /** `df[name] = c`: adds the column, or replaces the one with that name; rows stay. */
    method Assign(name: string, c: Column)
      requires Valid() && |c| == table.height
      modifies this
      ensures Valid()
      ensures table == Table(old(table.columns)[name := c], old(table.height))
    {
      table := Table(table.columns[name := c], table.height);
    }
  }
}
