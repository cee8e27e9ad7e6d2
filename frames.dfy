/** A pandas DataFrame as the pipeline uses it: a set of column names and a
    sequence of rows, changed in place by column assignment, masked assignment
    and in-place sorting. */
module Frames {
  import opened Values
  import Sorting

  /** `[f(r) for r in rows]`, the result of a vectorised column expression. */
  function MapRows(rows: seq<Row>, f: Row -> Row): (r: seq<Row>)
    ensures |r| == |rows| && forall i :: 0 <= i < |rows| ==> r[i] == f(rows[i])
  {
    seq(|rows|, i requires 0 <= i < |rows| => f(rows[i]))
  }

  /** The rows after `df.loc[mask, name] = cell`: every row gains the column,
      the rows under the mask hold `cell` there, the others keep their own cell
      or NaN when the column is new, and no other cell changes. */
  function Masked(rows: seq<Row>, mask: seq<bool>, name: string, cell: Cell): (r: seq<Row>)
    requires |mask| == |rows|
    ensures |r| == |rows|
    ensures forall i :: 0 <= i < |rows| ==> r[i].Keys == rows[i].Keys + {name}
    ensures forall i :: 0 <= i < |rows| ==> r[i][name] == if mask[i] then cell else At(rows[i], name)
    ensures forall i, k :: 0 <= i < |rows| && k in rows[i] && k != name ==> r[i][k] == rows[i][k]
  {
    seq(|rows|, i requires 0 <= i < |rows| =>
      if mask[i] then rows[i][name := cell] else if name in rows[i] then rows[i] else rows[i][name := Null])
  }

  /** No two of `names` are given the same new name by `f`. */
  predicate Injective(names: set<string>, f: string -> string) {
    forall a, b :: a in names && b in names && f(a) == f(b) ==> a == b
  }

  /** A row whose column `k` is called `f(k)` instead. */
  function Renamed(r: Row, f: string -> string): (p: Row)
    requires Injective(r.Keys, f)
    ensures p.Keys == set k | k in r :: f(k)
    ensures forall k :: k in r ==> p[f(k)] == r[k]
  {
    map k | k in r :: f(k) := r[k]
  }

  function RenamedRows(rows: seq<Row>, f: string -> string): (r: seq<Row>)
    requires forall i :: 0 <= i < |rows| ==> Injective(rows[i].Keys, f)
    ensures |r| == |rows| && forall i :: 0 <= i < |rows| ==> r[i] == Renamed(rows[i], f)
  {
    seq(|rows|, i requires 0 <= i < |rows| => Renamed(rows[i], f))
  }

  class Frame {
    var columns: set<string>
    var rows: seq<Row>

    /** Every row has exactly the frame's columns. */
    ghost predicate Valid()
      reads this
    {
      forall r :: r in rows ==> r.Keys == columns
    }

    constructor (columns: set<string>, rows: seq<Row>)
      requires forall r :: r in rows ==> r.Keys == columns
      ensures Valid() && this.columns == columns && this.rows == rows
    {
      this.columns := columns;
      this.rows := rows;
    }

    /** `df.copy()`: a new frame with the same columns and rows. */
    method Copy() returns (f: Frame)
      requires Valid()
      ensures fresh(f) && f.Valid() && f.columns == columns && f.rows == rows
    {
      f := new Frame(columns, rows);
    }

    /** `df[name] = <expression over each row>`: creates or overwrites a column. */
    method SetColumn(name: string, value: Row -> Cell)
      requires Valid()
      modifies this
      ensures Valid() && columns == old(columns) + {name}
      ensures rows == MapRows(old(rows), r => r[name := value(r)])
    {
      rows := MapRows(rows, r => r[name := value(r)]);
      columns := columns + {name};
    }

    /** `df.loc[mask, name] = cell` with a boolean series `mask` aligned with the
        rows: the rows it selects get `cell` in column `name`, the others keep
        theirs (NaN if the column is new). */
    method AssignWhere(mask: seq<bool>, name: string, cell: Cell)
      requires Valid() && |mask| == |rows|
      modifies this
      ensures Valid() && columns == old(columns) + {name}
      ensures rows == Masked(old(rows), mask, name, cell)
    {
      rows := Masked(rows, mask, name, cell);
      columns := columns + {name};
    }

    /** `df.columns = [f(c) for c in df.columns]` or `df.rename(columns=..., inplace=True)`,
        when no two columns receive the same name. */
    method Rename(f: string -> string)
      requires Valid() && Injective(columns, f)
      modifies this
      ensures Valid() && columns == set c | c in old(columns) :: f(c)
      ensures rows == RenamedRows(old(rows), f)
    {
      rows := RenamedRows(rows, f);
      columns := set c | c in columns :: f(c);
    }

    /** `df.sort_values(col, inplace=True)` on a datetime column. */
    method SortByDate(col: string)
      requires Valid()
      modifies this
      ensures Valid() && columns == old(columns)
      ensures rows == Sorting.Sort(old(rows), col)
    {
      Sorting.SortMembers(rows, col);
      rows := Sorting.Sort(rows, col);
    }
  }
}
