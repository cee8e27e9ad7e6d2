/** Monthly-recurrence detection shared by both ingestion paths: rows are grouped
    by their simplified label, and a group of at least three rows whose amounts
    stay within 5 % of their mean and whose dates are 28 to 32 days apart is
    recurring. */
module Recurrence {
  import opened Values
  import opened Frames

  /** The signed-amount column both paths create. */
  const AmountCol := "montant"
  /** The default budget type. */
  const Punctual := "Ponctuel"

  /** `df.groupby(labelCol)`: the rows whose label is `key`, in frame order. */
  function Group(rows: seq<Row>, labelCol: string, key: Cell): (g: seq<Row>)
    ensures |g| <= |rows|
  {
    if rows == [] then []
    else
      var last := rows[|rows| - 1];
      Group(rows[..|rows| - 1], labelCol, key) + if At(last, labelCol) == key then [last] else []
  }

  /** The group keys in order of first appearance; NaN labels form no group. */
  function Labels(rows: seq<Row>, labelCol: string): seq<Cell> {
    if rows == [] then []
    else
      var keys := Labels(rows[..|rows| - 1], labelCol);
      var c := At(rows[|rows| - 1], labelCol);
      if c == Null || c in keys then keys else keys + [c]
  }

  function Amounts(g: seq<Row>): (xs: seq<real>)
    ensures |xs| == |g|
  {
    seq(|g|, i requires 0 <= i < |g| => NumOf(At(g[i], AmountCol)))
  }

  function Days(g: seq<Row>, dateCol: string): (ds: seq<Option<int>>)
    ensures |ds| == |g|
  {
    seq(|g|, i requires 0 <= i < |g| => DayOf(At(g[i], dateCol)))
  }

  function Sum(xs: seq<real>): real {
    if xs == [] then 0.0 else Sum(xs[..|xs| - 1]) + xs[|xs| - 1]
  }

  function Mean(xs: seq<real>): real
    requires xs != []
  {
    Sum(xs) / (|xs| as real)
  }

  function Abs(x: real): real {
    if x < 0.0 then -x else x
  }

  /** `((amounts - mean).abs() / abs(mean) <= 0.05).all()` */
  predicate WithinTolerance(xs: seq<real>, mean: real)
    requires mean != 0.0
  {
    forall i :: 0 <= i < |xs| ==> Abs(xs[i] - mean) / Abs(mean) <= 0.05
  }

  /** `dates.diff().dt.days.dropna()`: the day gaps between consecutive rows,
      leaving out every gap that involves a NaT. */
  function Gaps(ds: seq<Option<int>>): (gaps: seq<int>)
    ensures |ds| < 2 ==> gaps == []
    ensures |ds| >= 2 ==> |gaps| <= |ds| - 1
    ensures (forall i :: 0 <= i < |ds| ==> ds[i].Some?) && |ds| >= 2 ==>
      |gaps| == |ds| - 1 && forall i :: 0 <= i < |gaps| ==> gaps[i] == ds[i + 1].value - ds[i].value
  {
    if |ds| < 2 then []
    else
      var init := ds[..|ds| - 1];
      var earlier := Gaps(init);
      assert forall i :: 0 <= i < |init| ==> init[i] == ds[i];
      earlier + (if ds[|ds| - 2].Some? && ds[|ds| - 1].Some? then [ds[|ds| - 1].value - ds[|ds| - 2].value] else [])
  }

  /** `all(28 <= diff <= 32 for diff in time_diffs)` */
  predicate Monthly(gaps: seq<int>) {
    forall i :: 0 <= i < |gaps| ==> 28 <= gaps[i] <= 32
  }

  /** The four tests a group passes, in the order the source applies them. */
  predicate Qualifies(g: seq<Row>, dateCol: string) {
    && |g| >= 3
    && Mean(Amounts(g)) != 0.0
    && WithinTolerance(Amounts(g), Mean(Amounts(g)))
    && Monthly(Gaps(Days(g, dateCol)))
  }

  /** A qualifying group has at least three rows whose amounts all lie within
      5 % of their non-zero mean, and when every date is present, consecutive
      rows are 28 to 32 days apart. */
  lemma QualifyingGroup(g: seq<Row>, dateCol: string)
    requires Qualifies(g, dateCol)
    ensures |g| >= 3 && Mean(Amounts(g)) != 0.0
    ensures forall i :: 0 <= i < |g| ==> Abs(NumOf(At(g[i], AmountCol)) - Mean(Amounts(g))) <= 0.05 * Abs(Mean(Amounts(g)))
    ensures (forall i :: 0 <= i < |g| ==> DayOf(At(g[i], dateCol)).Some?) ==>
      forall i :: 0 <= i < |g| - 1 ==> 28 <= DayOf(At(g[i + 1], dateCol)).value - DayOf(At(g[i], dateCol)).value <= 32
  {
    var xs := Amounts(g);
    var m := Mean(xs);
    forall i | 0 <= i < |g| ensures Abs(NumOf(At(g[i], AmountCol)) - m) <= 0.05 * Abs(m) {
      assert xs[i] == NumOf(At(g[i], AmountCol));
      RatioBound(Abs(xs[i] - m), Abs(m));
    }
    QualifyingGroupMonthly(g, dateCol);
  }

  lemma RatioBound(a: real, b: real)
    requires b > 0.0 && a / b <= 0.05
    ensures a <= 0.05 * b
  {
    assert a == (a / b) * b;
  }

  lemma QualifyingGroupMonthly(g: seq<Row>, dateCol: string)
    requires Monthly(Gaps(Days(g, dateCol)))
    ensures (forall i :: 0 <= i < |g| ==> DayOf(At(g[i], dateCol)).Some?) ==>
      forall i :: 0 <= i < |g| - 1 ==> 28 <= DayOf(At(g[i + 1], dateCol)).value - DayOf(At(g[i], dateCol)).value <= 32
  {
    var ds := Days(g, dateCol);
    if forall i :: 0 <= i < |g| ==> DayOf(At(g[i], dateCol)).Some? {
      assert forall i :: 0 <= i < |ds| ==> ds[i].Some?;
      var gaps := Gaps(ds);
      forall i | 0 <= i < |g| - 1
        ensures 28 <= DayOf(At(g[i + 1], dateCol)).value - DayOf(At(g[i], dateCol)).value <= 32
      {
        assert gaps[i] == ds[i + 1].value - ds[i].value;
      }
    }
  }

  /** A row is recurring when its label is not NaN and its label group qualifies. */
  predicate IsRecurring(rows: seq<Row>, dateCol: string, labelCol: string, r: Row) {
    At(r, labelCol) != Null && Qualifies(Group(rows, labelCol, At(r, labelCol)), dateCol)
  }

  /** The frame after the group loop: each row's budget type says whether it is recurring. */
  function Annotated(rows: seq<Row>, dateCol: string, labelCol: string, budgetCol: string, recurring: string): seq<Row> {
    MapRows(rows, r => r[budgetCol := Text(if IsRecurring(rows, dateCol, labelCol, r) then recurring else Punctual)])
  }

  lemma {:induction false} GroupMembers(rows: seq<Row>, labelCol: string, key: Cell)
    ensures forall r :: r in Group(rows, labelCol, key) <==> r in rows && At(r, labelCol) == key
  {
    if rows != [] {
      GroupMembers(rows[..|rows| - 1], labelCol, key);
      assert rows == rows[..|rows| - 1] + [rows[|rows| - 1]];
    }
  }

  /** Every label that is not NaN is a group key. */
  lemma {:induction false} LabelsComplete(rows: seq<Row>, labelCol: string)
    ensures forall i :: 0 <= i < |rows| && At(rows[i], labelCol) != Null ==> At(rows[i], labelCol) in Labels(rows, labelCol)
  {
    if rows != [] {
      var n := |rows| - 1;
      LabelsComplete(rows[..n], labelCol);
      forall i | 0 <= i < n && At(rows[i], labelCol) != Null
        ensures At(rows[i], labelCol) in Labels(rows, labelCol)
      {
        assert rows[i] == rows[..n][i];
      }
    }
  }

  /** A row once the groups with keys `done` have been visited. */
  function MarkedRow(rows: seq<Row>, done: seq<Cell>, dateCol: string, labelCol: string, budgetCol: string,
                     recurring: string, r: Row): Row {
    if At(r, labelCol) in done && IsRecurring(rows, dateCol, labelCol, r) then r[budgetCol := Text(recurring)] else r
  }

  /** Visiting the group with key `key` marks its rows exactly when the group qualifies. */
  lemma MarkStep(rows: seq<Row>, done: seq<Cell>, key: Cell, dateCol: string, labelCol: string, budgetCol: string,
                 recurring: string, rs: seq<Row>)
    requires budgetCol != labelCol && key != Null
    requires forall r :: r in rows ==> budgetCol in r
    requires rs == MapRows(rows, r => MarkedRow(rows, done, dateCol, labelCol, budgetCol, recurring, r))
    ensures var next := MapRows(rows, r => MarkedRow(rows, done + [key], dateCol, labelCol, budgetCol, recurring, r));
      if Qualifies(Group(rows, labelCol, key), dateCol)
      then Masked(rs, seq(|rs|, i requires 0 <= i < |rs| => At(rs[i], labelCol) == key), budgetCol, Text(recurring)) == next
      else rs == next
  {
    var next := MapRows(rows, r => MarkedRow(rows, done + [key], dateCol, labelCol, budgetCol, recurring, r));
    if Qualifies(Group(rows, labelCol, key), dateCol) {
      var mask := seq(|rs|, i requires 0 <= i < |rs| => At(rs[i], labelCol) == key);
      var m := Masked(rs, mask, budgetCol, Text(recurring));
      forall i | 0 <= i < |rows| ensures m[i] == next[i] {
        assert rows[i] in rows;
        assert At(rs[i], labelCol) == At(rows[i], labelCol);
        assert budgetCol in rs[i];
        assert m[i] == if mask[i] then rs[i][budgetCol := Text(recurring)] else rs[i];
      }
    } else {
      forall i | 0 <= i < |rows| ensures rs[i] == next[i] {
        assert rows[i] in rows;
      }
    }
  }

  /** The loop over groups of `detect_recurrences`: a group that passes every
      test has all its rows' budget type set to `recurring`. The budget column
      must already hold the default everywhere. */
  method MarkRecurringGroups(df: Frame, dateCol: string, labelCol: string, budgetCol: string, recurring: string)
    requires df.Valid() && budgetCol in df.columns
    requires budgetCol != labelCol
    requires forall r :: r in df.rows ==> r[budgetCol] == Text(Punctual)
    modifies df
    ensures df.Valid() && df.columns == old(df.columns)
    ensures df.rows == Annotated(old(df.rows), dateCol, labelCol, budgetCol, recurring)
  {
    var snapshot := df.rows;
    var keys := Labels(snapshot, labelCol);
    LabelsComplete(snapshot, labelCol);
    LabelsNotNull(snapshot, labelCol);
    assert df.rows == MapRows(snapshot, r => MarkedRow(snapshot, keys[..0], dateCol, labelCol, budgetCol, recurring, r));
    for g := 0 to |keys|
      invariant df.Valid() && df.columns == old(df.columns)
      invariant df.rows == MapRows(snapshot, r => MarkedRow(snapshot, keys[..g], dateCol, labelCol, budgetCol, recurring, r))
    {
      assert keys[..g + 1] == keys[..g] + [keys[g]];
      MarkGroup(df, snapshot, keys[..g], keys[g], dateCol, labelCol, budgetCol, recurring);
    }
    forall i | 0 <= i < |snapshot|
      ensures df.rows[i] == Annotated(snapshot, dateCol, labelCol, budgetCol, recurring)[i]
    {
      assert snapshot[i] in old(df.rows);
      assert snapshot[i][budgetCol := Text(Punctual)] == snapshot[i];
    }
  }

  /** One pass of the loop over groups: the group with key `key` has its rows'
      budget type set to `recurring` when it passes the four tests. */
  method MarkGroup(df: Frame, snapshot: seq<Row>, done: seq<Cell>, key: Cell,
                   dateCol: string, labelCol: string, budgetCol: string, recurring: string)
    requires df.Valid() && budgetCol in df.columns
    requires budgetCol != labelCol && key != Null
    requires forall r :: r in snapshot ==> budgetCol in r
    requires df.rows == MapRows(snapshot, r => MarkedRow(snapshot, done, dateCol, labelCol, budgetCol, recurring, r))
    modifies df
    ensures df.Valid() && df.columns == old(df.columns)
    ensures df.rows == MapRows(snapshot, r => MarkedRow(snapshot, done + [key], dateCol, labelCol, budgetCol, recurring, r))
  {
    MarkStep(snapshot, done, key, dateCol, labelCol, budgetCol, recurring, df.rows);
    var group := Group(snapshot, labelCol, key);
    if |group| < 3 {
      return;
    }
    var mean := Mean(Amounts(group));
    if mean == 0.0 {
      return;
    }
    if !WithinTolerance(Amounts(group), mean) {
      return;
    }
    var timeDiffs := Gaps(Days(group, dateCol));
    if Monthly(timeDiffs) {
      var rs := df.rows;
      df.AssignWhere(seq(|rs|, i requires 0 <= i < |rs| => At(rs[i], labelCol) == key), budgetCol, Text(recurring));
    }
  }

  lemma {:induction false} LabelsNotNull(rows: seq<Row>, labelCol: string)
    ensures Null !in Labels(rows, labelCol)
  {
    if rows != [] {
      LabelsNotNull(rows[..|rows| - 1], labelCol);
    }
  }

  /** The 5 % test without division: with `n` amounts summing to `sum`, an
      amount is within 5 % of the mean exactly when `20 * |n * x - sum| <= |sum|`. */
  lemma ToleranceWithoutDivision(xs: seq<real>, n: real, total: real)
    requires xs != [] && n == |xs| as real && total == Sum(xs) && Mean(xs) != 0.0
    ensures WithinTolerance(xs, Mean(xs)) <==>
      forall i :: 0 <= i < |xs| ==> 20.0 * Abs(n * xs[i] - total) <= Abs(total)
  {
    MeanTolerance(xs, Mean(xs), n, total);
  }

  lemma MeanTolerance(xs: seq<real>, m: real, n: real, total: real)
    requires n > 0.0 && m != 0.0 && m == total / n
    ensures WithinTolerance(xs, m) <==>
      forall i :: 0 <= i < |xs| ==> 20.0 * Abs(n * xs[i] - total) <= Abs(total)
  {
    forall i | 0 <= i < |xs|
      ensures Abs(xs[i] - m) / Abs(m) <= 0.05 <==> 20.0 * Abs(n * xs[i] - total) <= Abs(total)
    {
      ToleranceAt(xs[i], m, n, total);
    }
  }

  lemma ToleranceAt(x: real, m: real, n: real, total: real)
    requires n > 0.0 && m != 0.0 && m == total / n
    ensures Abs(x - m) / Abs(m) <= 0.05 <==> 20.0 * Abs(n * x - total) <= Abs(total)
  {
    var a := Abs(x - m);
    var b := Abs(m);
    var q := a / b;
    var na := n * a;
    var nb := n * b;
    QuotientTimesDivisor(total, n);
    assert n * m == total;
    QuotientTimesDivisor(a, b);
    ScalePositive(q, 0.05, b, a, 0.05 * b);
    AbsScale(n, x - m, n * x - total, na);
    AbsScale(n, m, total, nb);
    ScalePositive(20.0 * a, b, n, 20.0 * na, nb);
  }

  lemma QuotientTimesDivisor(a: real, b: real)
    requires b != 0.0
    ensures (a / b) * b == a
  {
  }

  /** Multiplying both sides by a positive factor keeps an inequality. */
  lemma ScalePositive(u: real, v: real, k: real, uk: real, vk: real)
    requires k > 0.0 && uk == u * k && vk == v * k
    ensures u <= v <==> uk <= vk
  {
    assert vk - uk == (v - u) * k;
  }

  lemma AbsScale(k: real, y: real, ky: real, kay: real)
    requires k > 0.0 && ky == k * y && kay == k * Abs(y)
    ensures Abs(ky) == kay
  {
    if y < 0.0 {
      assert ky == -(k * -y);
    }
  }
}
