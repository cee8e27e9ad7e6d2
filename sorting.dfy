/** `df.sort_values(col, inplace=True)` on a datetime column: rows in increasing
    date order, NaT rows last. */
module Sorting {
  import opened Values

  /** The sort key of a row: its day in column `col`, `None` for NaT. */
  function DateKey(r: Row, col: string): Option<int> {
    DayOf(At(r, col))
  }

  /** The order pandas sorts datetimes in: by day, NaT after every day. */
  predicate KeyLe(a: Option<int>, b: Option<int>) {
    b.None? || (a.Some? && a.value <= b.value)
  }

  predicate SortedBy(s: seq<Row>, col: string) {
    forall i, j :: 0 <= i < j < |s| ==> KeyLe(DateKey(s[i], col), DateKey(s[j], col))
  }

  /** Puts `x` before the first row whose key is not below its own. */
  function Insert(x: Row, s: seq<Row>, col: string): (r: seq<Row>)
    ensures |r| == |s| + 1
  {
    if s == [] then [x]
    else if KeyLe(DateKey(x, col), DateKey(s[0], col)) then [x] + s
    else [s[0]] + Insert(x, s[1..], col)
  }

  /** Insertion sort; a row never moves past a row with the same key that
      followed it, so the sort is stable. */
  function Sort(s: seq<Row>, col: string): (r: seq<Row>)
    ensures |r| == |s|
  {
    if s == [] then [] else Insert(s[0], Sort(s[1..], col), col)
  }

  lemma {:induction false} InsertPermutes(x: Row, s: seq<Row>, col: string)
    ensures multiset(Insert(x, s, col)) == multiset(s) + multiset{x}
  {
    if s != [] && !KeyLe(DateKey(x, col), DateKey(s[0], col)) {
      InsertPermutes(x, s[1..], col);
      assert s == [s[0]] + s[1..];
    }
  }

  lemma {:induction false} InsertSorted(x: Row, s: seq<Row>, col: string)
    requires SortedBy(s, col)
    ensures SortedBy(Insert(x, s, col), col)
  {
    if s == [] {
    } else if KeyLe(DateKey(x, col), DateKey(s[0], col)) {
      var r := [x] + s;
      forall i, j | 0 <= i < j < |r|
        ensures KeyLe(DateKey(r[i], col), DateKey(r[j], col))
      {
        if i == 0 && j > 1 {
          assert KeyLe(DateKey(s[0], col), DateKey(s[j - 1], col));
        }
      }
    } else {
      var t := Insert(x, s[1..], col);
      InsertSorted(x, s[1..], col);
      InsertPermutes(x, s[1..], col);
      var r := [s[0]] + t;
      forall j | 0 <= j < |t|
        ensures KeyLe(DateKey(s[0], col), DateKey(t[j], col))
      {
        assert t[j] in multiset(t);
        if t[j] != x {
          assert t[j] in multiset(s[1..]);
          var k :| 0 <= k < |s[1..]| && s[1..][k] == t[j];
          assert s[k + 1] == t[j];
        }
      }
      forall i, j | 0 <= i < j < |r|
        ensures KeyLe(DateKey(r[i], col), DateKey(r[j], col))
      {
        if i == 0 {
          assert r[j] == t[j - 1];
        } else {
          assert r[i] == t[i - 1] && r[j] == t[j - 1];
        }
      }
    }
  }

  /** The sorted rows are the input rows, each as often as in the input. */
  lemma {:induction false} SortPermutes(s: seq<Row>, col: string)
    ensures multiset(Sort(s, col)) == multiset(s)
  {
    if s != [] {
      SortPermutes(s[1..], col);
      InsertPermutes(s[0], Sort(s[1..], col), col);
      assert s == [s[0]] + s[1..];
    }
  }

  /** The sorted rows are in date order, NaT last. */
  lemma {:induction false} SortSorted(s: seq<Row>, col: string)
    ensures SortedBy(Sort(s, col), col)
  {
    if s != [] {
      SortSorted(s[1..], col);
      InsertSorted(s[0], Sort(s[1..], col), col);
    }
  }

  /** Every row of the sorted sequence comes from the input. */
  lemma SortMembers(s: seq<Row>, col: string)
    ensures forall r :: r in Sort(s, col) <==> r in s
  {
    SortPermutes(s, col);
    forall r
      ensures r in Sort(s, col) <==> r in s
    {
      assert r in Sort(s, col) <==> r in multiset(Sort(s, col));
      assert r in s <==> r in multiset(s);
    }
  }
}
