/** The three detectors of the insights service, each a pure function from a
    ledger snapshot (the stored transactions, in storage order) to a derived
    table. */
module Insights {
  import opened Values
  import opened Text
  import opened Models
  import opened Recurrence
  import Categorization
  import Finance

  /** The budget type the subscription summary selects. */
  const RecurringType := "Récurrente"
  /** The category the bank-fee filter looks for, case-sensitively. */
  const BankFeesCategory := "Frais Bancaires"
  /** Expenses of this amount or less are never large purchases. */
  const SignificantSpend := 20.0

  // ---------------------------------------------------------------------------
  // Filtering

  /** `df[mask]`: the transactions that satisfy `p`, in snapshot order. */
  function Filter(ts: seq<Transaction>, p: Transaction -> bool): (r: seq<Transaction>)
    ensures |r| <= |ts|
    ensures forall t :: t in r <==> t in ts && p(t)
  {
    if ts == [] then []
    else Filter(ts[..|ts| - 1], p) + if p(ts[|ts| - 1]) then [ts[|ts| - 1]] else []
  }

  /** Filtering keeps the snapshot order: filtering two consecutive stretches
      gives the two filtered stretches one after the other. */
  lemma {:induction false} FilterAppend(a: seq<Transaction>, b: seq<Transaction>, p: Transaction -> bool)
    ensures Filter(a + b, p) == Filter(a, p) + Filter(b, p)
  {
    if b == [] {
      assert a + b == a;
    } else {
      var n := |b| - 1;
      var x := b[n];
      assert b == b[..n] + [x];
      assert a + b == (a + b[..n]) + [x];
      FilterSnoc(a + b[..n], x, p);
      FilterSnoc(b[..n], x, p);
      FilterAppend(a, b[..n], p);
    }
  }

  /** Filtering one more transaction appends it when it passes. */
  lemma FilterSnoc(ts: seq<Transaction>, x: Transaction, p: Transaction -> bool)
    ensures Filter(ts + [x], p) == Filter(ts, p) + if p(x) then [x] else []
  {
    assert (ts + [x])[..|ts|] == ts;
  }

  /** Nothing passes a filter that no transaction satisfies. */
  lemma {:induction false} FilterNone(ts: seq<Transaction>, p: Transaction -> bool)
    requires forall t :: t in ts ==> !p(t)
    ensures Filter(ts, p) == []
  {
    if ts != [] {
      FilterNone(ts[..|ts| - 1], p);
      assert ts[|ts| - 1] in ts;
    }
  }

  function Amounts(ts: seq<Transaction>): (xs: seq<real>)
    ensures |xs| == |ts|
  {
    seq(|ts|, i requires 0 <= i < |ts| => ts[i].montant)
  }

  /** A sum of negative amounts is negative. */
  lemma {:induction false} SumOfNegatives(xs: seq<real>)
    requires xs != []
    requires forall i :: 0 <= i < |xs| ==> xs[i] < 0.0
    ensures Sum(xs) < 0.0
  {
    if |xs| > 1 {
      SumOfNegatives(xs[..|xs| - 1]);
    } else {
      assert xs[..0] == [];
    }
  }

  /** The mean of negative amounts is negative. */
  lemma MeanOfNegatives(xs: seq<real>)
    requires xs != []
    requires forall i :: 0 <= i < |xs| ==> xs[i] < 0.0
    ensures Mean(xs) < 0.0
  {
    SumOfNegatives(xs);
    var n := |xs| as real;
    assert Mean(xs) * n == Sum(xs);
  }

  // ---------------------------------------------------------------------------
  // find_recurring_subscriptions

  /** One row of the subscription summary: `libelle_simple`, `montant_moyen`,
      `nombre_de_paiements` and `derniere_date`. */
  datatype Subscription = Subscription(name: Cell, meanAmount: real, payments: nat, lastDate: Option<int>)

  predicate IsRecurringExpense(t: Transaction) {
    t.typeBudget == RecurringType && t.montant < 0.0
  }

  /** The rows the summary is built from. */
  function RecurringExpenses(ts: seq<Transaction>): seq<Transaction> {
    Filter(ts, IsRecurringExpense)
  }

  /** The `libelle_simple` group keys in order of first appearance; NaN labels
      form no group. */
  function LabelKeys(ts: seq<Transaction>): (keys: seq<Cell>)
    ensures forall c :: c in keys <==> c != Null && exists t :: t in ts && t.libelleSimple == c
    ensures forall i, j :: 0 <= i < j < |keys| ==> keys[i] != keys[j]
  {
    if ts == [] then []
    else
      var keys := LabelKeys(ts[..|ts| - 1]);
      var t := ts[|ts| - 1];
      assert forall u :: u in ts <==> u in ts[..|ts| - 1] || u == t;
      if t.libelleSimple == Null || t.libelleSimple in keys then keys else keys + [t.libelleSimple]
  }

  /** The group of one label. */
  function LabelGroup(ts: seq<Transaction>, key: Cell): seq<Transaction> {
    Filter(ts, (t: Transaction) => t.libelleSimple == key)
  }

  /** `max()` of a datetime column: NaT is skipped, and a column of NaT only
      gives NaT. */
  function LatestDate(ts: seq<Transaction>): Option<int> {
    if ts == [] then None
    else
      var earlier := LatestDate(ts[..|ts| - 1]);
      var d := ts[|ts| - 1].dateOp;
      if d.None? then earlier
      else if earlier.Some? && earlier.value >= d.value then earlier
      else d
  }

  /** The latest date is NaT exactly when every date is, and otherwise it is
      one of the dates and no date is later. */
  lemma {:induction false} LatestDateIsMax(ts: seq<Transaction>)
    ensures LatestDate(ts).None? <==> forall t :: t in ts ==> t.dateOp.None?
    ensures LatestDate(ts).Some? ==>
      && (exists t :: t in ts && t.dateOp == LatestDate(ts))
      && forall t :: t in ts && t.dateOp.Some? ==> t.dateOp.value <= LatestDate(ts).value
  {
    if ts != [] {
      var init := ts[..|ts| - 1];
      LatestDateIsMax(init);
      assert forall u :: u in ts <==> u in init || u == ts[|ts| - 1];
    }
  }

  /** The summary row of a non-empty group. */
  function Summary(key: Cell, g: seq<Transaction>): Subscription
    requires g != []
  {
    Subscription(key, Abs(Mean(Amounts(g))), |g|, LatestDate(g))
  }

  /** The summary rows, one per group key. */
  function Summaries(es: seq<Transaction>): (s: seq<Subscription>)
    ensures |s| == |LabelKeys(es)|
    ensures forall i :: 0 <= i < |s| ==> s[i].name == LabelKeys(es)[i]
  {
    var keys := LabelKeys(es);
    seq(|keys|, i requires 0 <= i < |keys| =>
      var g := LabelGroup(es, keys[i]);
      assert g != [] by {
        assert keys[i] in keys;
        var t :| t in es && t.libelleSimple == keys[i];
        assert t in g;
      }
      Summary(keys[i], g))
  }

  /** Puts `x` before the first row whose mean is not above its own. */
  function InsertByMean(x: Subscription, s: seq<Subscription>): (r: seq<Subscription>)
    ensures |r| == |s| + 1
  {
    if s == [] then [x]
    else if x.meanAmount >= s[0].meanAmount then [x] + s
    else [s[0]] + InsertByMean(x, s[1..])
  }

  /** `sort_values('montant_moyen', ascending=False)`, as an insertion sort. */
  function SortByMean(s: seq<Subscription>): (r: seq<Subscription>)
    ensures |r| == |s|
  {
    if s == [] then [] else InsertByMean(s[0], SortByMean(s[1..]))
  }

  predicate Descending(s: seq<Subscription>) {
    forall i, j :: 0 <= i < j < |s| ==> s[i].meanAmount >= s[j].meanAmount
  }

  predicate DistinctLabels(s: seq<Subscription>) {
    forall i, j :: 0 <= i < j < |s| ==> s[i].name != s[j].name
  }

  lemma {:induction false} InsertByMeanMembers(x: Subscription, s: seq<Subscription>)
    ensures forall y :: y in InsertByMean(x, s) <==> y == x || y in s
  {
    if s != [] && x.meanAmount < s[0].meanAmount {
      InsertByMeanMembers(x, s[1..]);
      assert forall y :: y in s <==> y == s[0] || y in s[1..];
    }
  }

  lemma {:induction false} InsertByMeanPermutes(x: Subscription, s: seq<Subscription>)
    ensures multiset(InsertByMean(x, s)) == multiset(s) + multiset{x}
  {
    if s != [] && x.meanAmount < s[0].meanAmount {
      InsertByMeanPermutes(x, s[1..]);
      assert s == [s[0]] + s[1..];
    }
  }

  lemma {:induction false} InsertByMeanDescending(x: Subscription, s: seq<Subscription>)
    requires Descending(s)
    ensures Descending(InsertByMean(x, s))
  {
    if s == [] {
    } else if x.meanAmount >= s[0].meanAmount {
      var r := [x] + s;
      forall i, j | 0 <= i < j < |r| ensures r[i].meanAmount >= r[j].meanAmount {
        if i == 0 && j > 1 {
          assert s[0].meanAmount >= s[j - 1].meanAmount;
        }
      }
    } else {
      var t := InsertByMean(x, s[1..]);
      InsertByMeanDescending(x, s[1..]);
      InsertByMeanMembers(x, s[1..]);
      var r := [s[0]] + t;
      forall j | 0 <= j < |t| ensures s[0].meanAmount >= t[j].meanAmount {
        assert t[j] in t;
        if t[j] != x {
          var k :| 0 <= k < |s[1..]| && s[1..][k] == t[j];
          assert s[k + 1] == t[j];
        }
      }
      forall i, j | 0 <= i < j < |r| ensures r[i].meanAmount >= r[j].meanAmount {
        if i == 0 {
          assert r[j] == t[j - 1];
        } else {
          assert r[i] == t[i - 1] && r[j] == t[j - 1];
        }
      }
    }
  }

  lemma {:induction false} InsertByMeanDistinct(x: Subscription, s: seq<Subscription>)
    requires DistinctLabels(s)
    requires forall y :: y in s ==> y.name != x.name
    ensures DistinctLabels(InsertByMean(x, s))
  {
    if s == [] {
    } else if x.meanAmount >= s[0].meanAmount {
      var r := [x] + s;
      forall i, j | 0 <= i < j < |r| ensures r[i].name != r[j].name {
        if i == 0 {
          assert r[j] in s;
        } else {
          assert r[i] == s[i - 1] && r[j] == s[j - 1];
        }
      }
    } else {
      var t := InsertByMean(x, s[1..]);
      InsertByMeanDistinct(x, s[1..]);
      InsertByMeanMembers(x, s[1..]);
      var r := [s[0]] + t;
      forall j | 0 <= j < |t| ensures s[0].name != t[j].name {
        assert t[j] in t;
        if t[j] != x {
          var k :| 0 <= k < |s[1..]| && s[1..][k] == t[j];
          assert s[k + 1] == t[j];
        } else {
          assert s[0] in s;
        }
      }
      forall i, j | 0 <= i < j < |r| ensures r[i].name != r[j].name {
        if i == 0 {
          assert r[j] == t[j - 1];
        } else {
          assert r[i] == t[i - 1] && r[j] == t[j - 1];
        }
      }
    }
  }

  /** The sorted summary is a permutation of the summary, with non-increasing
      means, and keeps the labels distinct. */
  lemma {:induction false} SortByMeanSpec(s: seq<Subscription>)
    ensures multiset(SortByMean(s)) == multiset(s)
    ensures forall y :: y in SortByMean(s) <==> y in s
    ensures Descending(SortByMean(s))
    ensures DistinctLabels(s) ==> DistinctLabels(SortByMean(s))
  {
    if s != [] {
      var rest := SortByMean(s[1..]);
      SortByMeanSpec(s[1..]);
      InsertByMeanMembers(s[0], rest);
      InsertByMeanPermutes(s[0], rest);
      assert s == [s[0]] + s[1..];
      InsertByMeanDescending(s[0], rest);
      assert forall y :: y in s <==> y == s[0] || y in s[1..];
      if DistinctLabels(s) {
        forall y | y in rest ensures y.name != s[0].name {
          var k :| 0 <= k < |s[1..]| && s[1..][k] == y;
          assert s[k + 1] == y;
        }
        InsertByMeanDistinct(s[0], rest);
      }
    }
  }

  /** `find_recurring_subscriptions`. */
  function FindRecurringSubscriptions(ts: seq<Transaction>): (r: seq<Subscription>)
    ensures ts == [] ==> r == []
    ensures Descending(r) && DistinctLabels(r)
  {
    if ts == [] then []
    else
      var es := RecurringExpenses(ts);
      SummariesSpec(es);
      SortByMeanSpec(Summaries(es));
      SortByMean(Summaries(es))
  }

  /** The summary rows, before sorting, hold distinct labels, and each holds
      the statistics of its label's group. */
  lemma SummariesSpec(es: seq<Transaction>)
    requires forall t :: t in es ==> t.montant < 0.0
    ensures DistinctLabels(Summaries(es))
    ensures forall s :: s in Summaries(es) ==>
      var g := LabelGroup(es, s.name);
      && s.name != Null
      && g != []
      && s.payments == |g|
      && s.meanAmount == Abs(Mean(Amounts(g))) > 0.0
      && s.lastDate == LatestDate(g)
  {
    var sums := Summaries(es);
    var keys := LabelKeys(es);
    forall s | s in sums
      ensures LabelGroup(es, s.name) != [] && s.name != Null
      ensures s.payments == |LabelGroup(es, s.name)|
      ensures s.meanAmount == Abs(Mean(Amounts(LabelGroup(es, s.name)))) > 0.0
      ensures s.lastDate == LatestDate(LabelGroup(es, s.name))
    {
      var i :| 0 <= i < |sums| && sums[i] == s;
      var g := LabelGroup(es, s.name);
      assert keys[i] in keys;
      forall k | 0 <= k < |g| ensures Amounts(g)[k] < 0.0 {
        assert g[k] in g;
      }
      MeanOfNegatives(Amounts(g));
    }
  }

  /** The summary has a row for the label of every recurring expense that has
      one. */
  lemma SubscriptionsComplete(ts: seq<Transaction>)
    ensures forall t :: t in ts && IsRecurringExpense(t) && t.libelleSimple != Null ==>
      exists s :: s in FindRecurringSubscriptions(ts) && s.name == t.libelleSimple
  {
    if ts != [] {
      var es := RecurringExpenses(ts);
      var sums := Summaries(es);
      var keys := LabelKeys(es);
      SortByMeanSpec(sums);
      forall t | t in ts && IsRecurringExpense(t) && t.libelleSimple != Null
        ensures exists s :: s in FindRecurringSubscriptions(ts) && s.name == t.libelleSimple
      {
        assert t in es;
        assert t.libelleSimple in keys;
        var i :| 0 <= i < |keys| && keys[i] == t.libelleSimple;
        assert sums[i] in sums;
      }
    }
  }

  /** The summary has one row per `libelle_simple` of the recurring expenses,
      with at least one payment, a positive average cost equal to the absolute
      mean of the group's amounts, and the group's latest date; its rows are
      sorted by average cost, largest first. */
  lemma SubscriptionsSpec(ts: seq<Transaction>)
    ensures var r := FindRecurringSubscriptions(ts);
      && Descending(r)
      && DistinctLabels(r)
      && (forall t :: t in ts && IsRecurringExpense(t) && t.libelleSimple != Null ==>
            exists s :: s in r && s.name == t.libelleSimple)
      && forall s :: s in r ==>
           var g := LabelGroup(RecurringExpenses(ts), s.name);
           && s.name != Null
           && (forall t :: t in g <==> t in ts && IsRecurringExpense(t) && t.libelleSimple == s.name)
           && g != []
           && s.payments == |g| >= 1
           && s.meanAmount == Abs(Mean(Amounts(g))) > 0.0
           && s.lastDate == LatestDate(g)
  {
    SubscriptionsComplete(ts);
    if ts != [] {
      var es := RecurringExpenses(ts);
      SummariesSpec(es);
      SortByMeanSpec(Summaries(es));
    }
  }

  // ---------------------------------------------------------------------------
  // find_large_purchases

  /** One flagged row: `hash`, `date_op`, `libelle_simple`, `categorie`,
      `depense` and the category's `mean`. */
  datatype LargePurchase = LargePurchase(
    hash: string, dateOp: Option<int>, name: Cell, category: Cell, spent: real, categoryMean: real)

  predicate IsExpense(t: Transaction) {
    t.montant < 0.0
  }

  /** `depense`: the expense as a positive amount. */
  function Spent(t: Transaction): real {
    Abs(t.montant)
  }

  /** The `depense` values of the expenses in category `c`. */
  function CategorySpends(ts: seq<Transaction>, c: Cell): seq<real> {
    var g := Filter(ts, (t: Transaction) => IsExpense(t) && t.categorie == c);
    seq(|g|, i requires 0 <= i < |g| => Spent(g[i]))
  }

  /** The category mean; a category that occurs among the expenses is never
      empty, so the empty case is never used. */
  function CategoryMean(xs: seq<real>): real {
    if xs == [] then 0.0 else Mean(xs)
  }

  /** The sample variance (`ddof=1`) of at least two values. */
  function SampleVariance(xs: seq<real>): real
    requires |xs| >= 2
  {
    var m := Mean(xs);
    Sum(seq(|xs|, i requires 0 <= i < |xs| => (xs[i] - m) * (xs[i] - m))) / ((|xs| - 1) as real)
  }

  /** `std` after `fillna(0)`: a single value has NaN deviation, filled with 0;
      `sqrt` is the library's square root. */
  function CategoryStd(xs: seq<real>, sqrt: real -> real): real {
    if |xs| < 2 then 0.0 else sqrt(SampleVariance(xs))
  }

  /** A row the detector flags: an expense with a category, above the
      category's mean by more than `threshold` deviations, and above 20. */
  predicate Flagged(ts: seq<Transaction>, threshold: real, sqrt: real -> real, t: Transaction) {
    var xs := CategorySpends(ts, t.categorie);
    && IsExpense(t)
    && t.categorie != Null
    && Spent(t) > CategoryMean(xs) + threshold * CategoryStd(xs, sqrt)
    && Spent(t) > SignificantSpend
  }

  function Purchase(ts: seq<Transaction>, t: Transaction): LargePurchase {
    LargePurchase(t.hash, t.dateOp, t.libelleSimple, t.categorie, Spent(t), CategoryMean(CategorySpends(ts, t.categorie)))
  }

  /** `find_large_purchases`, with `threshold` for `std_dev_threshold`
      (2.0 by default). */
  function FindLargePurchases(ts: seq<Transaction>, threshold: real, sqrt: real -> real): (r: seq<LargePurchase>)
    ensures ts == [] ==> r == []
    ensures |r| <= |ts|
    ensures forall i :: 0 <= i < |r| ==> r[i].spent > SignificantSpend && r[i].category != Null
  {
    var flagged := Filter(ts, (t: Transaction) => Flagged(ts, threshold, sqrt, t));
    assert forall i :: 0 <= i < |flagged| ==> flagged[i] in flagged;
    seq(|flagged|, i requires 0 <= i < |flagged| => Purchase(ts, flagged[i]))
  }

  /** Every flagged row comes from an expense with a category, spends
      `|montant|`, more than 20 and more than its category's mean plus
      `threshold` deviations; every such expense is flagged. */
  lemma LargePurchasesSpec(ts: seq<Transaction>, threshold: real, sqrt: real -> real)
    ensures var r := FindLargePurchases(ts, threshold, sqrt);
      && (forall p :: p in r ==>
            exists t :: (
              && t in ts && p == Purchase(ts, t)
              && t.montant < 0.0 && p.spent == -t.montant
              && p.category != Null
              && p.spent > SignificantSpend
              && p.spent > p.categoryMean + threshold * CategoryStd(CategorySpends(ts, t.categorie), sqrt)))
      && forall t :: t in ts && Flagged(ts, threshold, sqrt, t) ==> Purchase(ts, t) in r
  {
    var r := FindLargePurchases(ts, threshold, sqrt);
    var flagged := Filter(ts, (t: Transaction) => Flagged(ts, threshold, sqrt, t));
    forall p | p in r
      ensures exists t :: (
        && t in ts && p == Purchase(ts, t)
        && t.montant < 0.0 && p.spent == -t.montant
        && p.category != Null
        && p.spent > SignificantSpend
        && p.spent > p.categoryMean + threshold * CategoryStd(CategorySpends(ts, t.categorie), sqrt))
    {
      var i :| 0 <= i < |r| && r[i] == p;
      assert flagged[i] in flagged;
    }
    forall t | t in ts && Flagged(ts, threshold, sqrt, t) ensures Purchase(ts, t) in r {
      var i :| 0 <= i < |flagged| && flagged[i] == t;
      assert r[i] == Purchase(ts, t);
    }
  }

  /** A category with a single expense never yields a large purchase,
      whatever the threshold: its deviation is filled with 0 and its mean is
      the expense itself. */
  lemma SingleExpenseNeverFlagged(ts: seq<Transaction>, threshold: real, sqrt: real -> real, t: Transaction)
    requires t in ts && IsExpense(t)
    requires |CategorySpends(ts, t.categorie)| == 1
    ensures !Flagged(ts, threshold, sqrt, t)
    ensures Purchase(ts, t) !in FindLargePurchases(ts, threshold, sqrt)
  {
    var g := Filter(ts, (u: Transaction) => IsExpense(u) && u.categorie == t.categorie);
    assert t in g;
    var xs := CategorySpends(ts, t.categorie);
    assert xs == [Spent(g[0])] && g[0] == t;
    assert Sum(xs) == Sum(xs[..0]) + xs[0];
    LargePurchasesFrom(ts, threshold, sqrt, t);
  }

  /** The flagged rows of one transaction are the rows the detector flags. */
  lemma LargePurchasesFrom(ts: seq<Transaction>, threshold: real, sqrt: real -> real, t: Transaction)
    requires t in ts
    ensures Purchase(ts, t) in FindLargePurchases(ts, threshold, sqrt) ==>
      exists u :: u in ts && Flagged(ts, threshold, sqrt, u) && Purchase(ts, u) == Purchase(ts, t)
  {
    var r := FindLargePurchases(ts, threshold, sqrt);
    var flagged := Filter(ts, (u: Transaction) => Flagged(ts, threshold, sqrt, u));
    if Purchase(ts, t) in r {
      var i :| 0 <= i < |r| && r[i] == Purchase(ts, t);
      assert flagged[i] in flagged;
    }
  }

  /** Rows without a category are never flagged. */
  lemma UncategorizedNeverFlagged(ts: seq<Transaction>, threshold: real, sqrt: real -> real)
    ensures forall p :: p in FindLargePurchases(ts, threshold, sqrt) ==> p.category != Null
  {
    LargePurchasesSpec(ts, threshold, sqrt);
  }

  // ---------------------------------------------------------------------------
  // find_bank_fees

  /** One row of the bank-fee table: `hash`, `date_op`, `libelle_simple`,
      `montant`. */
  datatype BankFee = BankFee(hash: string, dateOp: Option<int>, name: Cell, montant: real)

  /** `str.contains('Frais Bancaires', na=False)`: a case-sensitive substring
      test on a text category; NaN and non-text cells do not match. */
  predicate IsBankFee(t: Transaction) {
    t.categorie.Text? && Contains(t.categorie.s, BankFeesCategory)
  }

  function Fee(t: Transaction): BankFee {
    BankFee(t.hash, t.dateOp, t.libelleSimple, t.montant)
  }

  /** The bank-fee rows of the given transactions. */
  function Fees(ts: seq<Transaction>): (r: seq<BankFee>)
    ensures |r| == |ts| && forall i :: 0 <= i < |ts| ==> r[i] == Fee(ts[i])
  {
    if ts == [] then [] else Fees(ts[..|ts| - 1]) + [Fee(ts[|ts| - 1])]
  }

  lemma {:induction false} FeesAppend(a: seq<Transaction>, b: seq<Transaction>)
    ensures Fees(a + b) == Fees(a) + Fees(b)
  {
    if b != [] {
      var n := |b| - 1;
      var ab := a + b;
      assert ab[..|ab| - 1] == a + b[..n];
      FeesAppend(a, b[..n]);
    } else {
      assert a + b == a;
    }
  }

  /** `find_bank_fees`. */
  function FindBankFees(ts: seq<Transaction>): (r: seq<BankFee>)
    ensures ts == [] ==> r == []
    ensures |r| <= |ts|
    ensures forall i :: 0 <= i < |r| ==> exists t :: t in ts && IsBankFee(t) && r[i] == Fee(t)
  {
    var fees := Filter(ts, IsBankFee);
    assert forall i :: 0 <= i < |fees| ==> fees[i] in fees;
    Fees(fees)
  }

  /** The bank-fee table lists exactly the transactions whose category contains
      "Frais Bancaires", in snapshot order: the table of two consecutive
      stretches is the two tables one after the other. */
  lemma BankFeesSpec(ts: seq<Transaction>)
    ensures forall t :: t in ts && IsBankFee(t) ==> Fee(t) in FindBankFees(ts)
    ensures forall b :: b in FindBankFees(ts) ==>
      exists t :: t in ts && b == Fee(t) && t.categorie.Text? && Contains(t.categorie.s, BankFeesCategory)
    ensures forall a, b :: ts == a + b ==> FindBankFees(ts) == FindBankFees(a) + FindBankFees(b)
  {
    var fees := Filter(ts, IsBankFee);
    var r := FindBankFees(ts);
    forall t | t in ts && IsBankFee(t) ensures Fee(t) in r {
      var i :| 0 <= i < |fees| && fees[i] == t;
      assert r[i] == Fee(t);
    }
    forall b | b in r
      ensures exists t :: t in ts && b == Fee(t) && t.categorie.Text? && Contains(t.categorie.s, BankFeesCategory)
    {
      var i :| 0 <= i < |r| && r[i] == b;
      assert fees[i] in fees;
    }
    forall a, b | ts == a + b ensures FindBankFees(ts) == FindBankFees(a) + FindBankFees(b) {
      FilterAppend(a, b, IsBankFee);
      FeesAppend(Filter(a, IsBankFee), Filter(b, IsBankFee));
    }
  }

  /** The match is case-sensitive: a category spelled in lower case is not a
      bank fee. */
  lemma LowerCaseCategoryIsNotBankFee(t: Transaction)
    requires t.categorie == Text("frais bancaires")
    ensures !IsBankFee(t)
  {
    var s := t.categorie.s;
    assert |s| == |BankFeesCategory| && s[0] != BankFeesCategory[0];
    ShorterContainsNothingLonger(s[1..], BankFeesCategory);
  }

  // ---------------------------------------------------------------------------
  // Across the two services

  /** The ingestion service, as written, never labels a record with the
      budget type the subscription summary selects: whatever it imports, the
      summary of its records is empty. */
  lemma AsWrittenLedgerHasNoSubscriptions(lib: Lib, rules: seq<Categorization.Rule>, uncategorized: seq<string>,
                                          accountType: string, columns: set<string>, rows: seq<Row>)
    requires forall i :: 0 <= i < |rows| ==> rows[i].Keys == columns
    requires Finance.Ledger(lib, AsWritten, rules, uncategorized, accountType, columns, rows).Ok?
    ensures FindRecurringSubscriptions(Finance.Ledger(lib, AsWritten, rules, uncategorized, accountType, columns, rows).value) == []
  {
    Finance.LedgerBudgetTypes(lib, AsWritten, rules, uncategorized, accountType, columns, rows);
    BudgetLabelsDiffer();
    NoRecurringTypeNoSubscriptions(Finance.Ledger(lib, AsWritten, rules, uncategorized, accountType, columns, rows).value);
  }

  /** Without a record of the selected budget type the summary is empty. */
  lemma NoRecurringTypeNoSubscriptions(ts: seq<Transaction>)
    requires forall t :: t in ts ==> t.typeBudget != RecurringType
    ensures FindRecurringSubscriptions(ts) == []
  {
    FilterNone(ts, IsRecurringExpense);
  }

  /** With the intended label, every recurring expense of a named group
      reaches the summary. */
  lemma IntendedRecurringReachesSummary(ts: seq<Transaction>, t: Transaction)
    requires t in ts && t.typeBudget == Finance.RecurringLabel(Intended) && t.montant < 0.0
    requires t.libelleSimple != Null
    ensures exists s :: s in FindRecurringSubscriptions(ts) && s.name == t.libelleSimple
  {
    BudgetLabelsDiffer();
    SubscriptionsSpec(ts);
  }

  /** Neither budget type the ingestion service writes as written is the one
      the summary selects. */
  lemma BudgetLabelsDiffer()
    ensures Finance.RecurringLabel(AsWritten) != RecurringType
    ensures Punctual != RecurringType
    ensures Finance.RecurringLabel(Intended) == RecurringType
  {
    assert |Finance.RecurringLabel(AsWritten)| == 11 && |RecurringType| == 10;
    assert Punctual[0] != RecurringType[0];
  }
}
