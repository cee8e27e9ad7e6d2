/** The first ingestion path (logic.py): `preprocess_data`, `categorize_transactions`
    and `detect_recurrences`, each working on a data frame whose columns carry
    the bank export's own names. */
module Legacy {
  import opened Values
  import opened Text
  import opened Frames
  import opened Coercion
  import opened Categorization
  import Sorting
  import opened Recurrence

  const DebitCol := "Debit"
  const CreditCol := "Credit"
  const CategoryCol := "Categorie"
  const LabelCol := "Libelle operation"
  const DateCol := "Date operation"
  const SimpleLabelCol := "Libelle simplifie"
  const BudgetCol := "Type Budget"
  const Recurring := "Récurrente"

  /** The keyword table of logic.py, in the order of its dict. */
  const CategorizationRules := [SalaryRule, RentRule, GroceriesRule, TransportRule, BillsRule, HealthRule, LeisureRule, ShoppingRule, WithdrawalRule]
  const SalaryRule := Rule("Salaire", ["VIREMENT SALAIRE", "SALAIRE"])
  const RentRule := Rule("Loyer", ["LOYER"])
  const GroceriesRule := Rule("Courses", ["CARREFOUR", "AUCHAN", "LIDL", "SUPER U", "INTERMARCHE", "MONOPRIX"])
  const TransportRule := Rule("Transport", ["SNCF", "RATP", "ESSENCE", "TOTAL", "SHELL"])
  const BillsRule := Rule("Factures", ["EDF", "ENGIE", "FREE", "ORANGE", "BOUYGUES", "SFR", "VEOLIA"])
  const HealthRule := Rule("Santé", ["PHARMACIE", "DOCTEUR", "MUTUELLE"])
  const LeisureRule := Rule("Loisirs", ["CINEMA", "NETFLIX", "SPOTIFY", "RESTAURANT"])
  const ShoppingRule := Rule("Shopping", ["AMAZON", "FNAC", "ZALANDO", "H&M"])
  const WithdrawalRule := Rule("Retrait", ["RETRAIT DAB"])

  // ---------------------------------------------------------------------------
  // preprocess_data

  /** A row after preprocessing: numeric debit and credit, and the signed amount
      credit minus debit. */
  function PreprocessedRow(lib: Lib, columns: set<string>, r: Row): (p: Row)
    ensures p.Keys == r.Keys + {DebitCol, CreditCol, AmountCol}
    ensures p[DebitCol].Num? && p[CreditCol].Num? && p[AmountCol] == Num(p[CreditCol].x - p[DebitCol].x)
    ensures forall k :: k in r && k !in {DebitCol, CreditCol, AmountCol} ==> p[k] == r[k]
  {
    var debit := DebitValue(lib, columns, DebitCol, r);
    var credit := CreditValue(lib, columns, CreditCol, r);
    r[DebitCol := Num(debit)][CreditCol := Num(credit)][AmountCol := Num(credit - debit)]
  }

  /** Works on a copy, so the caller's frame is left as it was (the method
      modifies nothing it was given). */
  method PreprocessData(lib: Lib, df: Frame) returns (out: Frame)
    requires df.Valid()
    ensures fresh(out) && out.Valid()
    ensures out.columns == df.columns + {DebitCol, CreditCol, AmountCol}
    ensures |out.rows| == |df.rows| && forall i :: 0 <= i < |df.rows| ==> out.rows[i] == PreprocessedRow(lib, df.columns, df.rows[i])
  {
    out := df.Copy();
    ComputeAmounts(lib, out);
  }

  /** The Debit, Credit and montant blocks of `preprocess_data`, in place. */
  method ComputeAmounts(lib: Lib, df: Frame)
    requires df.Valid()
    modifies df
    ensures df.Valid() && df.columns == old(df.columns) + {DebitCol, CreditCol, AmountCol}
    ensures |df.rows| == |old(df.rows)|
    ensures forall i :: 0 <= i < |df.rows| ==> df.rows[i] == PreprocessedRow(lib, old(df.columns), old(df.rows)[i])
  {
    ghost var columns := df.columns;
    ghost var rows := df.rows;
    CoerceDebit(lib, df, DebitCol);
    ghost var rows1 := df.rows;
    CoerceCredit(lib, df, CreditCol);
    ghost var rows2 := df.rows;
    df.SetColumn(AmountCol, r => Num(NumOf(At(r, CreditCol)) - NumOf(At(r, DebitCol))));
    forall i | 0 <= i < |rows| ensures df.rows[i] == PreprocessedRow(lib, columns, rows[i]) {
      assert rows1[i] == rows[i][DebitCol := Num(DebitValue(lib, columns, DebitCol, rows[i]))];
      assert rows2[i] == rows1[i][CreditCol := Num(CreditValue(lib, columns + {DebitCol}, CreditCol, rows1[i]))];
      assert df.rows[i] == rows2[i][AmountCol := Num(NumOf(At(rows2[i], CreditCol)) - NumOf(At(rows2[i], DebitCol)))];
      PreprocessSteps(lib, columns, rows[i]);
    }
  }

  /** The three column assignments of `preprocess_data`, one after the other,
      give the preprocessed row. */
  lemma PreprocessSteps(lib: Lib, columns: set<string>, r: Row)
    ensures var r1 := r[DebitCol := Num(DebitValue(lib, columns, DebitCol, r))];
      var r2 := r1[CreditCol := Num(CreditValue(lib, columns + {DebitCol}, CreditCol, r1))];
      r2[AmountCol := Num(NumOf(At(r2, CreditCol)) - NumOf(At(r2, DebitCol)))] == PreprocessedRow(lib, columns, r)
  {
    assert |DebitCol| == 5 && |CreditCol| == 6;
  }

  /** For every row, `montant = Credit - Debit`, each side coerced to 0 when
      missing or unparsable; every other cell is kept. */
  lemma AmountIsCreditMinusDebit(lib: Lib, columns: set<string>, r: Row)
    ensures var p := PreprocessedRow(lib, columns, r);
      && p[AmountCol] == Num(CreditValue(lib, columns, CreditCol, r) - DebitValue(lib, columns, DebitCol, r))
      && p.Keys == r.Keys + {DebitCol, CreditCol, AmountCol}
      && forall k :: k in r && k !in {DebitCol, CreditCol, AmountCol} ==> p[k] == r[k]
  {
  }

  // ---------------------------------------------------------------------------
  // categorize_transactions

  /** How pandas casts a cell to bool for `|`: NaN is False, an empty string is
      False, a non-empty one True. */
  predicate Truthy(c: Cell) {
    match c
    case Null => false
    case Text(s) => s != ""
    case Num(x) => x != 0.0
    case Day(_) => true
    case Flag(b) => b
  }

  /** The category is still open: NaN or the empty string. */
  predicate IsBlank(c: Cell) {
    c == Null || c == Text("")
  }

  /** The mask of logic.py:53 for one row. As written, `|` binds tighter than
      `==`, so the row's category test is `(isnull() | Categorie) == ''`: a
      boolean compared with a string. Intended: `isnull() | (Categorie == '')`. */
  predicate Mask(reading: Reading, r: Row, keyword: string) {
    && LabelMatches(At(r, LabelCol), keyword)
    && match reading
       case AsWritten => Flag(At(r, CategoryCol) == Null || Truthy(At(r, CategoryCol))) == Text("")
       case Intended => IsBlank(At(r, CategoryCol))
  }

  /** A row after the keyword loop of one category; the mask is evaluated
      afresh before each keyword. */
  function AfterKeywords(reading: Reading, r: Row, category: string, keywords: seq<string>): Row {
    if keywords == [] then r
    else
      var p := AfterKeywords(reading, r, category, keywords[..|keywords| - 1]);
      if Mask(reading, p, keywords[|keywords| - 1]) then p[CategoryCol := Text(category)] else p
  }

  /** A row after the loops over `rules`. */
  function AfterRules(reading: Reading, r: Row, rules: seq<Rule>): Row {
    if rules == [] then r
    else
      var last := rules[|rules| - 1];
      AfterKeywords(reading, AfterRules(reading, r, rules[..|rules| - 1]), last.category, last.keywords)
  }

  /** `df['Categorie'] = df.get('Categorie', <NaN series>)` */
  function WithCategory(columns: set<string>, r: Row): Row {
    if CategoryCol in columns then r else r[CategoryCol := Null]
  }

  /** Updates the frame in place. Without a label column the first keyword
      lookup raises `KeyError` (`ok` false) after the category column was added. */
  method CategorizeTransactions(df: Frame, rules: seq<Rule>, reading: Reading) returns (ok: bool)
    requires df.Valid()
    modifies df
    ensures df.Valid() && df.columns == old(df.columns) + {CategoryCol}
    ensures ok <==> LabelCol in old(df.columns) || !HasKeyword(rules)
    ensures |df.rows| == |old(df.rows)|
    ensures forall i :: 0 <= i < |df.rows| ==>
      df.rows[i] == if ok then AfterRules(reading, WithCategory(old(df.columns), old(df.rows)[i]), rules)
                    else WithCategory(old(df.columns), old(df.rows)[i])
  {
    if CategoryCol !in df.columns {
      df.SetColumn(CategoryCol, r => Null);
    }
    ghost var start := df.rows;
    assert start == MapRows(old(df.rows), r => WithCategory(old(df.columns), r));
    for c := 0 to |rules|
      invariant df.Valid() && df.columns == old(df.columns) + {CategoryCol}
      invariant LabelCol !in df.columns ==> !HasKeyword(rules[..c]) && df.rows == start
      invariant df.rows == MapRows(start, r => AfterRules(reading, r, rules[..c]))
    {
      assert rules[..c + 1][..c] == rules[..c];
      var applied := ApplyRule(df, rules[c], reading);
      if !applied {
        assert HasKeyword(rules) by { assert 0 <= c < |rules| && rules[c].keywords != []; }
        return false;
      }
    }
    assert rules[..|rules|] == rules;
    if LabelCol !in old(df.columns) {
      assert !HasKeyword(rules);
    }
    ok := true;
  }

  /** The keyword loop of one category, in place. Without a label column the
      first keyword lookup raises `KeyError` (`ok` false) and nothing changes. */
  method ApplyRule(df: Frame, rule: Rule, reading: Reading) returns (ok: bool)
    requires df.Valid() && CategoryCol in df.columns
    modifies df
    ensures df.Valid() && df.columns == old(df.columns)
    ensures ok <==> LabelCol in df.columns || rule.keywords == []
    ensures ok ==> df.rows == MapRows(old(df.rows), r => AfterKeywords(reading, r, rule.category, rule.keywords))
    ensures !ok ==> df.rows == old(df.rows)
  {
    ghost var before := df.rows;
    for k := 0 to |rule.keywords|
      invariant df.Valid() && df.columns == old(df.columns)
      invariant LabelCol !in df.columns ==> k == 0 && df.rows == before
      invariant df.rows == MapRows(before, r => AfterKeywords(reading, r, rule.category, rule.keywords[..k]))
    {
      if LabelCol !in df.columns {
        return false;
      }
      var keyword := rule.keywords[k];
      assert rule.keywords[..k + 1][..k] == rule.keywords[..k];
      var rs := df.rows;
      var mask := seq(|rs|, i requires 0 <= i < |rs| => Mask(reading, rs[i], keyword));
      df.AssignWhere(mask, CategoryCol, Text(rule.category));
    }
    assert rule.keywords[..|rule.keywords|] == rule.keywords;
    ok := true;
  }

  // categorize_transactions, properties

  /** As written, the mask never holds: a boolean never equals a string. */
  lemma AsWrittenMaskNeverHolds(r: Row, keyword: string)
    ensures !Mask(AsWritten, r, keyword)
  {
  }

  lemma {:induction false} AsWrittenKeywordsChangeNothing(r: Row, category: string, keywords: seq<string>)
    ensures AfterKeywords(AsWritten, r, category, keywords) == r
  {
    if keywords != [] {
      AsWrittenKeywordsChangeNothing(r, category, keywords[..|keywords| - 1]);
    }
  }

  /** As written, categorisation assigns no category to any row, whatever the
      rules and the labels. */
  lemma {:induction false} AsWrittenCategorizesNothing(r: Row, rules: seq<Rule>)
    ensures AfterRules(AsWritten, r, rules) == r
  {
    if rules != [] {
      var last := rules[|rules| - 1];
      AsWrittenCategorizesNothing(r, rules[..|rules| - 1]);
      AsWrittenKeywordsChangeNothing(r, last.category, last.keywords);
    }
  }

  /** Intended reading, one category: a blank row whose label contains any of
      the keywords receives the category; every other row is left alone. */
  lemma {:induction false} IntendedKeywords(r: Row, category: string, keywords: seq<string>)
    requires CategoryCol in r && category != ""
    ensures AfterKeywords(Intended, r, category, keywords) ==
      if IsBlank(r[CategoryCol]) && RuleMatches(At(r, LabelCol), Rule(category, keywords))
      then r[CategoryCol := Text(category)] else r
  {
    if keywords != [] {
      var n := |keywords| - 1;
      IntendedKeywords(r, category, keywords[..n]);
      assert keywords == keywords[..n] + [keywords[n]];
      RuleMatchesSnoc(At(r, LabelCol), category, keywords[..n], keywords[n]);
    }
  }

  /** Intended reading: a row whose category is NaN or empty receives the
      category of the FIRST rule, in rule order, that matches its label,
      because the mask is re-evaluated after each assignment; a row that
      already has a category, or whose label matches no rule, keeps its own. */
  lemma {:induction false} IntendedFirstMatchWins(r: Row, rules: seq<Rule>)
    requires CategoryCol in r
    requires forall j :: 0 <= j < |rules| ==> rules[j].category != ""
    ensures AfterRules(Intended, r, rules) ==
      if IsBlank(r[CategoryCol]) && FirstMatch(At(r, LabelCol), rules).Some?
      then r[CategoryCol := Text(FirstMatch(At(r, LabelCol), rules).value)] else r
  {
    if rules != [] {
      var n := |rules| - 1;
      var last := rules[n];
      var cell := At(r, LabelCol);
      IntendedFirstMatchWins(r, rules[..n]);
      var p := AfterRules(Intended, r, rules[..n]);
      IntendedKeywords(p, last.category, last.keywords);
      assert rules == rules[..n] + [last];
      FirstMatchSnoc(cell, rules[..n], last);
      if IsBlank(r[CategoryCol]) && FirstMatch(cell, rules[..n]).Some? {
        FirstMatchIsFirst(cell, rules[..n]);
        assert !IsBlank(p[CategoryCol]);
      }
    }
  }

  /** The discrepancy on one row: with the table of logic.py, an
      uncategorised rent payment stays uncategorised as written and is filed
      under "Loyer" as intended (the salary keywords are longer than its label,
      so the first rule cannot match it). */
  lemma AsWrittenMissesRent()
    ensures var r := map[LabelCol := Text("LOYER"), CategoryCol := Null];
      && At(AfterRules(AsWritten, r, CategorizationRules), CategoryCol) == Null
      && At(AfterRules(Intended, r, CategorizationRules), CategoryCol) == Text("Loyer")
  {
    var r := map[LabelCol := Text("LOYER"), CategoryCol := Null];
    assert At(r, LabelCol) == Text("LOYER") && IsBlank(r[CategoryCol]);
    AsWrittenCategorizesNothing(r, CategorizationRules);
    RentMatchesLoyer();
    IntendedFirstMatchWins(r, CategorizationRules);
    assert AfterRules(Intended, r, CategorizationRules) == r[CategoryCol := Text("Loyer")];
  }

  /** In the table of logic.py, "Loyer" is the first rule matching the label "LOYER". */
  lemma RentMatchesLoyer()
    ensures forall j :: 0 <= j < |CategorizationRules| ==> CategorizationRules[j].category != ""
    ensures FirstMatch(Text("LOYER"), CategorizationRules) == Some("Loyer")
  {
    var rules := CategorizationRules;
    var cell := Text("LOYER");
    assert Lower("LOYER") == "loyer";
    assert !RuleMatches(cell, SalaryRule) by {
      forall k | 0 <= k < |SalaryRule.keywords| ensures !LabelMatches(cell, SalaryRule.keywords[k]) {
        ShorterContainsNothingLonger(Lower("LOYER"), Lower(SalaryRule.keywords[k]));
      }
    }
    assert RuleMatches(cell, RentRule) by {
      assert Contains("loyer", "loyer");
      assert LabelMatches(cell, RentRule.keywords[0]);
    }
    assert rules[1..][0] == rules[1];
  }

  // ---------------------------------------------------------------------------
  // detect_recurrences

  /** The rows after detection when both the date and the simplified-label
      columns exist: dates parsed, rows sorted by date (NaT last), every row
      `Ponctuel` except those of qualifying groups. */
  function Detected(lib: Lib, rows: seq<Row>): (d: seq<Row>)
    ensures |d| == |rows|
    ensures forall i :: 0 <= i < |d| ==>
      BudgetCol in d[i] && (d[i][BudgetCol] == Text(Recurring) || d[i][BudgetCol] == Text(Punctual))
  {
    var parsed := MapRows(rows, r => r[DateCol := ToDatetime(lib.toDatetime, lib, At(r, DateCol))]);
    var sorted := Sorting.Sort(parsed, DateCol);
    Annotated(MapRows(sorted, r => r[BudgetCol := Text(Punctual)]), DateCol, SimpleLabelCol, BudgetCol, Recurring)
  }

  /** Updates the frame in place. Without a date or simplified-label column
      every row is `Ponctuel` and the order is kept. The amount column must be
      the numeric one preprocessing creates. */
  method DetectRecurrences(lib: Lib, df: Frame)
    requires df.Valid() && forall r :: r in df.rows ==> At(r, AmountCol).Num?
    modifies df
    ensures df.Valid() && df.columns == old(df.columns) + {BudgetCol}
    ensures DateCol !in old(df.columns) || SimpleLabelCol !in old(df.columns) ==>
      df.rows == MapRows(old(df.rows), r => r[BudgetCol := Text(Punctual)])
    ensures DateCol in old(df.columns) && SimpleLabelCol in old(df.columns) ==>
      df.rows == Detected(lib, old(df.rows))
  {
    if DateCol !in df.columns || SimpleLabelCol !in df.columns {
      df.SetColumn(BudgetCol, r => Text(Punctual));
      return;
    }
    ghost var parsed := MapRows(old(df.rows), r => r[DateCol := ToDatetime(lib.toDatetime, lib, At(r, DateCol))]);
    df.SetColumn(DateCol, r => ToDatetime(lib.toDatetime, lib, At(r, DateCol)));
    assert df.rows == parsed;
    df.SortByDate(DateCol);
    ghost var sorted := df.rows;
    df.SetColumn(BudgetCol, r => Text(Punctual));
    assert df.rows == MapRows(sorted, r => r[BudgetCol := Text(Punctual)]);
    MarkRecurringGroups(df, DateCol, SimpleLabelCol, BudgetCol, Recurring);
  }

  // detect_recurrences, properties

  /** After detection the rows are in date order, NaT last. */
  lemma DetectedSorted(lib: Lib, rows: seq<Row>)
    ensures Sorting.SortedBy(Detected(lib, rows), DateCol)
  {
    var parsed := MapRows(rows, r => r[DateCol := ToDatetime(lib.toDatetime, lib, At(r, DateCol))]);
    var sorted := Sorting.Sort(parsed, DateCol);
    Sorting.SortSorted(parsed, DateCol);
    var d := Detected(lib, rows);
    assert forall i :: 0 <= i < |d| ==> Sorting.DateKey(d[i], DateCol) == Sorting.DateKey(sorted[i], DateCol);
  }

  /** Row `i` of the detected frame is row `i` of the date-sorted frame with
      its budget type set: `Récurrente` exactly when its label is not NaN and
      its label group passes the four tests, `Ponctuel` otherwise. */
  lemma DetectedBudget(lib: Lib, rows: seq<Row>)
    ensures var parsed := MapRows(rows, r => r[DateCol := ToDatetime(lib.toDatetime, lib, At(r, DateCol))]);
      var marked := MapRows(Sorting.Sort(parsed, DateCol), r => r[BudgetCol := Text(Punctual)]);
      var d := Detected(lib, rows);
      && |d| == |rows|
      && forall i :: 0 <= i < |d| ==>
           && d[i] == marked[i][BudgetCol := d[i][BudgetCol]]
           && (d[i][BudgetCol] == Text(Recurring) <==>
                 At(marked[i], SimpleLabelCol) != Null
                 && Qualifies(Group(marked, SimpleLabelCol, At(marked[i], SimpleLabelCol)), DateCol))
           && (d[i][BudgetCol] == Text(Recurring) || d[i][BudgetCol] == Text(Punctual))
  {
    assert |Punctual| == 8 && |Recurring| == 10;
  }
}
