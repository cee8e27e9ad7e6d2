/** The newer ingestion path (app/services/finance_service.py): column-name
    normalisation, preprocessing, categorisation, recurrence detection, the
    fingerprint and the conversion of the final frame to `Transaction` records. */
module Finance {
  import opened Values
  import opened Text
  import opened Frames
  import opened Coercion
  import opened Categorization
  import Sorting
  import opened Recurrence
  import opened Models
  import Legacy

  const DebitCol := "debit"
  const CreditCol := "credit"
  const CategoryCol := "categorie"
  const LabelCol := "libelle_operation"
  const DateCol := "date_operation"
  const SimpleLabelCol := "libelle_simplifie"
  const BudgetCol := "type_budget"
  const HashCol := "hash"
  const AccountCol := "account_type"
  /** The date columns parsed as dd/mm/yyyy, in the order they are visited. */
  const DateCols := ["date_operation", "date_de_comptabilisation", "date_de_valeur"]

  /** The budget type written for a recurring group: as written, the UTF-8
      bytes of "Récurrente" decoded as Latin-1; as intended, "Récurrente". */
  function RecurringLabel(reading: Reading): string {
    match reading
    case AsWritten => "RÃ©currente"
    case Intended => "Récurrente"
  }

  // ---------------------------------------------------------------------------
  // _preprocess_dataframe

  /** The column names once every space is `_` and every letter lower case. */
  function NormalizedColumns(columns: set<string>): set<string> {
    set c | c in columns :: NormalizeColumnName(c)
  }

  /** The date loop on one row: each listed column the row has is parsed. */
  function ParsedDates(lib: Lib, dateCols: seq<string>, r: Row): (p: Row)
    ensures p.Keys == r.Keys
  {
    if dateCols == [] then r
    else
      var p := ParsedDates(lib, dateCols[..|dateCols| - 1], r);
      var col := dateCols[|dateCols| - 1];
      if col in p then p[col := ToDatetime(lib.toDatetimeDmy, lib, p[col])] else p
  }

  /** A row with numeric debit and credit and the amount `credit + debit`. */
  function WithAmount(lib: Lib, columns: set<string>, r: Row): Row {
    var debit := DebitValue(lib, columns, DebitCol, r);
    var credit := CreditValue(lib, columns, CreditCol, r);
    r[DebitCol := Num(debit)][CreditCol := Num(credit)][AmountCol := Num(credit + debit)]
  }

  /** A row of the normalised frame after preprocessing; `columns` are the
      normalised column names. */
  function PreprocessedRow(lib: Lib, columns: set<string>, r: Row): (p: Row)
    ensures p.Keys == r.Keys + {DebitCol, CreditCol, AmountCol}
    ensures p[DebitCol].Num? && p[CreditCol].Num? && p[AmountCol] == Num(p[CreditCol].x + p[DebitCol].x)
    ensures forall k :: k in r && k !in DateCols && k !in {DebitCol, CreditCol, AmountCol} ==> p[k] == r[k]
  {
    var w := WithAmount(lib, columns, r);
    ParsedDatesSpec(lib, DateCols, w);
    assert DebitCol !in DateCols && CreditCol !in DateCols && AmountCol !in DateCols;
    ParsedDates(lib, DateCols, w)
  }

  /** The debit, credit and amount blocks of `_preprocess_dataframe`. */
  method ComputeAmounts(lib: Lib, df: Frame)
    requires df.Valid()
    modifies df
    ensures df.Valid() && df.columns == old(df.columns) + {DebitCol, CreditCol, AmountCol}
    ensures |df.rows| == |old(df.rows)|
    ensures forall i :: 0 <= i < |df.rows| ==> df.rows[i] == WithAmount(lib, old(df.columns), old(df.rows)[i])
  {
    ghost var columns := df.columns;
    ghost var rows := df.rows;
    CoerceDebit(lib, df, DebitCol);
    ghost var rows1 := df.rows;
    CoerceCredit(lib, df, CreditCol);
    ghost var rows2 := df.rows;
    df.SetColumn(AmountCol, r => Num(NumOf(At(r, CreditCol)) + NumOf(At(r, DebitCol))));
    forall i | 0 <= i < |rows| ensures df.rows[i] == WithAmount(lib, columns, rows[i]) {
      assert rows1[i] == rows[i][DebitCol := Num(DebitValue(lib, columns, DebitCol, rows[i]))];
      assert rows2[i] == rows1[i][CreditCol := Num(CreditValue(lib, columns + {DebitCol}, CreditCol, rows1[i]))];
      assert df.rows[i] == rows2[i][AmountCol := Num(NumOf(At(rows2[i], CreditCol)) + NumOf(At(rows2[i], DebitCol)))];
      AmountSteps(lib, columns, rows[i]);
    }
  }

  /** The three column assignments, one after the other, give `WithAmount`. */
  lemma AmountSteps(lib: Lib, columns: set<string>, r: Row)
    ensures var r1 := r[DebitCol := Num(DebitValue(lib, columns, DebitCol, r))];
      var r2 := r1[CreditCol := Num(CreditValue(lib, columns + {DebitCol}, CreditCol, r1))];
      r2[AmountCol := Num(NumOf(At(r2, CreditCol)) + NumOf(At(r2, DebitCol)))] == WithAmount(lib, columns, r)
  {
    assert |DebitCol| == 5 && |CreditCol| == 6;
  }

  /** Parsing a cell that is already a date or NaT changes nothing. */
  lemma ToDatetimeIdempotent(parse: string -> Option<int>, lib: Lib, c: Cell)
    ensures ToDatetime(parse, lib, ToDatetime(parse, lib, c)) == ToDatetime(parse, lib, c)
  {
  }

  /** Each listed column the row has is parsed as dd/mm/yyyy, however often it
      is listed; every other cell is kept. */
  lemma {:induction false} ParsedDatesSpec(lib: Lib, dateCols: seq<string>, r: Row)
    ensures forall k :: k in r ==>
      ParsedDates(lib, dateCols, r)[k] == if k in dateCols then ToDatetime(lib.toDatetimeDmy, lib, r[k]) else r[k]
  {
    if dateCols != [] {
      var n := |dateCols| - 1;
      ParsedDatesSpec(lib, dateCols[..n], r);
      assert dateCols == dateCols[..n] + [dateCols[n]];
      forall k | k in r && k == dateCols[n] && k in dateCols[..n] {
        ToDatetimeIdempotent(lib.toDatetimeDmy, lib, r[k]);
      }
    }
  }

  /** The date loop of `_preprocess_dataframe`. */
  method ParseDateColumns(lib: Lib, df: Frame)
    requires df.Valid()
    modifies df
    ensures df.Valid() && df.columns == old(df.columns)
    ensures |df.rows| == |old(df.rows)|
    ensures forall i :: 0 <= i < |df.rows| ==> df.rows[i] == ParsedDates(lib, DateCols, old(df.rows)[i])
  {
    for k := 0 to |DateCols|
      invariant df.Valid() && df.columns == old(df.columns) && |df.rows| == |old(df.rows)|
      invariant forall i :: 0 <= i < |df.rows| ==> df.rows[i] == ParsedDates(lib, DateCols[..k], old(df.rows)[i])
    {
      var col := DateCols[k];
      assert DateCols[..k + 1][..k] == DateCols[..k];
      if col in df.columns {
        df.SetColumn(col, r => ToDatetime(lib.toDatetimeDmy, lib, At(r, col)));
      }
      forall i | 0 <= i < |df.rows|
        ensures df.rows[i] == ParsedDates(lib, DateCols[..k + 1], old(df.rows)[i])
      {
        assert old(df.rows)[i] in old(df.rows);
      }
    }
    assert DateCols[..|DateCols|] == DateCols;
  }

  /** `df.copy()` followed by `df.columns = [normalised names]`. */
  method NormalizeColumns(df: Frame) returns (out: Frame)
    requires df.Valid() && Injective(df.columns, NormalizeColumnName)
    ensures fresh(out) && out.Valid() && out.columns == NormalizedColumns(df.columns)
    ensures out.rows == RenamedRows(df.rows, NormalizeColumnName)
  {
    out := df.Copy();
    out.Rename(NormalizeColumnName);
  }

  /** `_preprocess_dataframe`: works on a copy. Two columns that normalise to
      the same name leave the frame with a duplicated column, which the later
      steps cannot handle; the model reports it as an error. */
  method PreprocessDataframe(lib: Lib, df: Frame) returns (result: Result<Frame, Failure>)
    requires df.Valid()
    ensures result.Ok? <==> Injective(df.columns, NormalizeColumnName)
    ensures result.Err? ==> result.error == DuplicateColumns
    ensures result.Ok? ==> var out := result.value;
      && fresh(out) && out.Valid()
      && out.columns == NormalizedColumns(df.columns) + {DebitCol, CreditCol, AmountCol}
      && (forall i :: 0 <= i < |df.rows| ==> df.rows[i].Keys == df.columns)
      && out.rows == PreprocessedRows(lib, df.columns, df.rows)
  {
    if !Injective(df.columns, NormalizeColumnName) {
      return Err(DuplicateColumns);
    }
    var out := PreprocessCopy(lib, df);
    return Ok(out);
  }

  /** `_preprocess_dataframe` on a frame whose column names normalise apart. */
  method PreprocessCopy(lib: Lib, df: Frame) returns (out: Frame)
    requires df.Valid() && Injective(df.columns, NormalizeColumnName)
    ensures fresh(out) && out.Valid()
    ensures out.columns == NormalizedColumns(df.columns) + {DebitCol, CreditCol, AmountCol}
    ensures forall i :: 0 <= i < |df.rows| ==> df.rows[i].Keys == df.columns
    ensures out.rows == PreprocessedRows(lib, df.columns, df.rows)
  {
    assert forall i :: 0 <= i < |df.rows| ==> df.rows[i] in df.rows;
    out := NormalizeColumns(df);
    Preprocess(lib, out, df.columns, df.rows);
  }

  /** The amount and date blocks of `_preprocess_dataframe` on the renamed
      frame, in place; `columns` and `rows` are the frame before the renaming. */
  method Preprocess(lib: Lib, df: Frame, ghost columns: set<string>, ghost rows: seq<Row>)
    requires df.Valid()
    requires forall i :: 0 <= i < |rows| ==> rows[i].Keys == columns
    requires Injective(columns, NormalizeColumnName)
    requires df.columns == NormalizedColumns(columns) && df.rows == RenamedRows(rows, NormalizeColumnName)
    modifies df
    ensures df.Valid() && df.columns == NormalizedColumns(columns) + {DebitCol, CreditCol, AmountCol}
    ensures df.rows == PreprocessedRows(lib, columns, rows)
  {
    ComputeAmounts(lib, df);
    ParseDateColumns(lib, df);
    PreprocessedRowsOf(lib, columns, rows, df.rows);
  }

  /** Rows preprocessed one by one after the renaming make up `PreprocessedRows`. */
  lemma PreprocessedRowsOf(lib: Lib, columns: set<string>, rows: seq<Row>, result: seq<Row>)
    requires forall i :: 0 <= i < |rows| ==> rows[i].Keys == columns
    requires Injective(columns, NormalizeColumnName)
    requires |result| == |rows|
    requires forall i :: 0 <= i < |rows| ==>
      result[i] == PreprocessedRow(lib, NormalizedColumns(columns), RenamedRows(rows, NormalizeColumnName)[i])
    ensures result == PreprocessedRows(lib, columns, rows)
  {
  }

  /** For every row, `montant = credit + debit`, each side coerced to 0 when
      missing or unparsable; each date column the row has is parsed as
      dd/mm/yyyy, a failure giving NaT; every other cell is kept. */
  lemma AmountIsCreditPlusDebit(lib: Lib, columns: set<string>, r: Row)
    ensures var p := PreprocessedRow(lib, columns, r);
      && p[AmountCol] == Num(CreditValue(lib, columns, CreditCol, r) + DebitValue(lib, columns, DebitCol, r))
      && p[DebitCol] == Num(DebitValue(lib, columns, DebitCol, r))
      && p[CreditCol] == Num(CreditValue(lib, columns, CreditCol, r))
      && (forall k :: k in r && k in DateCols ==> p[k] == ToDatetime(lib.toDatetimeDmy, lib, r[k]))
      && (forall k :: k in r && k !in DateCols && k !in {DebitCol, CreditCol, AmountCol} ==> p[k] == r[k])
  {
    ParsedDatesSpec(lib, DateCols, WithAmount(lib, columns, r));
  }

  /** Renaming "Debit" and "Credit" to "debit" and "credit" keeps their values. */
  lemma RenamedAmounts(lib: Lib, columns: set<string>, r: Row)
    requires r.Keys == columns && Injective(columns, NormalizeColumnName)
    requires Legacy.DebitCol in columns && Legacy.CreditCol in columns
    ensures var n := Renamed(r, NormalizeColumnName);
      && DebitValue(lib, NormalizedColumns(columns), DebitCol, n) == DebitValue(lib, columns, Legacy.DebitCol, r)
      && CreditValue(lib, NormalizedColumns(columns), CreditCol, n) == CreditValue(lib, columns, Legacy.CreditCol, r)
  {
    NormalizedAmountNames();
    var n := Renamed(r, NormalizeColumnName);
    assert DebitCol in NormalizedColumns(columns) && n[DebitCol] == r[Legacy.DebitCol];
    assert CreditCol in NormalizedColumns(columns) && n[CreditCol] == r[Legacy.CreditCol];
  }

  /** The bank export's "Debit" and "Credit" normalise to "debit" and "credit". */
  lemma NormalizedAmountNames()
    ensures NormalizeColumnName(Legacy.DebitCol) == DebitCol
    ensures NormalizeColumnName(Legacy.CreditCol) == CreditCol
  {
    NormalizesTo(Legacy.DebitCol, DebitCol);
    NormalizesTo(Legacy.CreditCol, CreditCol);
  }

  /** Character by character, a name without spaces normalises to its
      lower-case form. */
  lemma NormalizesTo(c: string, n: string)
    requires |c| == |n|
    requires forall i :: 0 <= i < |c| ==> c[i] != ' ' && LowerChar(c[i]) == n[i]
    ensures NormalizeColumnName(c) == n
  {
    forall i | 0 <= i < |c| ensures NormalizeColumnName(c)[i] == n[i] {
      ReplaceCharAt(c, ' ', '_', i);
      LowerAt(ReplaceChar(c, ' ', '_'), i);
    }
  }

  /** The two paths' signed amounts for the same bank export, which names its
      columns "Debit" and "Credit": the newer one exceeds the older one by twice
      the debit, so they agree exactly on rows without a debit. */
  lemma SignConventions(lib: Lib, columns: set<string>, r: Row)
    requires r.Keys == columns && Injective(columns, NormalizeColumnName)
    requires Legacy.DebitCol in columns && Legacy.CreditCol in columns
    ensures var newer := PreprocessedRow(lib, NormalizedColumns(columns), Renamed(r, NormalizeColumnName))[AmountCol];
      var older := Legacy.PreprocessedRow(lib, columns, r)[AmountCol];
      var debit := DebitValue(lib, columns, Legacy.DebitCol, r);
      && newer.Num? && older.Num?
      && newer.x - older.x == 2.0 * debit
      && (newer.x == older.x <==> debit == 0.0)
  {
    var n := Renamed(r, NormalizeColumnName);
    RenamedAmounts(lib, columns, r);
    AmountIsCreditPlusDebit(lib, NormalizedColumns(columns), n);
    Legacy.AmountIsCreditMinusDebit(lib, columns, r);
  }

  // ---------------------------------------------------------------------------
  // _categorize_transactions

  /** The keyword table of the ingestion service (app/core/config.py), in the
      order of its dict. */
  const CategorizationRules := [SalaryRule, RentRule, GroceriesRule, TransportRule, BillsRule, HealthRule, LeisureRule, ShoppingRule, WithdrawalRule, HomeRule, BankFeesRule]
  const SalaryRule := Rule("Salaire", ["VIREMENT SALAIRE", "SALAIRE"])
  const RentRule := Rule("Loyer", ["LOYER"])
  const GroceriesRule := Rule("Courses", ["CARREFOUR", "AUCHAN", "LIDL", "SUPER U", "INTERMARCHE", "MONOPRIX", "GRAND FRAIS", "E.LECLERC"])
  const TransportRule := Rule("Transport", ["SNCF", "RATP", "ESSENCE", "TOTAL", "SHELL", "PARKING"])
  const BillsRule := Rule("Factures", ["EDF", "ENGIE", "FREE", "ORANGE", "BOUYGUES", "SFR", "VEOLIA", "SYNELVA"])
  const HealthRule := Rule("Santé", ["PHARMACIE", "DOCTEUR", "MUTUELLE", "BPCE MUTUELLE"])
  const LeisureRule := Rule("Loisirs", ["CINEMA", "NETFLIX", "SPOTIFY", "RESTAURANT", "ZOO", "CITE DE LA VOILE"])
  const ShoppingRule := Rule("Shopping", ["AMAZON", "FNAC", "ZALANDO", "H&M", "KIABI", "Vinted", "LA HALLE"])
  const WithdrawalRule := Rule("Retrait", ["RETRAIT DAB", "RETRAIT D'ESPECES"])
  const HomeRule := Rule("Maison", ["LEROY MERLIN", "BUT", "CONFORAMA", "JARDILAND", "ACTION", "IKEA"])
  const BankFeesRule := Rule("Frais Bancaires", ["COTISATIONS BANCAIRES", "FRAIS BANCAIRES"])

  /** `df['categorie']` once a missing column has been added as '' and NaN
      filled with ''. */
  function FilledRow(r: Row): (p: Row)
    ensures p.Keys == r.Keys + {CategoryCol}
  {
    r[CategoryCol := if At(r, CategoryCol) == Null then Text("") else r[CategoryCol]]
  }

  /** The candidate mask on one category cell: the empty string, or a string
      containing one of `uncategorized` ignoring case. The keywords are joined
      with '|' into one pattern; an empty list joins to the empty pattern,
      which every string contains. A cell that is not a string never matches. */
  predicate IsCandidate(c: Cell, uncategorized: seq<string>) {
    || c == Text("")
    || (c.Text? && uncategorized == [])
    || exists k :: 0 <= k < |uncategorized| && LabelMatches(c, uncategorized[k])
  }

  /** A row after the keyword loop of one category, with the candidate flag
      `candidate` fixed before the loops start. */
  function FixedKeywords(candidate: bool, r: Row, category: string, keywords: seq<string>): Row {
    if keywords == [] then r
    else
      var p := FixedKeywords(candidate, r, category, keywords[..|keywords| - 1]);
      if candidate && LabelMatches(At(p, LabelCol), keywords[|keywords| - 1]) then p[CategoryCol := Text(category)] else p
  }

  /** A row after the loops over `rules`. */
  function FixedRules(candidate: bool, r: Row, rules: seq<Rule>): Row {
    if rules == [] then r
    else
      var last := rules[|rules| - 1];
      FixedKeywords(candidate, FixedRules(candidate, r, rules[..|rules| - 1]), last.category, last.keywords)
  }

  /** One category's keyword loop gives a candidate row the category exactly
      when the label matches one of the keywords. */
  lemma {:induction false} FixedKeywordsSpec(candidate: bool, r: Row, category: string, keywords: seq<string>)
    ensures FixedKeywords(candidate, r, category, keywords) ==
      if candidate && RuleMatches(At(r, LabelCol), Rule(category, keywords)) then r[CategoryCol := Text(category)] else r
  {
    if keywords != [] {
      var n := |keywords| - 1;
      FixedKeywordsSpec(candidate, r, category, keywords[..n]);
      assert keywords == keywords[..n] + [keywords[n]];
      RuleMatchesSnoc(At(r, LabelCol), category, keywords[..n], keywords[n]);
    }
  }

  /** Because the mask is not recomputed, a candidate row ends with the category
      of the LAST rule, in rule order, that matches its label; any other row is
      unchanged. */
  lemma {:induction false} LastMatchWins(candidate: bool, r: Row, rules: seq<Rule>)
    ensures FixedRules(candidate, r, rules) ==
      if candidate && LastMatch(At(r, LabelCol), rules).Some?
      then r[CategoryCol := Text(LastMatch(At(r, LabelCol), rules).value)] else r
  {
    if rules != [] {
      var n := |rules| - 1;
      LastMatchWins(candidate, r, rules[..n]);
      FixedKeywordsSpec(candidate, FixedRules(candidate, r, rules[..n]), rules[n].category, rules[n].keywords);
    }
  }

  /** A row after `_categorize_transactions`. */
  function CategorizedRow(rules: seq<Rule>, uncategorized: seq<string>, r: Row): (p: Row)
    ensures p.Keys == r.Keys + {CategoryCol}
    ensures p[CategoryCol] != Null
    ensures forall k :: k in r && k != CategoryCol ==> p[k] == r[k]
    ensures !IsCandidate(FilledRow(r)[CategoryCol], uncategorized) ==> p == FilledRow(r)
  {
    var f := FilledRow(r);
    var m := LastMatch(At(f, LabelCol), rules);
    if IsCandidate(f[CategoryCol], uncategorized) && m.Some? then f[CategoryCol := Text(m.value)] else f
  }

  /** With the service's table, an uncategorised row whose label mentions
      "frais bancaires" in any case is filed under "Frais Bancaires", whatever
      else the label mentions: that rule comes last, and the last match wins. */
  lemma BankFeesLabelCategorized(uncategorized: seq<string>, r: Row)
    requires At(r, CategoryCol) == Null || At(r, CategoryCol) == Text("")
    requires At(r, LabelCol).Text? && Contains(Lower(At(r, LabelCol).s), "frais bancaires")
    ensures CategorizedRow(CategorizationRules, uncategorized, r)[CategoryCol] == Text("Frais Bancaires")
  {
    var cell := At(r, LabelCol);
    BankFeesKeyword();
    assert LabelMatches(cell, BankFeesRule.keywords[1]);
    assert LastMatch(cell, CategorizationRules) == Some("Frais Bancaires") by {
      assert CategorizationRules[|CategorizationRules| - 1] == BankFeesRule;
    }
    BlankRowTakesLastMatch(CategorizationRules, uncategorized, r);
  }

  lemma BankFeesKeyword()
    ensures Lower(BankFeesRule.keywords[1]) == "frais bancaires"
  {
    LowerOf(BankFeesRule.keywords[1], "frais bancaires");
  }

  /** A row whose category is NaN or empty is a candidate, so it takes the
      category of the last matching rule. */
  lemma BlankRowTakesLastMatch(rules: seq<Rule>, uncategorized: seq<string>, r: Row)
    requires At(r, CategoryCol) == Null || At(r, CategoryCol) == Text("")
    requires LastMatch(At(r, LabelCol), rules).Some?
    ensures CategorizedRow(rules, uncategorized, r)[CategoryCol] == Text(LastMatch(At(r, LabelCol), rules).value)
  {
    assert At(FilledRow(r), LabelCol) == At(r, LabelCol);
  }

  /** Adds and fills the category column. */
  method FillCategory(df: Frame)
    requires df.Valid()
    modifies df
    ensures df.Valid() && df.columns == old(df.columns) + {CategoryCol}
    ensures df.rows == MapRows(old(df.rows), FilledRow)
  {
    if CategoryCol !in df.columns {
      df.SetColumn(CategoryCol, r => Text(""));
    }
    df.SetColumn(CategoryCol, r => if At(r, CategoryCol) == Null then Text("") else At(r, CategoryCol));
    forall i | 0 <= i < |df.rows| ensures df.rows[i] == FilledRow(old(df.rows)[i]) {
      assert old(df.rows)[i] in old(df.rows);
    }
  }

  /** `_categorize_transactions`, in place. Without a label column the first
      keyword lookup raises `KeyError` (`ok` false) after the category column
      was filled. */
  method CategorizeTransactions(df: Frame, rules: seq<Rule>, uncategorized: seq<string>) returns (ok: bool)
    requires df.Valid()
    modifies df
    ensures df.Valid() && df.columns == old(df.columns) + {CategoryCol}
    ensures ok <==> LabelCol in old(df.columns) || !HasKeyword(rules)
    ensures |df.rows| == |old(df.rows)|
    ensures forall i :: 0 <= i < |df.rows| ==>
      df.rows[i] == if ok then CategorizedRow(rules, uncategorized, old(df.rows)[i]) else FilledRow(old(df.rows)[i])
  {
    FillCategory(df);
    var start := df.rows;
    var candidate := seq(|start|, i requires 0 <= i < |start| => IsCandidate(start[i][CategoryCol], uncategorized));
    for c := 0 to |rules|
      invariant df.Valid() && df.columns == old(df.columns) + {CategoryCol} && |df.rows| == |start|
      invariant forall i :: 0 <= i < |start| ==> df.rows[i] == FixedRules(candidate[i], start[i], rules[..c])
      invariant LabelCol !in df.columns ==> !HasKeyword(rules[..c])
    {
      var rule := rules[c];
      assert rules[..c + 1] == rules[..c] + [rule];
      for k := 0 to |rule.keywords|
        invariant df.Valid() && df.columns == old(df.columns) + {CategoryCol} && |df.rows| == |start|
        invariant forall i :: 0 <= i < |start| ==>
          df.rows[i] == FixedKeywords(candidate[i], FixedRules(candidate[i], start[i], rules[..c]), rule.category, rule.keywords[..k])
        invariant LabelCol !in df.columns ==> k == 0
      {
        if LabelCol !in df.columns {
          forall i | 0 <= i < |start| ensures df.rows[i] == FilledRow(old(df.rows)[i]) {
            LastMatchWins(candidate[i], start[i], rules[..c]);
            LastMatchIsLast(At(start[i], LabelCol), rules[..c]);
          }
          return false;
        }
        var keyword := rule.keywords[k];
        assert rule.keywords[..k + 1] == rule.keywords[..k] + [keyword];
        var rows := df.rows;
        df.AssignWhere(seq(|rows|, i requires 0 <= i < |rows| => candidate[i] && LabelMatches(At(rows[i], LabelCol), keyword)),
                       CategoryCol, Text(rule.category));
      }
      assert rule.keywords[..|rule.keywords|] == rule.keywords;
      assert LabelCol !in df.columns ==> rule.keywords == [];
    }
    assert rules[..|rules|] == rules;
    forall i | 0 <= i < |start|
      ensures df.rows[i] == CategorizedRow(rules, uncategorized, old(df.rows)[i])
    {
      LastMatchWins(candidate[i], start[i], rules);
    }
    return true;
  }

  // ---------------------------------------------------------------------------
  // _detect_recurrences

  /** The frame after `_detect_recurrences`: every row is `Ponctuel`, and when
      the date and simplified-label columns exist the frame is sorted by date
      and each recurring group is relabelled. */
  function Detected(reading: Reading, columns: set<string>, rows: seq<Row>): (d: seq<Row>)
    ensures |d| == |rows|
    ensures forall i :: 0 <= i < |d| ==>
      BudgetCol in d[i] && (d[i][BudgetCol] == Text(Punctual) || d[i][BudgetCol] == Text(RecurringLabel(reading)))
  {
    var marked := MapRows(rows, r => r[BudgetCol := Text(Punctual)]);
    if DateCol !in columns || SimpleLabelCol !in columns then marked
    else Annotated(Sorting.Sort(marked, DateCol), DateCol, SimpleLabelCol, BudgetCol, RecurringLabel(reading))
  }

  /** `_detect_recurrences`, in place. */
  method DetectRecurrences(df: Frame, reading: Reading)
    requires df.Valid()
    modifies df
    ensures df.Valid() && df.columns == old(df.columns) + {BudgetCol}
    ensures df.rows == Detected(reading, old(df.columns), old(df.rows))
  {
    df.SetColumn(BudgetCol, r => Text(Punctual));
    if DateCol !in df.columns || SimpleLabelCol !in df.columns {
      return;
    }
    ghost var marked := df.rows;
    assert marked == MapRows(old(df.rows), r => r[BudgetCol := Text(Punctual)]);
    df.SortByDate(DateCol);
    assert df.rows == Sorting.Sort(marked, DateCol);
    Sorting.SortMembers(marked, DateCol);
    assert forall r :: r in df.rows ==> r[BudgetCol] == Text(Punctual);
    MarkRecurringGroups(df, DateCol, SimpleLabelCol, BudgetCol, RecurringLabel(reading));
  }

  /** Each detected row is an input row with its budget type set. */
  lemma DetectedFromInput(reading: Reading, columns: set<string>, rows: seq<Row>)
    ensures forall i :: 0 <= i < |rows| ==> var d := Detected(reading, columns, rows)[i];
      BudgetCol in d && exists j :: 0 <= j < |rows| && d == rows[j][BudgetCol := d[BudgetCol]]
  {
    var marked := MapRows(rows, r => r[BudgetCol := Text(Punctual)]);
    var d := Detected(reading, columns, rows);
    if DateCol in columns && SimpleLabelCol in columns {
      var sorted := Sorting.Sort(marked, DateCol);
      Sorting.SortMembers(marked, DateCol);
      forall i | 0 <= i < |rows|
        ensures BudgetCol in d[i] && exists j :: 0 <= j < |rows| && d[i] == rows[j][BudgetCol := d[i][BudgetCol]]
      {
        assert sorted[i] in marked;
        var j :| 0 <= j < |marked| && marked[j] == sorted[i];
        assert d[i] == rows[j][BudgetCol := d[i][BudgetCol]];
      }
    } else {
      forall i | 0 <= i < |rows|
        ensures BudgetCol in d[i] && exists j :: 0 <= j < |rows| && d[i] == rows[j][BudgetCol := d[i][BudgetCol]]
      {
        assert d[i] == rows[i][BudgetCol := d[i][BudgetCol]];
      }
    }
  }

  /** A detected row's budget type is the recurring label exactly when the row
      belongs to a qualifying group of the date-sorted frame, and `Ponctuel`
      otherwise; without the date or simplified-label column it is always
      `Ponctuel`. */
  lemma DetectedBudget(reading: Reading, columns: set<string>, rows: seq<Row>)
    ensures DateCol !in columns || SimpleLabelCol !in columns ==>
      forall i :: 0 <= i < |rows| ==> Detected(reading, columns, rows)[i][BudgetCol] == Text(Punctual)
    ensures DateCol in columns && SimpleLabelCol in columns ==>
      var sorted := Sorting.Sort(MapRows(rows, r => r[BudgetCol := Text(Punctual)]), DateCol);
      forall i :: 0 <= i < |rows| ==>
        Detected(reading, columns, rows)[i][BudgetCol] ==
          Text(if IsRecurring(sorted, DateCol, SimpleLabelCol, sorted[i]) then RecurringLabel(reading) else Punctual)
  {
  }

  /** The detected frame is in date order, NaT last, whenever detection runs. */
  lemma DetectedSorted(reading: Reading, columns: set<string>, rows: seq<Row>)
    requires DateCol in columns && SimpleLabelCol in columns
    ensures Sorting.SortedBy(Detected(reading, columns, rows), DateCol)
  {
    var sorted := Sorting.Sort(MapRows(rows, r => r[BudgetCol := Text(Punctual)]), DateCol);
    Sorting.SortSorted(MapRows(rows, r => r[BudgetCol := Text(Punctual)]), DateCol);
    var d := Detected(reading, columns, rows);
    assert forall i :: 0 <= i < |d| ==> Sorting.DateKey(d[i], DateCol) == Sorting.DateKey(sorted[i], DateCol);
  }

  // ---------------------------------------------------------------------------
  // _calculate_hash

  /** The string whose SHA-256 digest is the fingerprint: `str()` of the date,
      the label and the amount, then the account type. As written the date and
      label are looked up under the bank export's original column names; as
      intended, under the normalised ones. A missing key gives ''. */
  function HashInput(lib: Lib, reading: Reading, r: Row, accountType: string): string {
    var dateKey := if reading == AsWritten then Legacy.DateCol else DateCol;
    var labelKey := if reading == AsWritten then Legacy.LabelCol else LabelCol;
    Show(lib, GetOr(r, dateKey, Text(""))) + Show(lib, GetOr(r, labelKey, Text("")))
      + Show(lib, GetOr(r, AmountCol, Text(""))) + accountType
  }

  /** Under either reading the fingerprint input ends with the account type,
      preceded by the amount text. */
  lemma HashInputEnds(lib: Lib, reading: Reading, r: Row, accountType: string)
    ensures var h := HashInput(lib, reading, r, accountType);
      var tail := Show(lib, GetOr(r, AmountCol, Text(""))) + accountType;
      |h| >= |tail| && h[|h| - |tail|..] == tail
  {
    var h := HashInput(lib, reading, r, accountType);
    var tail := Show(lib, GetOr(r, AmountCol, Text(""))) + accountType;
    var dateKey := if reading == AsWritten then Legacy.DateCol else DateCol;
    var labelKey := if reading == AsWritten then Legacy.LabelCol else LabelCol;
    var front := Show(lib, GetOr(r, dateKey, Text(""))) + Show(lib, GetOr(r, labelKey, Text("")));
    assert h == front + tail;
    assert h[|front|..] == tail;
  }

  /** `_calculate_hash` */
  function CalculateHash(lib: Lib, reading: Reading, r: Row, accountType: string): string {
    lib.sha256(HashInput(lib, reading, r, accountType))
  }

  /** No normalised column name contains a space, so "Date operation" and
      "Libelle operation" are never among them. */
  lemma NormalizedExcludesOriginalNames(columns: set<string>)
    ensures Legacy.DateCol !in NormalizedColumns(columns)
    ensures Legacy.LabelCol !in NormalizedColumns(columns)
  {
    if Legacy.DateCol in NormalizedColumns(columns) {
      var c :| c in columns && NormalizeColumnName(c) == Legacy.DateCol;
      NormalizeColumnNameAt(c, 4);
      assert false;
    }
    if Legacy.LabelCol in NormalizedColumns(columns) {
      var c :| c in columns && NormalizeColumnName(c) == Legacy.LabelCol;
      NormalizeColumnNameAt(c, 7);
      assert false;
    }
  }

  /** As written, on a row without the original date and label names the
      fingerprint is a function of the amount and the account type alone: two
      such rows with the same amount collide whatever their dates and labels. */
  lemma AsWrittenHashIgnoresDateAndLabel(lib: Lib, r1: Row, r2: Row, accountType: string)
    requires Legacy.DateCol !in r1 && Legacy.LabelCol !in r1
    requires Legacy.DateCol !in r2 && Legacy.LabelCol !in r2
    requires GetOr(r1, AmountCol, Text("")) == GetOr(r2, AmountCol, Text(""))
    ensures HashInput(lib, AsWritten, r1, accountType) == Show(lib, GetOr(r1, AmountCol, Text(""))) + accountType
    ensures CalculateHash(lib, AsWritten, r1, accountType) == CalculateHash(lib, AsWritten, r2, accountType)
  {
  }

  /** As intended, two rows that agree on the date text, the amount text and
      the account type get the same fingerprint input exactly when their label
      texts agree. */
  lemma {:induction false} IntendedHashSeparatesLabels(lib: Lib, r1: Row, r2: Row, accountType: string)
    requires Show(lib, GetOr(r1, DateCol, Text(""))) == Show(lib, GetOr(r2, DateCol, Text("")))
    requires Show(lib, GetOr(r1, AmountCol, Text(""))) == Show(lib, GetOr(r2, AmountCol, Text("")))
    ensures HashInput(lib, Intended, r1, accountType) == HashInput(lib, Intended, r2, accountType)
      <==> Show(lib, GetOr(r1, LabelCol, Text(""))) == Show(lib, GetOr(r2, LabelCol, Text("")))
  {
    var d := Show(lib, GetOr(r1, DateCol, Text("")));
    var m := Show(lib, GetOr(r1, AmountCol, Text(""))) + accountType;
    var l1 := Show(lib, GetOr(r1, LabelCol, Text("")));
    var l2 := Show(lib, GetOr(r2, LabelCol, Text("")));
    assert HashInput(lib, Intended, r1, accountType) == d + l1 + m;
    assert HashInput(lib, Intended, r2, accountType) == d + l2 + m;
    SameMiddle(d, l1, l2, m);
  }

  /** Two strings with the same prefix and suffix are equal exactly when
      their middles are. */
  lemma SameMiddle(d: string, l1: string, l2: string, m: string)
    ensures d + l1 + m == d + l2 + m <==> l1 == l2
  {
    if d + l1 + m == d + l2 + m {
      assert |l1| == |l2|;
      assert l1 == (d + l1 + m)[|d|..|d| + |l1|];
      assert l2 == (d + l2 + m)[|d|..|d| + |l2|];
    }
  }

  // ---------------------------------------------------------------------------
  // process_transactions_from_df

  /** The renaming of the final frame's columns to the record's field names. */
  const RecordNames := map[
    "date_de_comptabilisation" := "date_compte",
    "libelle_simplifie" := "libelle_simple",
    "libelle_operation" := "libelle_op",
    "informations_complementaires" := "info_complementaires",
    "type_operation" := "type_op",
    "sous_categorie" := "sous_categorie",
    "date_operation" := "date_op",
    "date_de_valeur" := "date_valeur",
    "pointage_operation" := "pointage_op"]

  function RecordName(c: string): string {
    if c in RecordNames then RecordNames[c] else c
  }

  /** `Transaction(**fields)` on a renamed row: the columns that are not
      fields are dropped, NaT dates become None and absent optional fields take
      their defaults. `None` when a required field is missing, which raises
      `TypeError`. */
  function ToTransaction(r: Row): Option<Transaction> {
    if !("hash" in r && "account_type" in r && "montant" in r && "date_op" in r && "libelle_op" in r) then None
    else Some(Transaction(
      TextOf(r["hash"]), TextOf(r["account_type"]), NumOf(r["montant"]), DayOf(r["date_op"]), r["libelle_op"],
      DayOf(At(r, "date_compte")), At(r, "libelle_simple"), At(r, "reference"), At(r, "info_complementaires"),
      At(r, "type_op"), At(r, "categorie"), At(r, "sous_categorie"), At(r, "debit"), At(r, "credit"),
      DayOf(At(r, "date_valeur")), GetOr(r, "pointage_op", Num(0.0)), TextOf(GetOr(r, "type_budget", Text(Punctual)))))
  }

  /** A row with its fingerprint and account type. */
  function Stamped(lib: Lib, reading: Reading, accountType: string, r: Row): Row {
    r[HashCol := Text(CalculateHash(lib, reading, r, accountType))][AccountCol := Text(accountType)]
  }

  /** The columns of the final frame, before the renaming to field names. */
  function FinalColumns(columns: set<string>): set<string> {
    NormalizedColumns(columns) + {DebitCol, CreditCol, AmountCol, CategoryCol, BudgetCol, HashCol, AccountCol}
  }

  /** The frame after `_preprocess_dataframe`. */
  function PreprocessedRows(lib: Lib, columns: set<string>, rows: seq<Row>): (p: seq<Row>)
    requires forall i :: 0 <= i < |rows| ==> rows[i].Keys == columns
    requires Injective(columns, NormalizeColumnName)
    ensures |p| == |rows|
  {
    var renamed := RenamedRows(rows, NormalizeColumnName);
    seq(|rows|, i requires 0 <= i < |rows| => PreprocessedRow(lib, NormalizedColumns(columns), renamed[i]))
  }

  /** The frame after `_categorize_transactions` succeeded. */
  function CategorizedRows(rules: seq<Rule>, uncategorized: seq<string>, rows: seq<Row>): seq<Row> {
    MapRows(rows, r => CategorizedRow(rules, uncategorized, r))
  }

  /** The columns after categorisation. */
  function CategorizedColumns(columns: set<string>): set<string> {
    NormalizedColumns(columns) + {DebitCol, CreditCol, AmountCol, CategoryCol}
  }

  /** The frame after preprocessing, categorisation and recurrence detection. */
  function DetectedRows(lib: Lib, reading: Reading, rules: seq<Rule>, uncategorized: seq<string>,
                        columns: set<string>, rows: seq<Row>): (d: seq<Row>)
    requires forall i :: 0 <= i < |rows| ==> rows[i].Keys == columns
    requires Injective(columns, NormalizeColumnName)
    ensures |d| == |rows|
  {
    Detected(reading, CategorizedColumns(columns), CategorizedRows(rules, uncategorized, PreprocessedRows(lib, columns, rows)))
  }

  /** The frame after preprocessing, categorisation, recurrence detection and
      stamping, before the renaming to field names. */
  function FinalRows(lib: Lib, reading: Reading, rules: seq<Rule>, uncategorized: seq<string>, accountType: string,
                     columns: set<string>, rows: seq<Row>): (f: seq<Row>)
    requires forall i :: 0 <= i < |rows| ==> rows[i].Keys == columns
    requires Injective(columns, NormalizeColumnName)
    ensures |f| == |rows|
  {
    MapRows(DetectedRows(lib, reading, rules, uncategorized, columns, rows), r => Stamped(lib, reading, accountType, r))
  }

  /** A preprocessed, categorised row holds a numeric amount, and its
      operation date, when it has one, is a date or NaT. */
  lemma CategorizedCells(lib: Lib, columns: set<string>, rules: seq<Rule>, uncategorized: seq<string>, r: Row)
    ensures var q := CategorizedRow(rules, uncategorized, PreprocessedRow(lib, columns, r));
      && q[AmountCol].Num?
      && (DateCol in q ==> q[DateCol] == Null || q[DateCol].Day?)
  {
    AmountIsCreditPlusDebit(lib, columns, r);
  }

  /** Every categorised row has the categorised columns, holds a numeric
      amount, and its operation date, when the frame has one, is a date or NaT. */
  lemma CategorizedRowsCells(lib: Lib, rules: seq<Rule>, uncategorized: seq<string>, columns: set<string>, rows: seq<Row>)
    requires forall i :: 0 <= i < |rows| ==> rows[i].Keys == columns
    requires Injective(columns, NormalizeColumnName)
    ensures var c := CategorizedRows(rules, uncategorized, PreprocessedRows(lib, columns, rows));
      forall j :: 0 <= j < |rows| ==>
        && c[j].Keys == CategorizedColumns(columns)
        && c[j][AmountCol].Num?
        && (DateCol in c[j] ==> c[j][DateCol] == Null || c[j][DateCol].Day?)
  {
    var renamed := RenamedRows(rows, NormalizeColumnName);
    forall j | 0 <= j < |rows| {
      CategorizedCells(lib, NormalizedColumns(columns), rules, uncategorized, renamed[j]);
    }
  }

  /** Every detected row has the categorised columns and the budget type,
      holds a numeric amount, and its operation date, when the frame has one,
      is a date or NaT. */
  lemma DetectedRowsCells(lib: Lib, reading: Reading, rules: seq<Rule>, uncategorized: seq<string>,
                          columns: set<string>, rows: seq<Row>)
    requires forall i :: 0 <= i < |rows| ==> rows[i].Keys == columns
    requires Injective(columns, NormalizeColumnName)
    ensures var d := DetectedRows(lib, reading, rules, uncategorized, columns, rows);
      forall i :: 0 <= i < |rows| ==>
        && d[i].Keys == CategorizedColumns(columns) + {BudgetCol}
        && d[i][AmountCol].Num?
        && (DateCol in d[i] ==> d[i][DateCol] == Null || d[i][DateCol].Day?)
  {
    var categorized := CategorizedRows(rules, uncategorized, PreprocessedRows(lib, columns, rows));
    var d := DetectedRows(lib, reading, rules, uncategorized, columns, rows);
    CategorizedRowsCells(lib, rules, uncategorized, columns, rows);
    DetectedFromInput(reading, CategorizedColumns(columns), categorized);
    forall i | 0 <= i < |rows|
      ensures d[i].Keys == CategorizedColumns(columns) + {BudgetCol}
      ensures d[i][AmountCol].Num? && (DateCol in d[i] ==> d[i][DateCol] == Null || d[i][DateCol].Day?)
    {
      var j :| 0 <= j < |rows| && d[i] == categorized[j][BudgetCol := d[i][BudgetCol]];
    }
  }

  /** Every final row has exactly the final columns. */
  lemma FinalRowsKeys(lib: Lib, reading: Reading, rules: seq<Rule>, uncategorized: seq<string>, accountType: string,
                      columns: set<string>, rows: seq<Row>)
    requires forall i :: 0 <= i < |rows| ==> rows[i].Keys == columns
    requires Injective(columns, NormalizeColumnName)
    ensures forall i :: 0 <= i < |rows| ==>
      FinalRows(lib, reading, rules, uncategorized, accountType, columns, rows)[i].Keys == FinalColumns(columns)
  {
    DetectedRowsCells(lib, reading, rules, uncategorized, columns, rows);
  }

  /** The final frame with its columns renamed to the record's field names. */
  function RecordRows(lib: Lib, reading: Reading, rules: seq<Rule>, uncategorized: seq<string>, accountType: string,
                      columns: set<string>, rows: seq<Row>): (records: seq<Row>)
    requires forall i :: 0 <= i < |rows| ==> rows[i].Keys == columns
    requires Injective(columns, NormalizeColumnName) && Injective(FinalColumns(columns), RecordName)
    ensures |records| == |rows|
  {
    FinalRowsKeys(lib, reading, rules, uncategorized, accountType, columns, rows);
    RenamedRows(FinalRows(lib, reading, rules, uncategorized, accountType, columns, rows), RecordName)
  }

  /** The records `process_transactions_from_df` returns, or the error it raises. */
  function Ledger(lib: Lib, reading: Reading, rules: seq<Rule>, uncategorized: seq<string>, accountType: string,
                  columns: set<string>, rows: seq<Row>): (result: Result<seq<Transaction>, Failure>)
    requires forall i :: 0 <= i < |rows| ==> rows[i].Keys == columns
    ensures !Injective(columns, NormalizeColumnName) ==> result == Err(DuplicateColumns)
    ensures Injective(columns, NormalizeColumnName) && LabelCol !in NormalizedColumns(columns) && HasKeyword(rules) ==>
      result == Err(MissingColumn(LabelCol))
  {
    if !Injective(columns, NormalizeColumnName) then Err(DuplicateColumns)
    else if LabelCol !in NormalizedColumns(columns) && HasKeyword(rules) then Err(MissingColumn(LabelCol))
    else if !Injective(FinalColumns(columns), RecordName) then Err(DuplicateColumns)
    else
      var records := RecordRows(lib, reading, rules, uncategorized, accountType, columns, rows);
      if exists i :: 0 <= i < |records| && ToTransaction(records[i]).None? then Err(MissingFields)
      else Ok(Records(records))
  }

  /** Stamps every row with its fingerprint and the account type. */
  method StampRows(lib: Lib, df: Frame, reading: Reading, accountType: string)
    requires df.Valid()
    modifies df
    ensures df.Valid() && df.columns == old(df.columns) + {HashCol, AccountCol}
    ensures df.rows == MapRows(old(df.rows), r => Stamped(lib, reading, accountType, r))
  {
    df.SetColumn(HashCol, r => Text(CalculateHash(lib, reading, r, accountType)));
    df.SetColumn(AccountCol, r => Text(accountType));
  }

  /** The records of rows that all carry the required fields. */
  function Records(rows: seq<Row>): (ts: seq<Transaction>)
    requires forall i :: 0 <= i < |rows| ==> ToTransaction(rows[i]).Some?
    ensures |ts| == |rows| && forall i :: 0 <= i < |rows| ==> Some(ts[i]) == ToTransaction(rows[i])
  {
    seq(|rows|, i requires 0 <= i < |rows| => ToTransaction(rows[i]).value)
  }

  /** The loop over `iterrows()`: converts every row of the renamed frame,
      stopping at the first that lacks a required field. */
  method ToTransactions(rows: seq<Row>) returns (result: Result<seq<Transaction>, Failure>)
    ensures result.Err? <==> exists i :: 0 <= i < |rows| && ToTransaction(rows[i]).None?
    ensures result.Err? ==> result.error == MissingFields
    ensures result.Ok? ==> result.value == Records(rows)
  {
    var transactions: seq<Transaction> := [];
    for i := 0 to |rows|
      invariant |transactions| == i
      invariant forall j :: 0 <= j < i ==> ToTransaction(rows[j]) == Some(transactions[j])
    {
      var t := ToTransaction(rows[i]);
      if t.None? {
        return Err(MissingFields);
      }
      transactions := transactions + [t.value];
    }
    return Ok(transactions);
  }

  /** Preprocessing and categorisation on a fresh frame. */
  method PrepareFrame(lib: Lib, df: Frame, rules: seq<Rule>, uncategorized: seq<string>) returns (result: Result<Frame, Failure>)
    requires df.Valid()
    ensures result.Err? <==>
      (!Injective(df.columns, NormalizeColumnName) || (LabelCol !in NormalizedColumns(df.columns) && HasKeyword(rules)))
    ensures result.Err? ==>
      result.error == if !Injective(df.columns, NormalizeColumnName) then DuplicateColumns else MissingColumn(LabelCol)
    ensures result.Ok? ==> var f := result.value;
      && fresh(f) && f.Valid() && f.columns == NormalizedColumns(df.columns) + {DebitCol, CreditCol, AmountCol, CategoryCol}
      && (forall i :: 0 <= i < |df.rows| ==> df.rows[i].Keys == df.columns)
      && Injective(df.columns, NormalizeColumnName)
      && f.rows == CategorizedRows(rules, uncategorized, PreprocessedRows(lib, df.columns, df.rows))
  {
    var pre := PreprocessDataframe(lib, df);
    if pre.Err? {
      return Err(pre.error);
    }
    var frame := pre.value;
    ghost var preprocessed := frame.rows;
    var ok := CategorizeTransactions(frame, rules, uncategorized);
    if !ok {
      return Err(MissingColumn(LabelCol));
    }
    assert frame.rows == CategorizedRows(rules, uncategorized, preprocessed);
    return Ok(frame);
  }

  /** The stages of `process_transactions_from_df` up to the renaming, on a
      fresh frame. */
  method BuildFinalFrame(lib: Lib, df: Frame, rules: seq<Rule>, uncategorized: seq<string>,
                         accountType: string, reading: Reading) returns (result: Result<Frame, Failure>)
    requires df.Valid()
    ensures result.Err? <==>
      (!Injective(df.columns, NormalizeColumnName) || (LabelCol !in NormalizedColumns(df.columns) && HasKeyword(rules)))
    ensures result.Err? ==>
      result.error == if !Injective(df.columns, NormalizeColumnName) then DuplicateColumns else MissingColumn(LabelCol)
    ensures result.Ok? ==> var f := result.value;
      && fresh(f) && f.Valid() && f.columns == FinalColumns(df.columns)
      && (forall i :: 0 <= i < |df.rows| ==> df.rows[i].Keys == df.columns)
      && Injective(df.columns, NormalizeColumnName)
      && f.rows == FinalRows(lib, reading, rules, uncategorized, accountType, df.columns, df.rows)
  {
    var prepared := PrepareFrame(lib, df, rules, uncategorized);
    if prepared.Err? {
      return Err(prepared.error);
    }
    var frame := prepared.value;
    ghost var categorized := frame.rows;
    ghost var c2 := frame.columns;
    DetectRecurrences(frame, reading);
    assert frame.rows == Detected(reading, c2, categorized);
    StampRows(lib, frame, reading, accountType);
    return Ok(frame);
  }

  /** `process_transactions_from_df`: the caller's frame is not modified. */
  method ProcessTransactionsFromDf(lib: Lib, df: Frame, rules: seq<Rule>, uncategorized: seq<string>,
                                   accountType: string, reading: Reading) returns (result: Result<seq<Transaction>, Failure>)
    requires df.Valid()
    ensures result == Ledger(lib, reading, rules, uncategorized, accountType, df.columns, df.rows)
  {
    var built := BuildFinalFrame(lib, df, rules, uncategorized, accountType, reading);
    if built.Err? {
      return Err(built.error);
    }
    var frame := built.value;
    if !Injective(frame.columns, RecordName) {
      return Err(DuplicateColumns);
    }
    frame.Rename(RecordName);
    assert frame.rows == RecordRows(lib, reading, rules, uncategorized, accountType, df.columns, df.rows);
    result := ToTransactions(frame.rows);
  }

  // ---------------------------------------------------------------------------
  // Properties of the records

  /** The renaming lines the final columns up with the record's fields: the
      record built from a final row carries that row's fingerprint, account
      type, amount, category and budget type, and, when the frame has the date
      and label columns, its operation date and label. */
  lemma RecordFields(r: Row)
    requires Injective(r.Keys, RecordName)
    requires {HashCol, AccountCol, AmountCol, BudgetCol, CategoryCol} <= r.Keys
    ensures var p := Renamed(r, RecordName);
      && HashCol in p && AccountCol in p && AmountCol in p && BudgetCol in p && CategoryCol in p
      && p[HashCol] == r[HashCol] && p[AccountCol] == r[AccountCol] && p[AmountCol] == r[AmountCol]
      && p[BudgetCol] == r[BudgetCol] && p[CategoryCol] == r[CategoryCol]
    ensures DateCol in r ==> "date_op" in Renamed(r, RecordName) && Renamed(r, RecordName)["date_op"] == r[DateCol]
    ensures DateCol in r && LabelCol in r ==>
      var t := ToTransaction(Renamed(r, RecordName));
      && t.Some?
      && t.value.hash == TextOf(r[HashCol]) && t.value.accountType == TextOf(r[AccountCol])
      && t.value.montant == NumOf(r[AmountCol]) && t.value.dateOp == DayOf(r[DateCol])
      && t.value.libelleOp == r[LabelCol] && t.value.categorie == r[CategoryCol]
      && t.value.typeBudget == TextOf(r[BudgetCol])
  {
    RecordNamesOfFinalColumns();
    var p := Renamed(r, RecordName);
    RenamedAt(r, HashCol);
    RenamedAt(r, AccountCol);
    RenamedAt(r, AmountCol);
    RenamedAt(r, BudgetCol);
    RenamedAt(r, CategoryCol);
    if DateCol in r {
      RenamedAt(r, DateCol);
    }
    if DateCol in r && LabelCol in r {
      RenamedAt(r, LabelCol);
      assert "hash" in p && "account_type" in p && "montant" in p && "date_op" in p && "libelle_op" in p;
    }
  }

  /** The renamed row holds each cell under the cell's new name. */
  lemma RenamedAt(r: Row, k: string)
    requires Injective(r.Keys, RecordName) && k in r
    ensures RecordName(k) in Renamed(r, RecordName) && Renamed(r, RecordName)[RecordName(k)] == r[k]
  {
  }

  /** Which final columns the renaming keeps and which it renames. */
  lemma RecordNamesOfFinalColumns()
    ensures RecordName(HashCol) == HashCol && RecordName(AccountCol) == AccountCol && RecordName(AmountCol) == AmountCol
    ensures RecordName(BudgetCol) == BudgetCol && RecordName(CategoryCol) == CategoryCol
    ensures RecordName(DateCol) == "date_op" && RecordName(LabelCol) == "libelle_op"
  {
  }

  /** Each record is built from the final row at the same position, which has
      exactly the final columns. */
  lemma LedgerRows(lib: Lib, reading: Reading, rules: seq<Rule>, uncategorized: seq<string>, accountType: string,
                   columns: set<string>, rows: seq<Row>)
    requires forall i :: 0 <= i < |rows| ==> rows[i].Keys == columns
    requires Ledger(lib, reading, rules, uncategorized, accountType, columns, rows).Ok?
    ensures Injective(columns, NormalizeColumnName) && Injective(FinalColumns(columns), RecordName)
    ensures var ts := Ledger(lib, reading, rules, uncategorized, accountType, columns, rows).value;
      var f := FinalRows(lib, reading, rules, uncategorized, accountType, columns, rows);
      && |ts| == |rows|
      && forall i :: 0 <= i < |rows| ==>
           f[i].Keys == FinalColumns(columns) && Some(ts[i]) == ToTransaction(Renamed(f[i], RecordName))
  {
    FinalRowsKeys(lib, reading, rules, uncategorized, accountType, columns, rows);
  }

  /** Stamping adds the fingerprint and the account type and keeps the
      amount, budget type and operation date. */
  lemma StampedCells(lib: Lib, reading: Reading, accountType: string, d: Row)
    requires {AmountCol, BudgetCol} <= d.Keys
    ensures var r := Stamped(lib, reading, accountType, d);
      && r.Keys == d.Keys + {HashCol, AccountCol}
      && r[HashCol] == Text(CalculateHash(lib, reading, d, accountType)) && r[AccountCol] == Text(accountType)
      && r[AmountCol] == d[AmountCol] && r[BudgetCol] == d[BudgetCol]
      && (DateCol in d ==> r[DateCol] == d[DateCol])
  {
    assert |HashCol| == 4 && |AccountCol| == 12 && |AmountCol| == 7 && |BudgetCol| == 11 && |DateCol| == 14;
  }

  /** The record built from a stamped row carries the given account type and
      the row's fingerprint, amount, budget type and operation date. */
  lemma StampedRecord(lib: Lib, reading: Reading, accountType: string, d: Row)
    requires {AmountCol, BudgetCol, CategoryCol} <= d.Keys
    requires Injective(Stamped(lib, reading, accountType, d).Keys, RecordName)
    requires ToTransaction(Renamed(Stamped(lib, reading, accountType, d), RecordName)).Some?
    ensures var t := ToTransaction(Renamed(Stamped(lib, reading, accountType, d), RecordName)).value;
      && t.accountType == accountType
      && t.hash == CalculateHash(lib, reading, d, accountType)
      && t.montant == NumOf(d[AmountCol])
      && t.typeBudget == TextOf(d[BudgetCol])
      && (DateCol in d ==> t.dateOp == DayOf(d[DateCol]))
  {
    var r := Stamped(lib, reading, accountType, d);
    StampedCells(lib, reading, accountType, d);
    RecordFields(r);
    var p := Renamed(r, RecordName);
    var t := ToTransaction(p).value;
    assert t.hash == TextOf(p[HashCol]) && t.accountType == TextOf(p[AccountCol]);
    assert t.montant == NumOf(p[AmountCol]) && t.typeBudget == TextOf(p[BudgetCol]);
  }

  /** Record `i` of a successful run carries the given account type and the
      fingerprint, amount, budget type and operation date of detected row `i`. */
  lemma LedgerAt(lib: Lib, reading: Reading, rules: seq<Rule>, uncategorized: seq<string>, accountType: string,
                 columns: set<string>, rows: seq<Row>, i: int)
    requires forall i :: 0 <= i < |rows| ==> rows[i].Keys == columns
    requires Ledger(lib, reading, rules, uncategorized, accountType, columns, rows).Ok?
    requires 0 <= i < |rows|
    ensures Injective(columns, NormalizeColumnName)
    ensures |Ledger(lib, reading, rules, uncategorized, accountType, columns, rows).value| == |rows|
    ensures var t := Ledger(lib, reading, rules, uncategorized, accountType, columns, rows).value[i];
      var d := DetectedRows(lib, reading, rules, uncategorized, columns, rows)[i];
      && d.Keys == CategorizedColumns(columns) + {BudgetCol}
      && d[AmountCol].Num?
      && t.accountType == accountType
      && t.hash == CalculateHash(lib, reading, d, accountType)
      && t.montant == d[AmountCol].x
      && t.typeBudget == TextOf(d[BudgetCol])
      && (DateCol in d ==> t.dateOp == DayOf(d[DateCol]))
  {
    LedgerRows(lib, reading, rules, uncategorized, accountType, columns, rows);
    DetectedRowsCells(lib, reading, rules, uncategorized, columns, rows);
    var d := DetectedRows(lib, reading, rules, uncategorized, columns, rows)[i];
    var f := FinalRows(lib, reading, rules, uncategorized, accountType, columns, rows);
    assert f[i] == Stamped(lib, reading, accountType, d);
    StampedRecord(lib, reading, accountType, d);
  }

  /** One record per input row, each carrying the given account type. */
  lemma LedgerOnePerRow(lib: Lib, reading: Reading, rules: seq<Rule>, uncategorized: seq<string>, accountType: string,
                        columns: set<string>, rows: seq<Row>)
    requires forall i :: 0 <= i < |rows| ==> rows[i].Keys == columns
    requires Ledger(lib, reading, rules, uncategorized, accountType, columns, rows).Ok?
    ensures var ts := Ledger(lib, reading, rules, uncategorized, accountType, columns, rows).value;
      && |ts| == |rows|
      && forall i :: 0 <= i < |ts| ==> ts[i].accountType == accountType
  {
    LedgerRows(lib, reading, rules, uncategorized, accountType, columns, rows);
    forall i | 0 <= i < |rows| {
      LedgerAt(lib, reading, rules, uncategorized, accountType, columns, rows, i);
    }
  }

  /** A record's budget type is `Ponctuel` unless detection ran and its row
      belongs to a qualifying group of the date-sorted frame, in which case it
      is the recurring label. */
  lemma LedgerBudgets(lib: Lib, reading: Reading, rules: seq<Rule>, uncategorized: seq<string>, accountType: string,
                      columns: set<string>, rows: seq<Row>)
    requires forall i :: 0 <= i < |rows| ==> rows[i].Keys == columns
    requires Injective(columns, NormalizeColumnName)
    requires Ledger(lib, reading, rules, uncategorized, accountType, columns, rows).Ok?
    ensures var ts := Ledger(lib, reading, rules, uncategorized, accountType, columns, rows).value;
      var nc := NormalizedColumns(columns);
      var sorted := Sorting.Sort(MapRows(CategorizedRows(rules, uncategorized, PreprocessedRows(lib, columns, rows)),
                                         r => r[BudgetCol := Text(Punctual)]), DateCol);
      forall i :: 0 <= i < |ts| ==>
        ts[i].typeBudget ==
          (if DateCol in nc && SimpleLabelCol in nc && IsRecurring(sorted, DateCol, SimpleLabelCol, sorted[i])
           then RecurringLabel(reading) else Punctual)
  {
    LedgerRows(lib, reading, rules, uncategorized, accountType, columns, rows);
    var ts := Ledger(lib, reading, rules, uncategorized, accountType, columns, rows).value;
    var nc := NormalizedColumns(columns);
    var categorized := CategorizedRows(rules, uncategorized, PreprocessedRows(lib, columns, rows));
    var sorted := Sorting.Sort(MapRows(categorized, r => r[BudgetCol := Text(Punctual)]), DateCol);
    var d := DetectedRows(lib, reading, rules, uncategorized, columns, rows);
    DetectedBudget(reading, CategorizedColumns(columns), categorized);
    CategorizedColumnsDetection(columns);
    forall i | 0 <= i < |rows|
      ensures ts[i].typeBudget ==
        (if DateCol in nc && SimpleLabelCol in nc && IsRecurring(sorted, DateCol, SimpleLabelCol, sorted[i])
         then RecurringLabel(reading) else Punctual)
    {
      LedgerAt(lib, reading, rules, uncategorized, accountType, columns, rows, i);
      assert ts[i].typeBudget == TextOf(d[i][BudgetCol]);
    }
  }

  /** Categorisation adds neither the operation date nor the simplified label. */
  lemma CategorizedColumnsDetection(columns: set<string>)
    ensures DateCol in CategorizedColumns(columns) <==> DateCol in NormalizedColumns(columns)
    ensures SimpleLabelCol in CategorizedColumns(columns) <==> SimpleLabelCol in NormalizedColumns(columns)
  {
    assert |DateCol| == 14 && |SimpleLabelCol| == 17;
    assert |DebitCol| == 5 && |CreditCol| == 6 && |AmountCol| == 7 && |CategoryCol| == 9;
  }

  /** Every record's budget type is either `Ponctuel` or the recurring label. */
  lemma LedgerBudgetTypes(lib: Lib, reading: Reading, rules: seq<Rule>, uncategorized: seq<string>, accountType: string,
                          columns: set<string>, rows: seq<Row>)
    requires forall i :: 0 <= i < |rows| ==> rows[i].Keys == columns
    requires Ledger(lib, reading, rules, uncategorized, accountType, columns, rows).Ok?
    ensures forall t :: t in Ledger(lib, reading, rules, uncategorized, accountType, columns, rows).value ==>
      t.typeBudget == Punctual || t.typeBudget == RecurringLabel(reading)
  {
    var ts := Ledger(lib, reading, rules, uncategorized, accountType, columns, rows).value;
    LedgerRows(lib, reading, rules, uncategorized, accountType, columns, rows);
    LedgerBudgets(lib, reading, rules, uncategorized, accountType, columns, rows);
    forall t | t in ts ensures t.typeBudget == Punctual || t.typeBudget == RecurringLabel(reading) {
      var i :| 0 <= i < |ts| && ts[i] == t;
    }
  }

  /** When detection runs, the records come out in operation-date order, NaT
      last. */
  lemma LedgerDateOrder(lib: Lib, reading: Reading, rules: seq<Rule>, uncategorized: seq<string>, accountType: string,
                        columns: set<string>, rows: seq<Row>)
    requires forall i :: 0 <= i < |rows| ==> rows[i].Keys == columns
    requires Ledger(lib, reading, rules, uncategorized, accountType, columns, rows).Ok?
    requires DateCol in NormalizedColumns(columns) && SimpleLabelCol in NormalizedColumns(columns)
    ensures var ts := Ledger(lib, reading, rules, uncategorized, accountType, columns, rows).value;
      forall i, j :: 0 <= i < j < |ts| ==> Sorting.KeyLe(ts[i].dateOp, ts[j].dateOp)
  {
    LedgerRows(lib, reading, rules, uncategorized, accountType, columns, rows);
    var categorized := CategorizedRows(rules, uncategorized, PreprocessedRows(lib, columns, rows));
    var d := DetectedRows(lib, reading, rules, uncategorized, columns, rows);
    DetectedSorted(reading, CategorizedColumns(columns), categorized);
    var ts := Ledger(lib, reading, rules, uncategorized, accountType, columns, rows).value;
    forall i | 0 <= i < |rows| ensures ts[i].dateOp == Sorting.DateKey(d[i], DateCol) {
      LedgerAt(lib, reading, rules, uncategorized, accountType, columns, rows, i);
    }
  }

  /** No detected column carries the bank export's original date or label
      name. */
  lemma DetectedExcludesOriginalNames(columns: set<string>)
    ensures Legacy.DateCol !in CategorizedColumns(columns) + {BudgetCol}
    ensures Legacy.LabelCol !in CategorizedColumns(columns) + {BudgetCol}
  {
    NormalizedExcludesOriginalNames(columns);
    assert |Legacy.DateCol| == 14 && |Legacy.LabelCol| == 17;
    assert |DebitCol| == 5 && |CreditCol| == 6 && |AmountCol| == 7 && |CategoryCol| == 9 && |BudgetCol| == 11;
  }

  /** As written, every fingerprint of a successful run is the digest of the
      amount's text and the account type alone, so two records of the same
      account with the same amount always share a fingerprint. */
  lemma AsWrittenLedgerHashes(lib: Lib, rules: seq<Rule>, uncategorized: seq<string>, accountType: string,
                              columns: set<string>, rows: seq<Row>)
    requires forall i :: 0 <= i < |rows| ==> rows[i].Keys == columns
    requires Ledger(lib, AsWritten, rules, uncategorized, accountType, columns, rows).Ok?
    ensures var ts := Ledger(lib, AsWritten, rules, uncategorized, accountType, columns, rows).value;
      forall i :: 0 <= i < |ts| ==> ts[i].hash == lib.sha256(lib.render(Num(ts[i].montant)) + accountType)
    ensures var ts := Ledger(lib, AsWritten, rules, uncategorized, accountType, columns, rows).value;
      forall i, j :: 0 <= i < |ts| && 0 <= j < |ts| && ts[i].montant == ts[j].montant ==> ts[i].hash == ts[j].hash
  {
    var ts := Ledger(lib, AsWritten, rules, uncategorized, accountType, columns, rows).value;
    LedgerRows(lib, AsWritten, rules, uncategorized, accountType, columns, rows);
    forall i | 0 <= i < |ts| ensures ts[i].hash == lib.sha256(lib.render(Num(ts[i].montant)) + accountType) {
      LedgerAt(lib, AsWritten, rules, uncategorized, accountType, columns, rows, i);
      var d := DetectedRows(lib, AsWritten, rules, uncategorized, columns, rows)[i];
      AsWrittenDetectedHash(lib, columns, d, accountType);
    }
  }

  /** As written, the fingerprint of a detected row digests its amount's text
      and the account type only. */
  lemma AsWrittenDetectedHash(lib: Lib, columns: set<string>, d: Row, accountType: string)
    requires d.Keys == CategorizedColumns(columns) + {BudgetCol} && d[AmountCol].Num?
    ensures CalculateHash(lib, AsWritten, d, accountType) == lib.sha256(lib.render(d[AmountCol]) + accountType)
  {
    DetectedExcludesOriginalNames(columns);
    AsWrittenHashIgnoresDateAndLabel(lib, d, d, accountType);
  }

  /** Errors the pipeline raises: a duplicated column after renaming, a
      `KeyError` on a missing column, and a `TypeError` for a `Transaction`
      built without one of its required fields. */
  datatype Failure = DuplicateColumns | MissingColumn(column: string) | MissingFields

}
