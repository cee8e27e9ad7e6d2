# Personal-finance ingestion and insights, modelled in Dafny

This project models the core of a personal-finance application: the way it turns
a bank export into a ledger of transactions, and the way it reads insights back
out of that ledger.

- **The first ingestion path (`logic.py`).** This is module `Legacy`. It has
  three stages: `preprocess_data` turns the debit and credit texts into numbers
  and computes the signed amount; `categorize_transactions` applies keyword
  rules to the operation label; `detect_recurrences` marks groups of monthly,
  similar payments as `Récurrente`.
- **The ingestion service (`FinanceService`).** This is module `Finance`. It
  normalises the column names (`_preprocess_dataframe`), parses three date
  columns and adds the two amount columns. It categorises the rows whose
  category is empty or "uncategorised" (`_categorize_transactions`) and detects
  recurrences (`_detect_recurrences`). It fingerprints every row with SHA-256
  (`_calculate_hash`), renames the columns to the fields of the `Transaction`
  record and builds the records (`process_transactions_from_df`).
- **The insights service (`InsightsService`).** This is module `Insights`. It
  has three pure detectors over a snapshot of stored transactions: the
  subscription summary, large purchases per category, and bank fees.

A data frame is the class `Frames.Frame`. Its fields are a set of column names
and a sequence of rows; each row is a map from column name to a `Cell`, which is
NaN/NaT, text, a number, a date (a day number) or a boolean. The pandas
operations the source performs in place are methods of `Frame`: column
assignment, `df.loc[mask, c] = v`, renaming, and `sort_values(inplace=True)`.
Each of these methods states the new rows as a function of the old ones. The
loops of the source are `for` loops with invariants: the rule and keyword
loops, the group loop and the record loop. The library calls are fields of a
`Values.Lib` record passed as a parameter, since the model cannot see their
code: `pd.to_numeric`, `pd.to_datetime`, Python's `str()` of a non-string and
SHA-256.

Three defects of the source are modelled twice. A `Reading` parameter selects
the code as written (`AsWritten`) or as evidently intended (`Intended`). The
properties under "## Findings" are proved for both readings.

Modules: `Values` (cells, rows, library parameters), `Text` (lower-casing,
character replacement, substring search, column-name normalisation), `Frames`,
`Sorting` (the date sort), `Coercion` (debit and credit texts to numbers, date
parsing), `Categorization` (keyword rules), `Recurrence` (the shared group test),
`Legacy`, `Models` (the `Transaction` record), `Finance`, `Insights`.

## Model

| member | source | states |
|---|---|---|
| Legacy.PreprocessData | logic.py:17-41 | returns a fresh frame and leaves the caller's frame untouched; the new frame has the old columns plus `Debit`, `Credit` and `montant`, and each row is the old row with coerced debit, coerced credit and amount credit minus debit |
| Legacy.ComputeAmounts | logic.py:25-39 | in place: adds the three columns, keeps the row count, and rewrites each row to its preprocessed form |
| Legacy.PreprocessedRow | logic.py:25-39 | the row gains exactly `Debit`, `Credit` and `montant`; debit and credit are numbers and the amount is credit minus debit; every other cell is kept |
| Legacy.AmountIsCreditMinusDebit | logic.py:39 | the amount is the coerced credit minus the coerced debit; the row gains exactly the three columns and keeps every other cell |
| Coercion.CoerceDebit | logic.py:26-30 | the debit column is rewritten (or created) with the number parsed from the text after `,` becomes `.`, and 0 when the column is missing or the text does not parse; nothing else changes |
| Coercion.CoerceCredit | logic.py:33-37 | the same for the credit column, where `+` signs are also removed |
| Coercion.MissingOrUnparsableIsZero | logic.py:26-37 | a missing column, a NaN cell or an unparsable text gives 0, for debit and for credit |
| Coercion.CleanedTexts | logic.py:27-34 | the debit text has no `,` and the credit text has neither `,` nor `+`; the debit text is as long as the cell's `str()` |
| Text.ReplaceCharRemovesAll | logic.py:27 | after replacing a character by a different one, the character no longer occurs |
| Text.RemoveCharSpec | logic.py:34 | removing a character deletes every occurrence and only those: the result's length drops by the number of occurrences, other characters keep their counts, and every remaining character comes from the input |
| Text.ContainsIffOccurs | logic.py:53 | the substring test holds exactly when the pattern occurs at some index |
| Text.ContainsEmpty | app/services/finance_service.py:63 | every string contains the empty pattern |
| Categorization.FirstMatch | logic.py:50-54 | a result names the category of some rule that matches the label; no result means no rule matches |
| Categorization.LastMatch | app/services/finance_service.py:65-69 | the same for the service's rule loop: a result comes from a matching rule, and no result means none matches |
| Categorization.FirstMatchIsFirst | logic.py:50-54 | `FirstMatch` is `None` exactly when no rule matches, and otherwise the category of a matching rule with no matching rule before it |
| Categorization.LastMatchIsLast | app/services/finance_service.py:65-69 | `LastMatch` is `None` exactly when no rule matches, and otherwise the category of a matching rule with no matching rule after it |
| Legacy.CategorizeTransactions | logic.py:43-56 | adds `Categorie` as NaN when it is missing; succeeds exactly when the label column exists or no rule has a keyword, and otherwise stops with a missing-column error; on success each row is the result of the rule loops on that row |
| Legacy.ApplyRule | logic.py:51-54 | one category's keyword loop in place: it fails exactly when the label column is missing and there is a keyword; otherwise each row becomes the keyword loop's result on that row |
| Legacy.AsWrittenMaskNeverHolds | logic.py:53 | as written, the mask is false on every row for every keyword |
| Legacy.AsWrittenKeywordsChangeNothing | logic.py:51-54 | as written, a category's keyword loop leaves every row unchanged |
| Legacy.AsWrittenCategorizesNothing | logic.py:50-54 | as written, the rule loops leave every row unchanged, whatever the rules and labels |
| Legacy.IntendedKeywords | logic.py:51-54 | as intended, one category's keyword loop gives a blank row the category exactly when its label contains one of the keywords, ignoring case; any other row is unchanged |
| Legacy.IntendedFirstMatchWins | logic.py:50-54 | as intended, a blank row gets the category of the first rule, in rule order, that matches its label; a row with a category, or with no matching rule, is unchanged |
| Legacy.RentMatchesLoyer | logic.py:5-15 | in the module's rule table every category is non-empty, and "Loyer" is the first rule that matches the label "LOYER" |
| Legacy.AsWrittenMissesRent | logic.py:43-56 | with the module's rule table, an uncategorised "LOYER" row stays NaN as written and becomes "Loyer" as intended |
| Frames.Frame.Copy | logic.py:23 | a fresh frame with the same columns and rows |
| Frames.Frame.SetColumn | logic.py:28 | the column is added or overwritten with a per-row value; the other cells are kept |
| Frames.Frame.AssignWhere | logic.py:54 | rows under the mask receive the value; the others keep their cell, or receive NaN if the column is new |
| Frames.Masked | logic.py:54 | every row gains the column; a row under the mask holds the value there, any other row keeps its cell (NaN if the column is new); every other cell is kept |
| Frames.Frame.Rename | app/services/finance_service.py:112-122 | the columns are renamed by an injective map, and every row is renamed with them |
| Frames.Renamed | app/services/finance_service.py:112-122 | a renamed row's keys are the renamed keys, and each cell moves to its new name |
| Frames.Frame.SortByDate | logic.py:73 | the rows become the date sort of the old rows; the columns are unchanged |
| Sorting.SortSorted | logic.py:73 | the sort orders the rows by date, with NaT last |
| Sorting.SortPermutes | logic.py:73 | the sort is a permutation of its input |
| Sorting.SortMembers | logic.py:73 | the sorted rows are the input rows |
| Legacy.DetectRecurrences | logic.py:58-102 | adds `Type Budget`; without the date or simplified-label column every row is `Ponctuel` and keeps its order; otherwise the rows are the detected rows |
| Legacy.Detected | logic.py:71-100 | one row per input row, each with budget type `Récurrente` or `Ponctuel` |
| Legacy.DetectedSorted | logic.py:72-73 | the detected rows are sorted by parsed date |
| Legacy.DetectedBudget | logic.py:75-100 | each detected row is the sorted, parsed row with only its budget set; the budget is `Récurrente` exactly when the row's simplified label is not NaN and its group qualifies, and `Ponctuel` otherwise |
| Recurrence.GroupMembers | logic.py:77-79 | a group holds exactly the rows whose label cell is its key |
| Recurrence.LabelsComplete | logic.py:77-79 | every non-NaN label of the frame is a group key |
| Recurrence.LabelsNotNull | logic.py:77 | NaN is never a group key |
| Recurrence.Gaps | logic.py:93 | fewer than two dates give no gap; otherwise at most one gap per consecutive pair, and when no date is NaT, exactly the day differences of consecutive rows |
| Recurrence.QualifyingGroup | logic.py:80-96 | a qualifying group has at least three rows, a non-zero mean with every amount within 5 % of it, and, when no date is NaT, consecutive dates 28 to 32 days apart |
| Recurrence.MarkStep | logic.py:98-100 | visiting one more group assigns `Récurrente` to the rows of that group exactly when it qualifies, and otherwise changes nothing |
| Recurrence.MarkGroup | logic.py:80-100 | one pass of the group loop in place: the four tests, then the group's rows are marked exactly as visiting that group prescribes |
| Recurrence.MarkRecurringGroups | logic.py:79-100 | the group loop in place: the columns are unchanged and every row of a qualifying group is marked recurring |
| Recurrence.ToleranceWithoutDivision | logic.py:84-90 | the 5% tolerance around a non-zero mean holds exactly when each amount, times the count, is within 1/20 of the total |
| Recurrence.MeanTolerance | logic.py:88-89 | the same equivalence for any non-zero mean given as total over count |
| Finance.NormalizeColumns | app/services/finance_service.py:26-29 | a fresh frame whose columns and row keys are the normalised names, when those names do not clash |
| Text.NormalizeColumnNameAt | app/services/finance_service.py:29 | normalisation keeps the length, turns spaces into `_`, leaves no space and no upper-case letter, and keeps every other lower-case character |
| Text.NormalizeColumnNameIdempotent | app/services/finance_service.py:29 | normalising twice is normalising once |
| Text.NormalizeColumnNameFixedPoints | app/services/finance_service.py:29 | a name is unchanged by normalisation exactly when it has no space and no upper-case letter |
| Finance.NormalizedAmountNames | app/services/finance_service.py:29-38 | "Debit" and "Credit" normalise to `debit` and `credit` |
| Finance.ComputeAmounts | app/services/finance_service.py:31-44 | in place: adds `debit`, `credit` and `montant`, keeps the row count, and rewrites each row to its coerced amounts |
| Finance.ParsedDatesSpec | app/services/finance_service.py:47-49 | each of the three date columns present in the row is parsed as dd/mm/yyyy, and every other cell is kept |
| Finance.ToDatetimeIdempotent | app/services/finance_service.py:49 | parsing an already parsed date cell leaves it unchanged |
| Finance.ParseDateColumns | app/services/finance_service.py:46-49 | in place: the columns and row count are kept, and each row gets its dates parsed |
| Finance.Preprocess | app/services/finance_service.py:31-49 | on the renamed frame, adds the amount columns and parses the dates; the rows become the preprocessed rows of the frame before renaming |
| Finance.PreprocessCopy | app/services/finance_service.py:26-49 | a fresh frame with the normalised columns plus the amount columns, holding the preprocessed rows |
| Finance.PreprocessDataframe | app/services/finance_service.py:24-51 | returns an error exactly when two column names normalise to the same name; otherwise returns the preprocessed copy |
| Finance.PreprocessedRow | app/services/finance_service.py:31-49 | the row gains `debit`, `credit` and `montant` as numbers with the amount credit plus debit; every cell outside the date columns and those three is kept |
| Finance.AmountIsCreditPlusDebit | app/services/finance_service.py:44 | the amount is the coerced credit plus the coerced debit; the date columns are parsed and every other cell is kept |
| Finance.RenamedAmounts | app/services/finance_service.py:29-42 | after normalisation, the coerced debit and credit equal those read under the export's own names |
| Finance.SignConventions | app/services/finance_service.py:44 | on the same export, the service's amount exceeds the first path's by twice the debit; the two agree exactly when the debit is 0 |
| Finance.FillCategory | app/services/finance_service.py:55-59 | in place: adds `categorie` as '' when it is missing and replaces NaN by '' |
| Finance.FixedKeywordsSpec | app/services/finance_service.py:66-69 | one category's keyword loop gives a candidate row the category exactly when its label matches a keyword |
| Finance.LastMatchWins | app/services/finance_service.py:65-69 | because the candidate mask is fixed before the loops, a candidate row ends with the category of the LAST matching rule; every other row is unchanged |
| Finance.CategorizeTransactions | app/services/finance_service.py:53-70 | succeeds exactly when the label column exists or no rule has a keyword; on success each row is its categorised form, and otherwise its filled form |
| Finance.CategorizedRow | app/services/finance_service.py:55-69 | the category is never NaN afterwards; every other cell is kept; a row that is not a candidate keeps its filled form |
| Finance.BlankRowTakesLastMatch | app/services/finance_service.py:59-69 | a row whose category is NaN or '' takes the category of the last matching rule |
| Finance.BankFeesLabelCategorized | app/core/config.py:5-17 | with the service's rule table, a blank row whose label contains "frais bancaires" in any case is filed under "Frais Bancaires", whatever else the label contains |
| Finance.DetectRecurrences | app/services/finance_service.py:72-97 | in place: adds `type_budget` and rewrites the rows to their detected form |
| Finance.Detected | app/services/finance_service.py:74-96 | one row per input row, each with budget type `Ponctuel` or the reading's recurring label |
| Finance.DetectedFromInput | app/services/finance_service.py:74-96 | each detected row is an input row with only its budget type set |
| Finance.DetectedBudget | app/services/finance_service.py:74-96 | without the date or simplified-label column every row is `Ponctuel`; otherwise a row's budget is the recurring label exactly when its group in the date-sorted rows qualifies, and `Ponctuel` otherwise |
| Finance.DetectedSorted | app/services/finance_service.py:78 | with both columns present, the detected rows are sorted by date |
| Finance.NormalizedExcludesOriginalNames | app/services/finance_service.py:17-18 | no normalised column name is "Date operation" or "Libelle operation" |
| Finance.HashInputEnds | app/services/finance_service.py:16-21 | under either reading the fingerprint input ends with the amount's text followed by the account type |
| Finance.AsWrittenHashIgnoresDateAndLabel | app/services/finance_service.py:14-22 | as written, on a row without those names the fingerprint input is the amount's text and the account type; two rows with the same amount get the same fingerprint |
| Finance.IntendedHashSeparatesLabels | app/services/finance_service.py:14-22 | as intended, two rows with the same date and amount texts get the same fingerprint input exactly when their label texts agree |
| Finance.StampRows | app/services/finance_service.py:107-109 | in place: adds `hash` and `account_type` to every row |
| Finance.StampedCells | app/services/finance_service.py:108-109 | a stamped row holds its fingerprint and the account type and keeps its amount, budget type and date |
| Finance.RecordNamesOfFinalColumns | app/services/finance_service.py:112-122 | the renaming keeps `hash`, `account_type`, `montant`, `type_budget` and `categorie`, and maps the date and label columns to `date_op` and `libelle_op` |
| Finance.RecordFields | app/services/finance_service.py:111-134 | after the renaming, the record built from a row carries that row's fingerprint, account type, amount, category, budget type, operation date and label |
| Finance.StampedRecord | app/services/finance_service.py:108-134 | the record built from a stamped row has the account type, the row's fingerprint, amount, budget type and date |
| Finance.ToTransactions | app/services/finance_service.py:124-136 | fails exactly when some row lacks a required field; otherwise it returns one record per row, in order |
| Finance.PrepareFrame | app/services/finance_service.py:103-104 | preprocessing then categorisation; the error cases are exactly a column-name clash and a missing label column with some keyword |
| Finance.BuildFinalFrame | app/services/finance_service.py:103-109 | the same error cases; on success, a fresh frame with the final columns holding the final rows |
| Finance.ProcessTransactionsFromDf | app/services/finance_service.py:99-136 | the result is the ledger function of the input frame: the error cases above, a clash among the record names, a missing required field, or the records |
| Finance.Ledger | app/services/finance_service.py:99-136 | a column-name clash gives the duplicate-columns error; otherwise a missing label column with some keyword gives the missing-column error |
| Finance.LedgerRows | app/services/finance_service.py:99-136 | a successful ledger has one record per input row, each built from the final row at the same position |
| Finance.LedgerAt | app/services/finance_service.py:99-136 | record i carries the account type, the fingerprint of detected row i, that row's amount and budget type, and its date |
| Finance.LedgerOnePerRow | app/services/finance_service.py:99-109 | a successful ledger has exactly one record per input row, each with the given account type |
| Finance.LedgerBudgets | app/services/finance_service.py:72-105 | record i is recurring exactly when both detection columns exist and its row's group in the date-sorted rows qualifies |
| Finance.LedgerBudgetTypes | app/services/finance_service.py:74-96 | every record's budget type is `Ponctuel` or the recurring label of the reading |
| Finance.LedgerDateOrder | app/services/finance_service.py:78 | with both detection columns present, the records come out in date order, NaT last |
| Finance.DetectedExcludesOriginalNames | app/services/finance_service.py:17-18 | the detected frame has neither "Date operation" nor "Libelle operation" |
| Finance.AsWrittenDetectedHash | app/services/finance_service.py:17-19 | as written, a detected row's fingerprint is the digest of the amount's text and the account type |
| Finance.AsWrittenLedgerHashes | app/services/finance_service.py:14-22 | as written, every record's fingerprint depends only on its amount and account type, so two records with the same amount collide |
| Insights.Filter | app/services/insights_service.py:24 | the kept rows are exactly the input rows that satisfy the mask |
| Insights.MeanOfNegatives | app/services/insights_service.py:31-36 | the mean of expenses is negative, so its absolute value is positive |
| Insights.LabelKeys | app/services/insights_service.py:30 | the group keys are exactly the non-NaN simplified labels, each once |
| Insights.LatestDateIsMax | app/services/insights_service.py:33 | the latest date is NaT exactly when all dates are; otherwise it is one of the dates and none is later |
| Insights.Summaries | app/services/insights_service.py:30-34 | one summary row per group key, in key order |
| Insights.SummariesSpec | app/services/insights_service.py:30-36 | the labels are distinct; each row holds its group's size, the absolute mean amount (positive) and the latest date |
| Insights.SortByMeanSpec | app/services/insights_service.py:38 | the sort is descending by mean, is a permutation (same multiset) of the summary rows, and keeps labels distinct |
| Insights.FindRecurringSubscriptions | app/services/insights_service.py:10-38 | no transactions give no rows; the summary is descending by mean amount and its labels are distinct |
| Insights.SubscriptionsComplete | app/services/insights_service.py:24-34 | every recurring expense with a simplified label has a summary row |
| Insights.SubscriptionsSpec | app/services/insights_service.py:10-38 | the summary is descending and has distinct labels; it covers every recurring expense; each row's group is exactly the recurring expenses with its label, and the row holds the group's count, absolute mean and latest date |
| Insights.NoRecurringTypeNoSubscriptions | app/services/insights_service.py:24-27 | without a `Récurrente` record the summary is empty |
| Insights.LargePurchasesSpec | app/services/insights_service.py:40-76 | every flagged row comes from a categorised expense that spends more than 20 and more than its category's mean plus `threshold` deviations; every such expense is flagged |
| Insights.FindLargePurchases | app/services/insights_service.py:40-76 | no transactions give no rows; at most one row per transaction, each with a category and spending more than 20 |
| Insights.SingleExpenseNeverFlagged | app/services/insights_service.py:62-63 | an expense alone in its category (deviation filled with 0) is never flagged |
| Insights.LargePurchasesFrom | app/services/insights_service.py:66-74 | a listed purchase comes from a flagged expense |
| Insights.UncategorizedNeverFlagged | app/services/insights_service.py:62-66 | no flagged row has a NaN category |
| Insights.BankFeesSpec | app/services/insights_service.py:78-90 | the table lists exactly the transactions whose category contains "Frais Bancaires", case-sensitively, in order; the table of two consecutive stretches is the two tables joined |
| Insights.FindBankFees | app/services/insights_service.py:78-90 | at most one row per transaction, each the fee row of an input transaction whose category contains "Frais Bancaires" |
| Insights.LowerCaseCategoryIsNotBankFee | app/services/insights_service.py:88 | the category "frais bancaires" in lower case is not a bank fee |
| Insights.BudgetLabelsDiffer | app/services/finance_service.py:96 | neither budget type the ingestion service writes as written is the one the summary selects; the intended recurring label is |
| Insights.AsWrittenLedgerHasNoSubscriptions | app/services/insights_service.py:24 | as written, the subscription summary of any ledger the ingestion service builds is empty |
| Insights.IntendedRecurringReachesSummary | app/services/insights_service.py:24-34 | with the intended label, every recurring expense of a named group reaches the summary |

## Left out

- Keyword matching: `str.contains` treats keywords as regular expressions, but the model uses plain substring search that ignores case. The two differ on metacharacters such as the `.` in `E.LECLERC` and the `|`-joined `UNCATEGORIZED_KEYWORDS` pattern.
- Case folding: `Text.Lower` lowers A–Z and the Latin-1 capitals À–Þ. It does no other Unicode folding.
- Rule tables: the categorisers take the rule table as an ordered parameter. The tables of `logic.py` and `app/core/config.py` are the constants `Legacy.CategorizationRules` and `Finance.CategorizationRules`, used in the concrete lemmas. The database-backed `get_rules` is not modelled.
- `UNCATEGORIZED_KEYWORDS` is imported by the service but defined nowhere in the repository, so it is a parameter.
- Floating point: amounts and means are exact reals, so rounding in the mean and the 5% test is not modelled. `sqrt` is a parameter of the large-purchase detector.
- Library parsing: `pd.to_numeric`, `pd.to_datetime`, `str()` of a number or a date, and SHA-256 are parameters (fields of `Values.Lib`). The model says nothing about their outputs beyond being functions of their inputs.
- Date parsing per cell: `pd.to_datetime` without a format (logic.py:72) infers one format for the whole column from its values, so the same text can parse differently in different columns. The model parses each cell on its own, as if the format were fixed.
- Fingerprint of a NaT date: NaN and NaT are the same cell (`Null`), so `str()` of a NaT date is modelled as "nan", where Python prints "NaT". This matters only in the intended reading, since the code as written never reads the date.
- Sorting: `sort_values` uses pandas' default quicksort, which is not stable. The model is a stable insertion sort with NaT last, so rows with equal dates may come out in a different order in the source.
- Group order: pandas visits `groupby` keys sorted. The model visits them in order of first appearance. The marks are the same either way; only the subscription summary could order ties on the mean differently.
- Column-name clashes: when two columns normalise or rename to the same name, pandas keeps duplicate columns and later fails or behaves by position. The model returns an error instead.
- Legacy.CategorizeTransactions: an all-NaN label column raises in pandas' `.str` accessor. The model treats NaN labels as non-matching, as `na=False` does for mixed columns.
- Finance.CategorizeTransactions: the `.str` accessor raises AttributeError when `libelle_operation` holds no string at all (an all-NaN column is read as float64, app/services/finance_service.py:68), and when `categorie` holds only numbers and no NaN (line 63). The model treats such cells as non-matching and returns Ok instead of failing.
- Finance.ProcessTransactionsFromDf: inherits the same gap; those two AttributeError cases give Ok in the model.
- Legacy.DetectRecurrences: requires every `montant` cell to be a number (as `preprocess_data` produces). pandas' `mean()` on other cells raises.
- Insights: the detectors take the stored transactions as a sequence of `Transaction` records, not a data frame. The "categorie column missing" branch of `find_bank_fees` cannot arise on such records and is not modelled.
- Insights.FindLargePurchases: `pd.merge` with an inner join keeps the expenses in input order here. pandas may group them by key.
- `recategorize_all`, the SQL repositories (including the `INSERT OR IGNORE` deduplication that the fingerprint feeds), the Streamlit pages, CSV decoding and file I/O are not part of this model.

## Findings

| source | as written | input that shows it | evidently intended | confidence | as-written member | corrected member |
|---|---|---|---|---|---|---|
| logic.py:53 | `df['Categorie'].isnull() \| df['Categorie'] == ''` parses as `(isnull() \| Categorie) == ''`, a boolean series compared with a string, so the mask is always false and no row is ever categorised | a row with label "LOYER" and category NaN stays NaN | `isnull() \| (Categorie == '')`: blank rows take the first matching rule's category | high (not executed) | Legacy.AsWrittenMissesRent | Legacy.IntendedFirstMatchWins |
| app/services/finance_service.py:96 | the recurring budget type is written as the mis-encoded `'RÃ©currente'`, which the subscription summary's `'Récurrente'` filter never matches | any import whose groups qualify: its records' subscription summary is empty | `'Récurrente'`, so recurring expenses reach the summary | high (not executed) | Insights.AsWrittenLedgerHasNoSubscriptions | Insights.IntendedRecurringReachesSummary |
| app/services/finance_service.py:17-18 | the fingerprint reads `'Date operation'` and `'Libelle operation'`, names that no longer exist after normalisation, so both parts are always '' | two different purchases of the same amount on the same account get the same fingerprint, and the second is dropped as a duplicate | read `date_operation` and `libelle_operation` | high (not executed) | Finance.AsWrittenLedgerHashes | Finance.IntendedHashSeparatesLabels |
