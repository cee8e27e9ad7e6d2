/** Per-cell coercions shared by both ingestion paths. */
module Coercion {
  import opened Values
  import opened Text
  import opened Frames

  /** `astype(str).str.replace(',', '.')`: the text of a debit cell. */
  function DebitText(lib: Lib, c: Cell): string {
    ReplaceChar(Show(lib, c), ',', '.')
  }

  /** The credit text additionally loses every '+'. */
  function CreditText(lib: Lib, c: Cell): string {
    RemoveChar(ReplaceChar(Show(lib, c), ',', '.'), '+')
  }

  /** `pd.to_numeric(s, errors='coerce')`: "nan", the text of a missing cell, is NaN. */
  function ToNumeric(lib: Lib, s: string): Option<real> {
    if s == "nan" then None else lib.toNumeric(s)
  }

  /** `to_numeric(...).fillna(0)` */
  function Coerce(lib: Lib, s: string): real {
    match ToNumeric(lib, s)
    case Some(x) => x
    case None => 0.0
  }

  /** The debit of a row: the cleaned, coerced cell when the column exists, 0 otherwise. */
  function DebitValue(lib: Lib, columns: set<string>, col: string, r: Row): real {
    if col in columns then Coerce(lib, DebitText(lib, At(r, col))) else 0.0
  }

  function CreditValue(lib: Lib, columns: set<string>, col: string, r: Row): real {
    if col in columns then Coerce(lib, CreditText(lib, At(r, col))) else 0.0
  }

  /** `pd.to_datetime(cell, errors='coerce')` through `parse`: NaN stays NaT,
      a datetime stays itself, anything else is parsed from its text. */
  function ToDatetime(parse: string -> Option<int>, lib: Lib, c: Cell): Cell {
    match c
    case Null => Null
    case Day(_) => c
    case _ => match parse(Show(lib, c)) case Some(d) => Day(d) case None => Null
  }

  /** A missing cell, or one the parser rejects, contributes 0 and never an error. */
  lemma MissingOrUnparsableIsZero(lib: Lib, columns: set<string>, col: string, r: Row)
    ensures col !in columns || At(r, col) == Null ==> DebitValue(lib, columns, col, r) == 0.0 && CreditValue(lib, columns, col, r) == 0.0
    ensures col in columns && lib.toNumeric(DebitText(lib, At(r, col))) == None ==> DebitValue(lib, columns, col, r) == 0.0
    ensures col in columns && lib.toNumeric(CreditText(lib, At(r, col))) == None ==> CreditValue(lib, columns, col, r) == 0.0
  {
    assert Show(lib, Null) == "nan";
    assert ReplaceChar("nan", ',', '.') == "nan";
    assert RemoveChar("nan", '+') == "nan";
  }

  /** The credit text has no ',' and no '+'; the debit text has no ','. */
  lemma CleanedTexts(lib: Lib, c: Cell)
    ensures forall i :: 0 <= i < |DebitText(lib, c)| ==> DebitText(lib, c)[i] != ','
    ensures forall i :: 0 <= i < |CreditText(lib, c)| ==> CreditText(lib, c)[i] != ',' && CreditText(lib, c)[i] != '+'
    ensures |DebitText(lib, c)| == |Show(lib, c)|
  {
    var t := ReplaceChar(Show(lib, c), ',', '.');
    ReplaceCharRemovesAll(Show(lib, c), ',', '.');
    RemoveCharSpec(t, '+');
  }

  /** `df[col] = to_numeric(df[col] with "," -> ".").fillna(0)`, or 0 when the column is missing: a numeric debit column, 0 where the export has none. */
  method CoerceDebit(lib: Lib, df: Frame, col: string)
    requires df.Valid()
    modifies df
    ensures df.Valid() && df.columns == old(df.columns) + {col} && |df.rows| == |old(df.rows)|
    ensures forall i :: 0 <= i < |df.rows| ==> df.rows[i] == old(df.rows)[i][col := Num(DebitValue(lib, old(df.columns), col, old(df.rows)[i]))]
  {
    if col in df.columns {
      df.SetColumn(col, r => Num(Coerce(lib, DebitText(lib, At(r, col)))));
    } else {
      df.SetColumn(col, r => Num(0.0));
    }
  }

  /** The credit column: the same, with every '+' removed before parsing. */
  method CoerceCredit(lib: Lib, df: Frame, col: string)
    requires df.Valid()
    modifies df
    ensures df.Valid() && df.columns == old(df.columns) + {col} && |df.rows| == |old(df.rows)|
    ensures forall i :: 0 <= i < |df.rows| ==> df.rows[i] == old(df.rows)[i][col := Num(CreditValue(lib, old(df.columns), col, old(df.rows)[i]))]
  {
    if col in df.columns {
      df.SetColumn(col, r => Num(Coerce(lib, CreditText(lib, At(r, col)))));
    } else {
      df.SetColumn(col, r => Num(0.0));
    }
  }

}
