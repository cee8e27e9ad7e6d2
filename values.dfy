/** Cells, rows and the library routines the pipeline calls but does not define. */
module Values {

  datatype Option<T> = None | Some(value: T)

  datatype Result<T, E> = Ok(value: T) | Err(error: E)

  /** Where a source line does not do what its authors evidently meant, the
      model carries both: the line as written and the line as intended. */
  datatype Reading = AsWritten | Intended

  /** One cell of a data frame. `Null` stands for pandas' NaN, NaT and None alike;
      `Flag` is a boolean produced by an element-wise boolean operation. */
  datatype Cell = Null | Text(s: string) | Num(x: real) | Day(d: int) | Flag(b: bool)

  /** A row maps each column name of its frame to the cell in that column. */
  type Row = map<string, Cell>

  /** The library routines the source calls on single cells. Each is a total
      function of its argument; the model says nothing else about them.
      - `toNumeric`: `pd.to_numeric(s, errors='coerce')`, `None` for NaN;
      - `toDatetime`: `pd.to_datetime(s, errors='coerce')` as a day number;
      - `toDatetimeDmy`: the same with `format='%d/%m/%Y'`;
      - `render`: Python's `str()` of a cell that is not already a string;
      - `sha256`: the hexadecimal SHA-256 digest of the UTF-8 bytes of a string. */
  datatype Lib = Lib(
    toNumeric: string -> Option<real>,
    toDatetime: string -> Option<int>,
    toDatetimeDmy: string -> Option<int>,
    render: Cell -> string,
    sha256: string -> string)

  /** `row.get(key, default)` on a pandas row. */
  function GetOr(row: Row, key: string, default: Cell): Cell {
    if key in row then row[key] else default
  }

  /** The cell of column `key`, `Null` when the row has no such column. */
  function At(row: Row, key: string): Cell {
    GetOr(row, key, Null)
  }

  /** `str(cell)` in Python: a string is itself, NaN is "nan", other values are rendered. */
  function Show(lib: Lib, c: Cell): string {
    match c
    case Text(s) => s
    case Null => "nan"
    case _ => lib.render(c)
  }

  /** The string a text cell holds; "" for anything else. */
  function TextOf(c: Cell): string {
    if c.Text? then c.s else ""
  }

  /** The number a numeric cell holds; 0 for anything else. */
  function NumOf(c: Cell): real {
    if c.Num? then c.x else 0.0
  }

  /** The day a datetime cell holds; `None` for NaT and anything else. */
  function DayOf(c: Cell): Option<int> {
    if c.Day? then Some(c.d) else None
  }
}
