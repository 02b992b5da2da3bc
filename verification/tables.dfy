/** The in-memory tables the reconciliation works on.

    A spreadsheet has already been parsed into a sheet: a header-less block of
    rows, every row as wide as the sheet. A cell is either text or a number;
    numbers are amounts in the smallest currency unit (paise), so every sum is
    exact. Keys and amounts are always present: empty cells are not modelled.
 */
module Tables {

  /** One spreadsheet cell. */
  datatype Cell = Text(s: string) | Num(n: int)

  type Row = seq<Cell>

  datatype Table = Table(width: nat, rows: seq<Row>)

  /** A parsed sheet is rectangular, as every data frame is. */
  type Sheet = t: Table | forall r :: r in t.rows ==> |r| == t.width
    witness Table(0, [])

  /** Which upload an error points at. */
  datatype Source = SdoSheet | BillDeskReport | BankStatement

  /** The causes that send a run into the "Data Error" branch. */
  datatype DataError =
    | TooFewColumns(source: Source, file: nat, width: nat)
    | NonNumericAmount(source: Source, file: nat)

  datatype Result<T> = Ok(value: T) | Err(error: DataError)

  datatype Option<T> = None | Some(value: T)

  /** True when column `col` exists and holds a number on every row. */
  predicate NumericColumn(sheet: Sheet, col: nat)
  {
    col < sheet.width && forall r :: r in sheet.rows ==> HasAmount(r, col)
  }

  /** True when the row has a number at position `col`. */
  predicate HasAmount(r: Row, col: nat)
  {
    col < |r| && r[col].Num?
  }

  /** Column `col` of every row, as amounts. */
  function Column(rows: seq<Row>, col: nat): seq<int>
    requires forall r :: r in rows ==> HasAmount(r, col)
  {
    seq(|rows|, j requires 0 <= j < |rows| => assert rows[j] in rows; assert HasAmount(rows[j], col); rows[j][col].n)
  }

  function Digit(d: nat): char
    requires d < 10
  {
    ('0' as int + d) as char
  }

  function NatToString(n: nat): string
  {
    if n < 10 then [Digit(n)] else NatToString(n / 10) + [Digit(n % 10)]
  }

  /** A number's decimal form is made of digits only. */
  lemma {:induction false} NatToStringDigits(n: nat)
    ensures forall i :: 0 <= i < |NatToString(n)| ==> '0' <= NatToString(n)[i] <= '9'
  {
    if n >= 10 {
      NatToStringDigits(n / 10);
    }
  }

  /** The string form of a cell (`astype(str)`): text as it is, a number in decimal. */
  function Render(c: Cell): string
  {
    match c
    case Text(s) => s
    case Num(n) => if n < 0 then "-" + NatToString(-n) else NatToString(n)
  }

  /** The sum of a sequence of amounts. */
  function Sum(xs: seq<int>): int
  {
    if xs == [] then 0 else xs[0] + Sum(xs[1..])
  }

  lemma {:induction false} SumAppend(xs: seq<int>, ys: seq<int>)
    ensures Sum(xs + ys) == Sum(xs) + Sum(ys)
  {
    if xs == [] {
      assert xs + ys == ys;
    } else {
      assert (xs + ys)[1..] == xs[1..] + ys;
      SumAppend(xs[1..], ys);
    }
  }
}
