/** Ingestion of the uploaded SDO (field collection, "HeadWise") sheets and
    BillDesk settlement reports.

    Each SDO sheet contributes columns B, D and H (positions 1, 3 and 7) as
    consumer number, bill number and amount, plus the SDO code: the first
    three characters of the consumer number's string form. Each BillDesk
    report contributes column Q (position 16) as its amount. A sheet too
    narrow for these positions, or holding text where an amount is read,
    aborts the whole run.
 */
module Ingest {
  import opened Tables
  import opened Text

  const ConsumerColumn: nat := 1   // column B
  const BillColumn: nat := 3       // column D
  const AmountColumn: nat := 7     // column H
  const BdAmountColumn: nat := 16  // column Q
  const CodeLength: nat := 3

  /** One row of the SDO master table. */
  datatype SdoRow = SdoRow(code: string, consumer: Cell, bill: Cell, amount: int)

  /** Columns B, D and H of a row, with the SDO code derived from column B. */
  function SdoRecord(r: Row): (s: SdoRow)
    requires HasAmount(r, AmountColumn)
    ensures s.consumer == r[ConsumerColumn] && s.bill == r[BillColumn]
    ensures s.amount == r[AmountColumn].n
    ensures s.code <= Render(s.consumer)
    ensures |s.code| == if |Render(s.consumer)| < CodeLength then |Render(s.consumer)| else CodeLength
  {
    var consumer := r[ConsumerColumn];
    SdoRow(Prefix(Render(consumer), CodeLength), consumer, r[BillColumn], r[AmountColumn].n)
  }

  function ProjectSdo(rows: seq<Row>): seq<SdoRow>
    requires forall r :: r in rows ==> HasAmount(r, AmountColumn)
  {
    seq(|rows|, j requires 0 <= j < |rows| => assert rows[j] in rows; SdoRecord(rows[j]))
  }

  /** The frame one SDO sheet yields (`df.iloc[:, [1, 3, 7]]` plus the code). */
  function SdoFrame(sheet: Sheet, file: nat): Result<seq<SdoRow>>
  {
    if sheet.width <= AmountColumn then Err(TooFewColumns(SdoSheet, file, sheet.width))
    else if !NumericColumn(sheet, AmountColumn) then Err(NonNumericAmount(SdoSheet, file))
    else Ok(ProjectSdo(sheet.rows))
  }

  /** The amounts one BillDesk report yields (`df.iloc[:, 16]`). */
  function BdFrame(sheet: Sheet, file: nat): Result<seq<int>>
  {
    if sheet.width <= BdAmountColumn then Err(TooFewColumns(BillDeskReport, file, sheet.width))
    else if !NumericColumn(sheet, BdAmountColumn) then Err(NonNumericAmount(BillDeskReport, file))
    else Ok(Column(sheet.rows, BdAmountColumn))
  }

  /** The frames of all files concatenated in upload order (`pd.concat`);
      the first file whose frame cannot be built aborts the run. */
  function Concat<T>(frames: seq<Result<seq<T>>>): Result<seq<T>>
  {
    if frames == [] then Ok([])
    else
      match Concat(frames[..|frames| - 1])
      case Err(e) => Err(e)
      case Ok(acc) =>
        match frames[|frames| - 1]
        case Err(e) => Err(e)
        case Ok(rows) => Ok(acc + rows)
  }

  function SdoFrames(files: seq<Sheet>): seq<Result<seq<SdoRow>>>
  {
    seq(|files|, i requires 0 <= i < |files| => SdoFrame(files[i], i))
  }

  function BdFrames(files: seq<Sheet>): seq<Result<seq<int>>>
  {
    seq(|files|, i requires 0 <= i < |files| => BdFrame(files[i], i))
  }

  /** `master_sdo`. */
  function SdoMaster(files: seq<Sheet>): Result<seq<SdoRow>>
  {
    Concat(SdoFrames(files))
  }

  /** The `BD_Amount` column of `master_bd`. */
  function BdMaster(files: seq<Sheet>): Result<seq<int>>
  {
    Concat(BdFrames(files))
  }

  /** The rows of all sheets, in upload order. */
  function AllRows(files: seq<Sheet>): seq<Row>
  {
    if files == [] then [] else AllRows(files[..|files| - 1]) + files[|files| - 1].rows
  }

  /** The loop over the SDO uploads: each sheet's frame is appended to the list. */
  method IngestSdo(files: seq<Sheet>) returns (master: Result<seq<SdoRow>>)
    ensures master == SdoMaster(files)
  {
    ghost var frames := SdoFrames(files);
    var sdoList: seq<SdoRow> := [];
    for i := 0 to |files|
      invariant Concat(frames[..i]) == Ok(sdoList)
    {
      var frame := SdoFrame(files[i], i);
      ConcatStep(frames, i);
      if frame.Err? {
        ConcatPrefixErr(frames, i + 1);
        return Err(frame.error);
      }
      sdoList := sdoList + frame.value;
    }
    assert frames[..|files|] == frames;
    return Ok(sdoList);
  }

  /** The loop over the BillDesk uploads: each report's amount column is appended. */
  method IngestBillDesk(files: seq<Sheet>) returns (master: Result<seq<int>>)
    ensures master == BdMaster(files)
  {
    ghost var frames := BdFrames(files);
    var bdList: seq<int> := [];
    for i := 0 to |files|
      invariant Concat(frames[..i]) == Ok(bdList)
    {
      var frame := BdFrame(files[i], i);
      ConcatStep(frames, i);
      if frame.Err? {
        ConcatPrefixErr(frames, i + 1);
        return Err(frame.error);
      }
      bdList := bdList + frame.value;
    }
    assert frames[..|files|] == frames;
    return Ok(bdList);
  }

  /** One more frame: its error aborts the concatenation, its rows are appended. */
  lemma ConcatStep<T>(frames: seq<Result<seq<T>>>, i: nat)
    requires i < |frames| && Concat(frames[..i]).Ok?
    ensures Concat(frames[..i + 1]) ==
      match frames[i]
      case Err(e) => Err(e)
      case Ok(rows) => Ok(Concat(frames[..i]).value + rows)
  {
    assert frames[..i + 1][..i] == frames[..i];
  }

  /** Once a prefix of the frames has failed, the whole concatenation fails the same way. */
  lemma {:induction false} ConcatPrefixErr<T>(frames: seq<Result<seq<T>>>, n: nat)
    requires n <= |frames| && Concat(frames[..n]).Err?
    ensures Concat(frames) == Concat(frames[..n])
    decreases |frames| - n
  {
    if n < |frames| {
      assert frames[..n + 1][..n] == frames[..n];
      ConcatPrefixErr(frames, n + 1);
    } else {
      assert frames[..n] == frames;
    }
  }

  /** The concatenation succeeds exactly when every frame does, and otherwise
      reports the error of the first frame that failed. */
  lemma {:induction false} ConcatSpec<T>(frames: seq<Result<seq<T>>>)
    ensures Concat(frames).Ok? <==> forall i :: 0 <= i < |frames| ==> frames[i].Ok?
    ensures Concat(frames).Err? ==>
      exists i :: 0 <= i < |frames| && frames[i] == Concat(frames) &&
        forall k :: 0 <= k < i ==> frames[k].Ok?
  {
    if frames != [] {
      var init := frames[..|frames| - 1];
      ConcatSpec(init);
      assert forall i :: 0 <= i < |init| ==> init[i] == frames[i];
    }
  }

  /** The SDO master table exists exactly when every sheet has column H and
      a number in it on every row. */
  lemma SdoMasterOkIff(files: seq<Sheet>)
    ensures SdoMaster(files).Ok? <==>
      forall i :: 0 <= i < |files| ==> NumericColumn(files[i], AmountColumn)
  {
    var frames := SdoFrames(files);
    ConcatSpec(frames);
    assert forall i :: 0 <= i < |files| ==> frames[i] == SdoFrame(files[i], i);
  }

  /** The BillDesk master table exists exactly when every report has column Q
      and a number in it on every row. */
  lemma BdMasterOkIff(files: seq<Sheet>)
    ensures BdMaster(files).Ok? <==>
      forall i :: 0 <= i < |files| ==> NumericColumn(files[i], BdAmountColumn)
  {
    var frames := BdFrames(files);
    ConcatSpec(frames);
    assert forall i :: 0 <= i < |files| ==> frames[i] == BdFrame(files[i], i);
  }

  /** A failed SDO master table names the first sheet that lacks column H or
      holds text in it; every earlier sheet is readable. */
  lemma SdoFirstError(files: seq<Sheet>)
    requires SdoMaster(files).Err?
    ensures var i := SdoMaster(files).error.file;
      i < |files| && SdoMaster(files) == SdoFrame(files[i], i) &&
      !NumericColumn(files[i], AmountColumn) &&
      forall k :: 0 <= k < i ==> NumericColumn(files[k], AmountColumn)
  {
    var frames := SdoFrames(files);
    ConcatSpec(frames);
    var i :| 0 <= i < |frames| && frames[i] == Concat(frames) && forall k :: 0 <= k < i ==> frames[k].Ok?;
    assert frames[i] == SdoFrame(files[i], i);
    assert forall k :: 0 <= k < i ==> frames[k] == SdoFrame(files[k], k);
  }

  /** A failed BillDesk master table names the first report that lacks
      column Q or holds text in it; every earlier report is readable. */
  lemma BdFirstError(files: seq<Sheet>)
    requires BdMaster(files).Err?
    ensures var i := BdMaster(files).error.file;
      i < |files| && BdMaster(files) == BdFrame(files[i], i) &&
      !NumericColumn(files[i], BdAmountColumn) &&
      forall k :: 0 <= k < i ==> NumericColumn(files[k], BdAmountColumn)
  {
    var frames := BdFrames(files);
    ConcatSpec(frames);
    var i :| 0 <= i < |frames| && frames[i] == Concat(frames) && forall k :: 0 <= k < i ==> frames[k].Ok?;
    assert frames[i] == BdFrame(files[i], i);
    assert forall k :: 0 <= k < i ==> frames[k] == BdFrame(files[k], k);
  }

  lemma ConcatLast<T>(frames: seq<Result<seq<T>>>)
    requires frames != []
    ensures Concat(frames).Ok? <==> Concat(frames[..|frames| - 1]).Ok? && frames[|frames| - 1].Ok?
    ensures Concat(frames).Ok? ==>
      Concat(frames).value == Concat(frames[..|frames| - 1]).value + frames[|frames| - 1].value
  {
  }

  lemma ProjectSdoAppend(a: seq<Row>, b: seq<Row>)
    requires forall r :: r in a + b ==> HasAmount(r, AmountColumn)
    ensures ProjectSdo(a + b) == ProjectSdo(a) + ProjectSdo(b)
  {
    assert forall r :: r in a ==> r in a + b;
    assert forall r :: r in b ==> r in a + b;
  }

  lemma ColumnAppend(a: seq<Row>, b: seq<Row>, col: nat)
    requires forall r :: r in a + b ==> HasAmount(r, col)
    ensures Column(a + b, col) == Column(a, col) + Column(b, col)
  {
    assert forall r :: r in a ==> r in a + b;
    assert forall r :: r in b ==> r in a + b;
  }

  /** The SDO master table is columns B, D and H, with the derived code, of
      every row of every sheet, in upload order. */
  lemma {:induction false} SdoMasterRows(files: seq<Sheet>)
    requires SdoMaster(files).Ok?
    ensures forall r :: r in AllRows(files) ==> HasAmount(r, AmountColumn)
    ensures SdoMaster(files).value == ProjectSdo(AllRows(files))
  {
    if files != [] {
      var init := files[..|files| - 1];
      var frames := SdoFrames(files);
      assert SdoFrames(init) == frames[..|files| - 1];
      ConcatLast(frames);
      SdoMasterRows(init);
      ProjectSdoAppend(AllRows(init), files[|files| - 1].rows);
    }
  }

  /** The BillDesk amounts are column Q of every row of every report, in upload order. */
  lemma {:induction false} BdMasterRows(files: seq<Sheet>)
    requires BdMaster(files).Ok?
    ensures forall r :: r in AllRows(files) ==> HasAmount(r, BdAmountColumn)
    ensures BdMaster(files).value == Column(AllRows(files), BdAmountColumn)
  {
    if files != [] {
      var init := files[..|files| - 1];
      var frames := BdFrames(files);
      assert BdFrames(init) == frames[..|files| - 1];
      ConcatLast(frames);
      BdMasterRows(init);
      ColumnAppend(AllRows(init), files[|files| - 1].rows, BdAmountColumn);
    }
  }

  /** The sum of column Q of each report taken separately, added up. */
  function FileTotals(files: seq<Sheet>): int
    requires forall i :: 0 <= i < |files| ==> NumericColumn(files[i], BdAmountColumn)
  {
    if files == [] then 0
    else
      var last := files[|files| - 1];
      assert NumericColumn(last, BdAmountColumn);
      FileTotals(files[..|files| - 1]) + Sum(Column(last.rows, BdAmountColumn))
  }

  /** Concatenating first and summing once gives the sum of the per-report totals. */
  lemma {:induction false} BdTotalIsSumOfFileTotals(files: seq<Sheet>)
    requires BdMaster(files).Ok?
    ensures forall i :: 0 <= i < |files| ==> NumericColumn(files[i], BdAmountColumn)
    ensures Sum(BdMaster(files).value) == FileTotals(files)
  {
    BdMasterOkIff(files);
    if files != [] {
      var init := files[..|files| - 1];
      var frames := BdFrames(files);
      assert BdFrames(init) == frames[..|files| - 1];
      ConcatLast(frames);
      BdTotalIsSumOfFileTotals(init);
      SumAppend(BdMaster(init).value, Column(files[|files| - 1].rows, BdAmountColumn));
    }
  }
}
