/** One reconciliation run: ingest the uploads, group the SDO collections,
    total the three sources, and compare the SDO and BillDesk grand totals.

    Only the grand totals are compared; there is no per-key matching. Any
    data error aborts the run: no total, table or verdict is produced.
 */
module Recon {
  import opened Tables
  import opened Grouping
  import opened Ingest
  import opened Bank

  /** The key of the grouped SDO table: (SDO_Code, Consumer_No, Bill_No). */
  datatype SdoKey = SdoKey(code: string, consumer: Cell, bill: Cell)

  function KeyOf(row: SdoRow): SdoKey
  {
    SdoKey(row.code, row.consumer, row.bill)
  }

  /** The master table keyed by consumer and bill. */
  function ByBill(master: seq<SdoRow>): seq<Entry<SdoKey>>
  {
    seq(|master|, j requires 0 <= j < |master| => Entry(KeyOf(master[j]), master[j].amount))
  }

  /** The master table keyed by SDO code alone. */
  function ByCode(master: seq<SdoRow>): seq<Entry<string>>
  {
    seq(|master|, j requires 0 <= j < |master| => Entry(master[j].code, master[j].amount))
  }

  function Amounts(master: seq<SdoRow>): seq<int>
  {
    seq(|master|, j requires 0 <= j < |master| => master[j].amount)
  }

  /** The outcome of comparing the two grand totals. */
  datatype Verdict = Balanced | Discrepancy(difference: nat)

  /** A discrepancy exactly when the totals differ, reported as the absolute difference. */
  function Compare(totalSdo: int, totalBd: int): (v: Verdict)
    ensures v.Discrepancy? <==> totalSdo != totalBd
    ensures v.Discrepancy? ==>
      v.difference > 0 && (v.difference == totalSdo - totalBd || v.difference == totalBd - totalSdo)
  {
    if totalSdo != totalBd then
      Discrepancy(if totalSdo > totalBd then totalSdo - totalBd else totalBd - totalSdo)
    else Balanced
  }

  /** Everything a successful run shows. */
  datatype Report = Report(
    totalSdo: int,
    totalBd: int,
    bankCredit: int,
    verdict: Verdict,
    grouped: seq<Entry<SdoKey>>,
    summary: seq<Entry<string>>)

  /** What a run ends in: waiting for uploads, the "Data Error" branch, or a report. */
  datatype Outcome = AwaitingUploads | DataErrorShown(error: DataError) | Reconciled(report: Report)

  /** The run as a function of the uploads. */
  function Reconciliation(sdoFiles: seq<Sheet>, bdFiles: seq<Sheet>, bank: Option<Sheet>): Outcome
  {
    if |sdoFiles| == 0 || |bdFiles| == 0 || bank.None? then AwaitingUploads
    else
      match SdoMaster(sdoFiles)
      case Err(e) => DataErrorShown(e)
      case Ok(master) =>
        match BdMaster(bdFiles)
        case Err(e) => DataErrorShown(e)
        case Ok(bd) =>
          match CreditTotal(bank.value)
          case Err(e) => DataErrorShown(e)
          case Ok(credit) =>
            var totalSdo, totalBd := Sum(Amounts(master)), Sum(bd);
            Reconciled(Report(totalSdo, totalBd, credit, Compare(totalSdo, totalBd),
                              GroupSum(ByBill(master)), GroupSum(ByCode(master))))
  }

  /** The script, step by step. */
  method Reconcile(sdoFiles: seq<Sheet>, bdFiles: seq<Sheet>, bank: Option<Sheet>) returns (out: Outcome)
    ensures out == Reconciliation(sdoFiles, bdFiles, bank)
  {
    if |sdoFiles| == 0 || |bdFiles| == 0 || bank.None? {
      return AwaitingUploads;
    }
    var sdo := IngestSdo(sdoFiles);
    if sdo.Err? {
      return DataErrorShown(sdo.error);
    }
    var master := sdo.value;
    var grouped := GroupSum(ByBill(master));
    var bd := IngestBillDesk(bdFiles);
    if bd.Err? {
      return DataErrorShown(bd.error);
    }
    var credit := CreditTotal(bank.value);
    if credit.Err? {
      return DataErrorShown(credit.error);
    }
    var totalSdo := Sum(Amounts(master));
    var totalBd := Sum(bd.value);
    var verdict := Compare(totalSdo, totalBd);
    var summary := GroupSum(ByCode(master));
    out := Reconciled(Report(totalSdo, totalBd, credit.value, verdict, grouped, summary));
  }

  /** Swapping the totals does not change the verdict. */
  lemma CompareSymmetric(a: int, b: int)
    ensures Compare(a, b) == Compare(b, a)
  {
  }

  /** Every upload can be read: each SDO sheet has a numeric column H, each
      BillDesk report a numeric column Q, and the statement has a data row
      and a last column holding a number on every gateway row. */
  predicate Readable(sdoFiles: seq<Sheet>, bdFiles: seq<Sheet>, bank: Sheet)
  {
    && |sdoFiles| > 0 && |bdFiles| > 0
    && (forall i :: 0 <= i < |sdoFiles| ==> NumericColumn(sdoFiles[i], AmountColumn))
    && (forall i :: 0 <= i < |bdFiles| ==> NumericColumn(bdFiles[i], BdAmountColumn))
    && bank.width > 0 && |bank.rows| > 0
    && (forall r :: r in bank.rows && IsGatewayCredit(r) ==> HasAmount(r, bank.width - 1))
  }

  /** A run waits for uploads exactly when one of the three is missing, and
      produces a report exactly when every upload can be read; there is no
      partial report. */
  lemma ReconciliationOutcome(sdoFiles: seq<Sheet>, bdFiles: seq<Sheet>, bank: Option<Sheet>)
    ensures Reconciliation(sdoFiles, bdFiles, bank).AwaitingUploads? <==>
      |sdoFiles| == 0 || |bdFiles| == 0 || bank.None?
    ensures Reconciliation(sdoFiles, bdFiles, bank).Reconciled? <==>
      bank.Some? && Readable(sdoFiles, bdFiles, bank.value)
  {
    SdoMasterOkIff(sdoFiles);
    BdMasterOkIff(bdFiles);
    if bank.Some? {
      CreditTotalSpec(bank.value);
    }
  }

  lemma AmountsOfProjection(rows: seq<Row>)
    requires forall r :: r in rows ==> HasAmount(r, AmountColumn)
    ensures Amounts(ProjectSdo(rows)) == Column(rows, AmountColumn)
  {
  }

  /** A readable run's report: its totals are those of the two master
      tables, and its bank credit is the credit total of the statement. */
  lemma ReconciledParts(sdoFiles: seq<Sheet>, bdFiles: seq<Sheet>, bank: Sheet)
    requires Readable(sdoFiles, bdFiles, bank)
    ensures Reconciliation(sdoFiles, bdFiles, Some(bank)).Reconciled?
    ensures SdoMaster(sdoFiles).Ok? && BdMaster(bdFiles).Ok?
    ensures var rep := Reconciliation(sdoFiles, bdFiles, Some(bank)).report;
      && rep.totalSdo == Sum(Amounts(SdoMaster(sdoFiles).value))
      && rep.totalBd == Sum(BdMaster(bdFiles).value)
      && CreditTotal(bank) == Ok(rep.bankCredit)
  {
    ReconciliationOutcome(sdoFiles, bdFiles, Some(bank));
  }

  /** The SDO total of a readable run is column H summed over every row of every SDO sheet. */
  lemma ReportSdoTotal(sdoFiles: seq<Sheet>, bdFiles: seq<Sheet>, bank: Sheet)
    requires Readable(sdoFiles, bdFiles, bank)
    ensures Reconciliation(sdoFiles, bdFiles, Some(bank)).Reconciled?
    ensures forall r :: r in AllRows(sdoFiles) ==> HasAmount(r, AmountColumn)
    ensures Reconciliation(sdoFiles, bdFiles, Some(bank)).report.totalSdo ==
      Sum(Column(AllRows(sdoFiles), AmountColumn))
  {
    ReconciledParts(sdoFiles, bdFiles, bank);
    SdoMasterRows(sdoFiles);
    AmountsOfProjection(AllRows(sdoFiles));
  }

  /** The BillDesk total of a readable run is column Q summed over every row
      of every report, which is also the sum of the per-report totals. */
  lemma ReportBdTotal(sdoFiles: seq<Sheet>, bdFiles: seq<Sheet>, bank: Sheet)
    requires Readable(sdoFiles, bdFiles, bank)
    ensures Reconciliation(sdoFiles, bdFiles, Some(bank)).Reconciled?
    ensures forall r :: r in AllRows(bdFiles) ==> HasAmount(r, BdAmountColumn)
    ensures Reconciliation(sdoFiles, bdFiles, Some(bank)).report.totalBd ==
      Sum(Column(AllRows(bdFiles), BdAmountColumn))
    ensures Reconciliation(sdoFiles, bdFiles, Some(bank)).report.totalBd == FileTotals(bdFiles)
  {
    ReconciledParts(sdoFiles, bdFiles, bank);
    BdMasterRows(bdFiles);
    BdTotalIsSumOfFileTotals(bdFiles);
  }

  /** The bank credit of a readable run is the last column summed over the
      gateway rows of the statement, and over those rows only. */
  lemma ReportBankCredit(sdoFiles: seq<Sheet>, bdFiles: seq<Sheet>, bank: Sheet)
    requires Readable(sdoFiles, bdFiles, bank)
    ensures Reconciliation(sdoFiles, bdFiles, Some(bank)).Reconciled?
    ensures forall r :: r in GatewayRows(bank.rows) ==> HasAmount(r, bank.width - 1)
    ensures Reconciliation(sdoFiles, bdFiles, Some(bank)).report.bankCredit ==
      Sum(Column(GatewayRows(bank.rows), bank.width - 1))
  {
    ReconciledParts(sdoFiles, bdFiles, bank);
    CreditTotalSpec(bank);
  }

  /** The grouped SDO table: one row per distinct (code, consumer, bill) of
      the master table, each the sum of all master amounts with that key,
      and together the SDO total. */
  lemma {:induction false} GroupedByBill(master: seq<SdoRow>)
    ensures var g := GroupSum(ByBill(master));
      && DistinctKeys(g)
      && Keys(g) == Keys(ByBill(master))
      && |g| == |Keys(ByBill(master))|
      && (forall k :: k in Keys(ByBill(master)) <==> exists j :: 0 <= j < |master| && KeyOf(master[j]) == k)
      && (forall i :: 0 <= i < |g| ==> g[i].amount == SumFor(ByBill(master), g[i].key))
      && Total(g) == Sum(Amounts(master))
  {
    var es := ByBill(master);
    GroupSumSpec(es);
    TotalOfAmounts(es, Amounts(master));
    ByBillKeys(master);
  }

  lemma ByBillKeys(master: seq<SdoRow>)
    ensures forall k :: k in Keys(ByBill(master)) <==> exists j :: 0 <= j < |master| && KeyOf(master[j]) == k
  {
    var es := ByBill(master);
    forall k
      ensures k in Keys(es) <==> exists j :: 0 <= j < |master| && KeyOf(master[j]) == k
    {
      KeysAt(es, k);
      assert forall j :: 0 <= j < |master| ==> es[j].key == KeyOf(master[j]);
    }
  }

  lemma ByCodeKeys(master: seq<SdoRow>)
    ensures forall c :: c in Keys(ByCode(master)) <==> exists j :: 0 <= j < |master| && master[j].code == c
  {
    var es := ByCode(master);
    forall c
      ensures c in Keys(es) <==> exists j :: 0 <= j < |master| && master[j].code == c
    {
      KeysAt(es, c);
      assert forall j :: 0 <= j < |master| ==> es[j].key == master[j].code;
    }
  }

  /** The SDO-wise summary: one row per distinct SDO code, each the sum of
      that code's amounts, and together the SDO total. */
  lemma {:induction false} SummaryByCode(master: seq<SdoRow>)
    ensures var g := GroupSum(ByCode(master));
      && DistinctKeys(g)
      && Keys(g) == Keys(ByCode(master))
      && |g| == |Keys(ByCode(master))|
      && (forall c :: c in Keys(ByCode(master)) <==> exists j :: 0 <= j < |master| && master[j].code == c)
      && (forall i :: 0 <= i < |g| ==> g[i].amount == SumFor(ByCode(master), g[i].key))
      && Total(g) == Sum(Amounts(master))
  {
    var es := ByCode(master);
    GroupSumSpec(es);
    TotalOfAmounts(es, Amounts(master));
    ByCodeKeys(master);
  }

  /** The two tables of a readable run's report both have distinct keys and
      add up to its SDO total. */
  lemma ReportTables(sdoFiles: seq<Sheet>, bdFiles: seq<Sheet>, bank: Sheet)
    requires Readable(sdoFiles, bdFiles, bank)
    ensures Reconciliation(sdoFiles, bdFiles, Some(bank)).Reconciled?
    ensures var rep := Reconciliation(sdoFiles, bdFiles, Some(bank)).report;
      && DistinctKeys(rep.grouped) && Total(rep.grouped) == rep.totalSdo
      && DistinctKeys(rep.summary) && Total(rep.summary) == rep.totalSdo
  {
    ReconciledParts(sdoFiles, bdFiles, bank);
    GroupedByBill(SdoMaster(sdoFiles).value);
    SummaryByCode(SdoMaster(sdoFiles).value);
  }
}
