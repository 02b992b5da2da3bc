# Collection reconciliation, modelled in Dafny

This project models the reconciliation pipeline of a small collection
reconciliation tool. The tool is a single Streamlit script, `app.py`. It
takes three kinds of upload:

- SDO ("HeadWise") field-collection sheets;
- BillDesk payment-gateway settlement reports;
- one bank statement.

From these it computes:

- the SDO total, from column H of every SDO sheet;
- the BillDesk total, from column Q of every BillDesk report;
- the bank credit, from the last column of the statement rows that name the
  gateway, INDIAIDEAS;
- a verdict: a discrepancy, with its absolute size, exactly when the SDO and
  BillDesk totals differ;
- two grouped tables: SDO amounts per (SDO code, consumer number, bill
  number), and per SDO code alone. The SDO code is the first three
  characters of the consumer number.

The tool only compares the two grand totals. It does no per-key matching,
outer join or per-row status.

Modules:

- `Tables` (`tables.dfy`): cells (`Text` or `Num`, amounts in paise), rows,
  rectangular sheets, the string form of a cell, sums, and the data errors.
- `Text` (`text.dfy`): `str[:n]` and the case-insensitive substring test.
- `Grouping` (`grouping.dfy`): a generic group-by-and-sum with its proved
  specification.
- `Ingest` (`ingest.dfy`): the two per-upload loops as methods, proved
  against the concatenation of per-sheet frames. It also states what the
  master tables are, and when and how ingestion fails.
- `Bank` (`bank.dfy`): the gateway-row mask, the filter and the credit
  total.
- `Recon` (`recon.dfy`): one run. `Reconcile` is the script step by step.
  `Reconciliation` is the same run as a function. The lemmas state what the
  report contains.
- `Scenarios` (`scenarios.dfy`): worked examples on concrete uploads.

Every exception inside the script's `try` block ends in the single "Data
Error" branch. The model makes that an `Outcome`: `AwaitingUploads`,
`DataErrorShown(error)` or `Reconciled(report)`. A `DataErrorShown` outcome
carries no totals. The script itself may already have drawn some metrics
before it fails (see "Left out").

## Model

| member | source | states |
|---|---|---|
| Text.Prefix | app.py:29 | `s[:n]` is a prefix of `s`, of length n, or all of `s` when `s` is shorter |
| Text.ContainsIffOccurs | app.py:54 | the substring scan succeeds exactly when the pattern occurs at some position |
| Ingest.SdoRecord | app.py:26-29 | a master row holds columns B, D and H of the sheet row; its SDO code is the first three characters of the consumer number's string form, or the whole string when that is shorter |
| Ingest.IngestSdo | app.py:21-32 | the SDO loop yields the concatenation of every sheet's frame in upload order, or the error of the first sheet that cannot be read |
| Ingest.IngestBillDesk | app.py:37-49 | the BillDesk loop yields the concatenation of every report's column Q in upload order, or the error of the first report that cannot be read |
| Ingest.ConcatSpec | app.py:32 | the concatenation succeeds exactly when every frame does; otherwise it carries the error of the first failed frame, and every frame before it succeeded |
| Ingest.SdoMasterOkIff | app.py:22-32 | the SDO master table exists exactly when every sheet has a column H holding a number on every row |
| Ingest.BdMasterOkIff | app.py:38-49 | the BillDesk amounts exist exactly when every report has a column Q holding a number on every row |
| Ingest.SdoFirstError | app.py:22-30 | a failed SDO ingestion names the first unreadable sheet: that sheet lacks a numeric column H, every earlier sheet has one, and the error is that sheet's own |
| Ingest.BdFirstError | app.py:38-47 | a failed BillDesk ingestion names the first unreadable report in the same way, for column Q |
| Ingest.SdoMasterRows | app.py:22-32 | the SDO master table is the projection of every row of every sheet, in upload order |
| Ingest.BdMasterRows | app.py:38-49 | the BillDesk amounts are column Q of every row of every report, in upload order |
| Ingest.BdTotalIsSumOfFileTotals | app.py:44-62 | summing the concatenated column Q equals adding up the per-report totals |
| Grouping.GroupSum | app.py:34 | the grouped table has distinct keys, the same key set as its input and the same total, and for every key the input's sum under that key |
| Grouping.GroupSumSpec | app.py:34 | one grouped row per distinct input key, each row's amount the sum of all input amounts with that key, and the total preserved |
| Bank.MentionsOnlyText | app.py:54 | a cell's string form contains INDIAIDEAS in any case exactly when it is text that does; a number's string form never does |
| Bank.GatewayCreditIffSomeCellMentions | app.py:54 | a row is a gateway credit exactly when some cell, in string form, contains INDIAIDEAS ignoring case |
| Bank.GatewayRowsSpec | app.py:55 | the filter keeps exactly the gateway rows, each as many times as it occurs in the statement, as an order-preserving subsequence of the statement |
| Bank.GatewayRowsAppend | app.py:54-55 | filtering a concatenation of rows filters each part separately |
| Bank.CreditTotalSpec | app.py:54-64 | the credit total exists exactly when the statement has a column and a data row, and every gateway row holds a number in its last column; it is then the sum of that column over the gateway rows only |
| Bank.ExcludedRowIgnored | app.py:54-64 | removing a row the mask rejects from a statement with other rows changes neither the credit total nor whether it can be computed; removing the only row makes it a data error |
| Recon.Compare | app.py:72-75 | a discrepancy is reported exactly when the totals differ; its amount is positive and is the absolute difference |
| Recon.CompareSymmetric | app.py:72-73 | swapping the two totals gives the same verdict |
| Recon.Reconcile | app.py:18-84 | the script's run equals the functional `Reconciliation` of the uploads |
| Recon.ReconciliationOutcome | app.py:18-84 | a run waits for uploads exactly when one is missing; it produces a report exactly when every SDO sheet and BillDesk report is readable, and the statement has a column and a data row, with a numeric last column on every gateway row; otherwise it ends in the data-error branch |
| Recon.ReportSdoTotal | app.py:61 | when every upload is readable, a report is produced, and its SDO total is column H summed over every row of every SDO sheet |
| Recon.ReportBdTotal | app.py:62 | when every upload is readable, a report is produced, and its BillDesk total is column Q summed over every row of every report; it also equals the sum of the per-report totals |
| Recon.ReportBankCredit | app.py:64 | when every upload is readable, a report is produced, and its bank credit is the last column summed over the statement's gateway rows only |
| Recon.GroupedByBill | app.py:32-34 | the grouped SDO table has one row per distinct (code, consumer, bill) of the master table, and its key set is exactly the master table's; each row holds the sum of that key's amounts, and together they add up to the SDO total |
| Recon.SummaryByCode | app.py:78 | the SDO-wise summary has one row per distinct SDO code, and its key set is exactly the master table's codes; each row holds the sum of that code's amounts, and together they add up to the SDO total |
| Recon.ReportTables | app.py:61-78 | when every upload is readable, both tables of the report have distinct keys and add up to its SDO total |
| Scenarios.DuplicateBillsSummed | app.py:34 | two collections against the same consumer and bill (100 and 150) become one row of 250 |
| Scenarios.PaymentViaGatewayMentions | app.py:54 | "PAYMENT VIA INDIAIDEAS.COM" mentions the gateway |
| Scenarios.AchTransferIsNotGateway | app.py:54 | a row reading "ACH TRANSFER XYZ", 70000 is not a gateway credit |
| Scenarios.PaymentViaGatewayIsGateway | app.py:54 | a row reading "PAYMENT VIA INDIAIDEAS.COM", 125000 is a gateway credit |
| Scenarios.OnlyGatewayCreditsCounted | app.py:54-64 | the credit total of a statement holding both rows above is 125000 |
| Scenarios.EmptyStatementIsDataError | app.py:54-64 | a statement with two columns and no data rows has no credit total |
| Scenarios.ShortConsumerNumberIsItsOwnCode | app.py:29 | consumer number 42 has SDO code "42" |

## Left out

- The Streamlit interface is not modelled: page set-up, uploaders, headers, metrics, tables and message texts (app.py:4-16, 58, 66-69, 73, 75, 79, 82, 84). Uploads are parameters, and a missing upload is an empty sequence or `None`.
- Excel parsing (`pd.read_excel`, app.py:24, 39, 52) is a library call. Sheets arrive already parsed, as rectangular tables of data rows.
- Amounts are integers in the smallest currency unit. Floating-point sums and their rounding, and the `₹` and `:,.2f` formatting, are not modelled.
- Empty cells and NaN are not modelled. Every cell is a number or a text. The library drops rows whose group key is missing and skips NaN amounts; neither case arises in the model.
- Tables.Render: a number renders as its integer decimal digits. The library would render a float-typed consumer column as "1234567.0". The SDO code of such a column is unaffected for numbers of three or more digits.
- Text.Fold: ignoring case uses ASCII upper-casing, not Unicode case folding.
- Grouping.GroupSum: the order of grouped rows is left unspecified, where the library sorts by key. Nothing downstream depends on the order.
- Ingest.SdoFrame and Ingest.BdFrame: text in an amount column is a data error as soon as the column is read. In the script the same input fails later. Possible points are the grouped sum (app.py:34), the totals themselves (app.py:61, 62 and 64, where a number is added to a text), and the formatting of a total (app.py:67-69). All of these end in the data-error branch.
- Which error is named when one or more uploads have faults is not settled by the model. For example, if SDO sheet 0 holds text amounts and SDO sheet 1 has only five columns, the script fails at app.py:26 on sheet 1, while the model reports the text in sheet 0.
- Output drawn before a failure is not modelled. The script may already have drawn the results header and the SDO metric, and also the BillDesk metric, before it fails at app.py:68 or 69 on a total that is a concatenated text. The model's data-error outcome carries no totals.
- Bank.CreditTotal: any text in the last column of a gateway row is a data error, and the error carries file position 0 because there is a single statement. A statement with no columns is a data error, as `iloc[:, -1]` is then out of range. A statement with columns but no data rows is the same data error. On zero rows the row-wise mask at app.py:54 is an empty non-boolean series; indexing with it at app.py:55 selects no columns, so `iloc[:, -1]` is again out of range. The error records width 0, the width of the filtered frame.
- The rename of BillDesk column 0 (app.py:46) has no effect on any result, and is not modelled.
- Ingest.IngestSdo and Ingest.IngestBillDesk append each sheet's rows to the running list directly, instead of collecting frames and concatenating them afterwards (app.py:32, 49). Both give the same sequence.
- The grouped SDO table (app.py:34) is computed but never shown by the script. The model keeps it in the `Report` so that its properties can be stated.
