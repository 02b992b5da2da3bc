/** Worked examples: concrete uploads and what the run makes of them. */
module Scenarios {
  import opened Tables
  import opened Text
  import opened Grouping
  import opened Ingest
  import opened Bank
  import opened Recon

  /** Two collections against the same consumer and bill are summed into one row. */
  lemma DuplicateBillsSummed()
    ensures var k := SdoKey("123", Num(1234567), Text("B-1"));
      GroupSum(ByBill([SdoRow("123", Num(1234567), Text("B-1"), 100),
                       SdoRow("123", Num(1234567), Text("B-1"), 150)])) == [Entry(k, 250)]
  {
    var row := SdoRow("123", Num(1234567), Text("B-1"), 100);
    var row' := SdoRow("123", Num(1234567), Text("B-1"), 150);
    var es := ByBill([row, row']);
    assert es == [Entry(KeyOf(row), 100), Entry(KeyOf(row), 150)];
    assert es[1..] == [Entry(KeyOf(row), 150)];
    assert es[1..][1..] == [];
  }

  lemma PaymentViaGatewayMentions()
    ensures TextMentions(Text("PAYMENT VIA INDIAIDEAS.COM"))
  {
    var s := "PAYMENT VIA INDIAIDEAS.COM";
    assert s[12..22] == Marker;
    assert Fold(s)[12..22] == Fold(s[12..22]);
    assert Fold(Marker) == Marker;
    assert OccursAt(Fold(s), Fold(Marker), 12);
    ContainsIffOccurs(Fold(s), Fold(Marker));
  }

  lemma AchTransferIsNotGateway()
    ensures !IsGatewayCredit([Text("ACH TRANSFER XYZ"), Num(70000)])
  {
    var ach := [Text("ACH TRANSFER XYZ"), Num(70000)];
    WithoutINeverMentions("ACH TRANSFER XYZ");
    assert forall c :: c in ach ==> c == ach[0] || c == ach[1];
  }

  lemma PaymentViaGatewayIsGateway()
    ensures IsGatewayCredit([Text("PAYMENT VIA INDIAIDEAS.COM"), Num(125000)])
  {
    var gateway := [Text("PAYMENT VIA INDIAIDEAS.COM"), Num(125000)];
    PaymentViaGatewayMentions();
    assert gateway[0] in gateway;
  }

  /** A bank row that does not name the gateway is left out of the credit
      total; one that does is counted. */
  lemma OnlyGatewayCreditsCounted()
    ensures CreditTotal(Table(2, [[Text("ACH TRANSFER XYZ"), Num(70000)],
                                  [Text("PAYMENT VIA INDIAIDEAS.COM"), Num(125000)]])) == Ok(125000)
  {
    var ach := [Text("ACH TRANSFER XYZ"), Num(70000)];
    var gateway := [Text("PAYMENT VIA INDIAIDEAS.COM"), Num(125000)];
    var rows := [ach, gateway];
    AchTransferIsNotGateway();
    PaymentViaGatewayIsGateway();
    assert rows[1..] == [gateway] && rows[1..][1..] == [];
    var kept: seq<Row> := [gateway];
    assert kept[1..] == [];
    assert GatewayRows(kept) == [gateway] + GatewayRows([]);
    assert GatewayRows(rows) == GatewayRows(kept);
  }

  /** A statement with columns but no data rows has no credit total. */
  lemma EmptyStatementIsDataError()
    ensures CreditTotal(Table(2, [])) == Err(TooFewColumns(BankStatement, 0, 0))
  {
  }

  /** A consumer number shorter than three characters is its own SDO code. */
  lemma ShortConsumerNumberIsItsOwnCode()
    ensures SdoRecord([Num(0), Num(42), Num(0), Num(0), Num(0), Num(0), Num(0), Num(500)]).code == "42"
  {
  }
}
