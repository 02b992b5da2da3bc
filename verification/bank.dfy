/** The bank statement: only credits remitted by the payment gateway count.

    A row is a gateway credit when any of its cells, in string form, contains
    "INDIAIDEAS" regardless of case. The credit total is the sum of the last
    column over those rows alone.
 */
module Bank {
  import opened Tables
  import opened Text

  const Marker: string := "INDIAIDEAS"

  /** The cell, as a string, contains the gateway's remitter name in any case. */
  predicate Mentions(c: Cell)
  {
    ContainsIgnoreCase(Render(c), Marker)
  }

  /** A text cell that contains the remitter name in any case. */
  predicate TextMentions(c: Cell)
  {
    c.Text? && ContainsIgnoreCase(c.s, Marker)
  }

  /** A string without the letter I in either case never contains the remitter name. */
  lemma {:induction false} WithoutINeverMentions(s: string)
    requires forall i :: 0 <= i < |s| ==> Upper(s[i]) != 'I'
    ensures !ContainsIgnoreCase(s, Marker)
  {
    var p := Fold(Marker);
    ContainsIffOccurs(Fold(s), p);
    forall i: nat
      ensures !OccursAt(Fold(s), p, i)
    {
      if i + |p| <= |s| {
        assert p[0] == 'I';
        assert Fold(s)[i..i + |p|][0] == Fold(s)[i] == Upper(s[i]);
      }
    }
  }

  /** Only text can mention the gateway: a number's string form is a sign and
      digits, so it never contains the name. */
  lemma MentionsOnlyText(c: Cell)
    ensures Mentions(c) <==> TextMentions(c)
  {
    if c.Num? {
      var m := if c.n < 0 then -c.n else c.n;
      NatToStringDigits(m);
      WithoutINeverMentions(Render(c));
    }
  }

  /** The row mask (`row.astype(str).str.contains('INDIAIDEAS', case=False).any()`):
      some cell mentions the gateway. Written over text cells, which by
      MentionsOnlyText is the same as over every cell's string form. */
  predicate IsGatewayCredit(row: Row)
  {
    exists c :: c in row && TextMentions(c)
  }

  lemma GatewayCreditIffSomeCellMentions(row: Row)
    ensures IsGatewayCredit(row) <==> exists c :: c in row && Mentions(c)
  {
    forall c | c in row
      ensures Mentions(c) <==> TextMentions(c)
    {
      MentionsOnlyText(c);
    }
  }

  /** `a` is `b` with some elements left out and the rest in their order. */
  predicate IsSubsequence<T(==)>(a: seq<T>, b: seq<T>)
    decreases |b|
  {
    a == [] || (b != [] && ((a[0] == b[0] && IsSubsequence(a[1..], b[1..])) || IsSubsequence(a, b[1..])))
  }

  /** The rows the mask keeps (`bank_df[bank_mask]`). */
  function GatewayRows(rows: seq<Row>): seq<Row>
  {
    if rows == [] then []
    else if IsGatewayCredit(rows[0]) then [rows[0]] + GatewayRows(rows[1..])
    else GatewayRows(rows[1..])
  }

  /** The mask keeps exactly the gateway rows, each as often as it occurs,
      in their order. */
  lemma {:induction false} GatewayRowsSpec(rows: seq<Row>)
    ensures forall r :: r in GatewayRows(rows) <==> r in rows && IsGatewayCredit(r)
    ensures forall r :: multiset(GatewayRows(rows))[r] == if IsGatewayCredit(r) then multiset(rows)[r] else 0
    ensures IsSubsequence(GatewayRows(rows), rows)
  {
    if rows != [] {
      var rest := GatewayRows(rows[1..]);
      GatewayRowsSpec(rows[1..]);
      assert rows == [rows[0]] + rows[1..];
      assert multiset(rows) == multiset{rows[0]} + multiset(rows[1..]);
      if IsGatewayCredit(rows[0]) {
        assert ([rows[0]] + rest)[1..] == rest;
        assert multiset(GatewayRows(rows)) == multiset{rows[0]} + multiset(rest);
      }
      assert forall r :: r in rows <==> r == rows[0] || r in rows[1..];
    }
  }

  /** Filtering a concatenation filters each part. */
  lemma {:induction false} GatewayRowsAppend(a: seq<Row>, b: seq<Row>)
    ensures GatewayRows(a + b) == GatewayRows(a) + GatewayRows(b)
  {
    if a == [] {
      assert a + b == b;
    } else {
      assert (a + b)[1..] == a[1..] + b;
      GatewayRowsAppend(a[1..], b);
    }
  }

  /** The sum of column `col` over `rows`; text in that column cannot be summed. */
  function Credits(rows: seq<Row>, col: nat): Result<int>
  {
    if rows == [] then Ok(0)
    else if !HasAmount(rows[0], col) then Err(NonNumericAmount(BankStatement, 0))
    else
      match Credits(rows[1..], col)
      case Err(e) => Err(e)
      case Ok(t) => Ok(rows[0][col].n + t)
  }

  /** `bank_filtered.iloc[:, -1].sum()`. A sheet without columns has no last
      column. A sheet without data rows has no last column after filtering
      either: on zero rows the row-wise mask is not a boolean mask, indexing
      with it selects no columns, and the filtered frame has width 0. */
  function CreditTotal(bank: Sheet): Result<int>
  {
    if bank.width == 0 || |bank.rows| == 0 then Err(TooFewColumns(BankStatement, 0, 0))
    else Credits(GatewayRows(bank.rows), bank.width - 1)
  }

  lemma {:induction false} CreditsSpec(rows: seq<Row>, col: nat)
    ensures Credits(rows, col).Ok? <==> forall r :: r in rows ==> HasAmount(r, col)
    ensures Credits(rows, col).Ok? ==> Credits(rows, col).value == Sum(Column(rows, col))
  {
    if rows != [] {
      CreditsSpec(rows[1..], col);
      assert forall r :: r in rows <==> r == rows[0] || r in rows[1..];
      if Credits(rows, col).Ok? {
        assert Column(rows, col) == [rows[0][col].n] + Column(rows[1..], col);
      }
    }
  }

  lemma GatewayCredits(rows: seq<Row>, col: nat)
    ensures Credits(GatewayRows(rows), col).Ok? <==>
      forall r :: r in rows && IsGatewayCredit(r) ==> HasAmount(r, col)
  {
    GatewayRowsSpec(rows);
    CreditsSpec(GatewayRows(rows), col);
  }

  /** The credit total exists exactly when the sheet has a column and a data
      row, and every gateway row holds a number in its last column; it is
      then the sum of that column over the gateway rows only. */
  lemma CreditTotalSpec(bank: Sheet)
    ensures CreditTotal(bank).Ok? <==>
      && bank.width > 0 && |bank.rows| > 0
      && forall r :: r in bank.rows && IsGatewayCredit(r) ==> HasAmount(r, bank.width - 1)
    ensures CreditTotal(bank).Ok? ==>
      (forall r :: r in GatewayRows(bank.rows) ==> HasAmount(r, bank.width - 1)) &&
      CreditTotal(bank).value == Sum(Column(GatewayRows(bank.rows), bank.width - 1))
  {
    if bank.width > 0 && |bank.rows| > 0 {
      var kept, col := GatewayRows(bank.rows), bank.width - 1;
      assert CreditTotal(bank) == Credits(kept, col);
      GatewayCredits(bank.rows, col);
      CreditsSpec(kept, col);
    }
  }

  /** The statement with row `k` taken out. */
  function RemoveRow(bank: Sheet, k: nat): (s: Sheet)
    requires k < |bank.rows|
    ensures s.width == bank.width && s.rows == bank.rows[..k] + bank.rows[k + 1..]
  {
    var rows := bank.rows[..k] + bank.rows[k + 1..];
    assert forall r :: r in rows ==> r in bank.rows;
    Table(bank.width, rows)
  }

  lemma SplitAt<T>(s: seq<T>, k: nat)
    requires k < |s|
    ensures s == (s[..k] + [s[k]]) + s[k + 1..]
  {
  }

  /** Filtering skips a rejected row wherever it stands. */
  lemma RejectedRowFiltered(rows: seq<Row>, k: nat)
    requires k < |rows| && !IsGatewayCredit(rows[k])
    ensures GatewayRows(rows[..k] + rows[k + 1..]) == GatewayRows(rows)
  {
    var before, after := rows[..k], rows[k + 1..];
    var excluded := [rows[k]];
    assert GatewayRows(excluded) == [] by {
      assert excluded[1..] == [];
    }
    SplitAt(rows, k);
    GatewayRowsAppend(before + excluded, after);
    GatewayRowsAppend(before, excluded);
    assert GatewayRows(before + excluded) == GatewayRows(before);
    GatewayRowsAppend(before, after);
  }

  /** A row the mask rejects contributes nothing: removing it from a
      statement with other rows changes neither the credit total nor whether
      one can be computed. Removing the only row leaves a statement without
      data rows, which is a data error. */
  lemma ExcludedRowIgnored(bank: Sheet, k: nat)
    requires k < |bank.rows| && !IsGatewayCredit(bank.rows[k])
    ensures |bank.rows| > 1 ==> CreditTotal(RemoveRow(bank, k)) == CreditTotal(bank)
    ensures |bank.rows| == 1 ==> CreditTotal(RemoveRow(bank, k)).Err?
  {
    var smaller := RemoveRow(bank, k);
    assert |smaller.rows| == |bank.rows| - 1;
    RejectedRowFiltered(bank.rows, k);
  }
}
