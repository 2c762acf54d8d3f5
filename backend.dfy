/** The finance endpoint of the Python server. It holds its own copy of the
    finance records, as dictionaries whose `type` and `status` are plain
    strings. It answers with the records, the receivable/payable split, four
    totals and the two chart series. The split and the sums compare those
    strings, so a record with a type or status outside the usual ones is
    simply left out of the corresponding list or sum. */
module Backend {
  import opened Records
  import opened Seqs
  import opened SampleData
  import Finance

  /** One finance record as the server stores it; the dictionary key `type`
      is the field `kind`. */
  datatype Row = Row(
    id: string,
    kind: string,
    party: string,
    amount: int,
    dueDate: string,
    status: string,
    invoiceNumber: string)

  /** The four-field `totals` object of the response. */
  datatype Totals = Totals(
    totalReceivable: int,
    totalPayable: int,
    receivablePaid: int,
    receivableOverdue: int)

  datatype FinanceResponse = FinanceResponse(
    records: seq<Row>,
    receivables: seq<Row>,
    payables: seq<Row>,
    totals: Totals,
    receivableChartData: seq<Finance.ChartEntry>,
    payableChartData: seq<Finance.ChartEntry>)

  /** The module-level `records` list of the server. */
  const ServerRecords: seq<Row> := [
    Row("FIN001", "Receivable", "Green Grocery Mart", 6750, "2026-03-01", "Pending", "INV-001"),
    Row("FIN002", "Receivable", "Farm to Table Co-op", 8000, "2026-02-24", "Overdue", "INV-002"),
    Row("FIN003", "Receivable", "Fresh Express Supermarket", 5500, "2026-02-28", "Paid", "INV-003"),
    Row("FIN004", "Payable", "Fresh Farms Co.", 16000, "2026-03-08", "Pending", "BILL-001"),
    Row("FIN005", "Payable", "Green Leaf Suppliers", 8400, "2026-03-05", "Pending", "BILL-002"),
    Row("FIN006", "Payable", "Bulk Veggie Mart", 20000, "2026-03-01", "Paid", "BILL-003"),
    Row("FIN007", "Receivable", "Corner Store 24/7", 2065, "2026-03-05", "Pending", "INV-004")
  ]

  function RowAmount(r: Row): int { r.amount }

  /** The comprehension condition `r["type"] == kind`. */
  function KindIs(kind: string): Row -> bool
  {
    (r: Row) => r.kind == kind
  }

  /** The generator condition `r["status"] == status`. */
  function StatusIs(status: string): Row -> bool
  {
    (r: Row) => r.status == status
  }

  /** `sum(r["amount"] for r in rows if r["status"] == status)`. */
  function AmountWithStatus(status: string, rows: seq<Row>): int
  {
    Sum(RowAmount, Filter(StatusIs(status), rows))
  }

  /** `get_finance_data()` over the given records. The records come back
      unchanged; receivables and payables keep the original order and hold
      exactly the records whose type is "Receivable", respectively "Payable". */
  function GetFinanceData(records: seq<Row>): (resp: FinanceResponse)
    ensures resp.records == records
    ensures Subseq(resp.receivables, records) && Subseq(resp.payables, records)
    ensures forall i :: 0 <= i < |records| ==>
      (records[i] in resp.receivables <==> records[i].kind == "Receivable") &&
      (records[i] in resp.payables <==> records[i].kind == "Payable")
    ensures forall i :: 0 <= i < |resp.receivables| ==> resp.receivables[i].kind == "Receivable"
    ensures forall i :: 0 <= i < |resp.payables| ==> resp.payables[i].kind == "Payable"
    ensures forall x :: multiset(resp.receivables)[x] == if x.kind == "Receivable" then multiset(records)[x] else 0
    ensures forall x :: multiset(resp.payables)[x] == if x.kind == "Payable" then multiset(records)[x] else 0
  {
    FilterCounts(KindIs("Receivable"), records);
    FilterCounts(KindIs("Payable"), records);
    var receivables := Filter(KindIs("Receivable"), records);
    var payables := Filter(KindIs("Payable"), records);
    FilterIsSubseq(KindIs("Receivable"), records);
    FilterIsSubseq(KindIs("Payable"), records);
    FilterMembers(KindIs("Receivable"), records);
    FilterMembers(KindIs("Payable"), records);
    var receivablePaid := AmountWithStatus("Paid", receivables);
    var receivablePending := AmountWithStatus("Pending", receivables);
    var receivableOverdue := AmountWithStatus("Overdue", receivables);
    var payablePaid := AmountWithStatus("Paid", payables);
    var payablePending := AmountWithStatus("Pending", payables);
    FinanceResponse(
      records,
      receivables,
      payables,
      Totals(Sum(RowAmount, receivables), Sum(RowAmount, payables), receivablePaid, receivableOverdue),
      [ Finance.ChartEntry("Collected", receivablePaid, "#16A34A"),
        Finance.ChartEntry("Pending", receivablePending, "#F59E0B"),
        Finance.ChartEntry("Overdue", receivableOverdue, "#EF4444") ],
      [ Finance.ChartEntry("Paid", payablePaid, "#16A34A"),
        Finance.ChartEntry("Pending", payablePending, "#F59E0B") ])
  }

  /** Every type is "Receivable" or "Payable". */
  predicate KindsKnown(records: seq<Row>)
  {
    forall i :: 0 <= i < |records| ==> records[i].kind == "Receivable" || records[i].kind == "Payable"
  }

  /** Every status is "Paid", "Pending" or "Overdue". */
  predicate StatusesKnown(records: seq<Row>)
  {
    forall i :: 0 <= i < |records| ==>
      records[i].status == "Paid" || records[i].status == "Pending" || records[i].status == "Overdue"
  }

  /** When every type is known, receivables and payables together hold every
      record once, and their totals add up to the total of all records. */
  lemma SplitIsPartition(records: seq<Row>)
    requires KindsKnown(records)
    ensures var resp := GetFinanceData(records);
      && |resp.receivables| + |resp.payables| == |records|
      && resp.totals.totalReceivable + resp.totals.totalPayable == Sum(RowAmount, records)
  {
    CountPartition(KindIs("Receivable"), KindIs("Payable"), records);
    SumPartition(RowAmount, KindIs("Receivable"), KindIs("Payable"), records);
  }

  /** The three status sums of rows with known statuses add up to their total. */
  lemma {:induction false} StatusSumsAddUp(rows: seq<Row>)
    requires StatusesKnown(rows)
    ensures AmountWithStatus("Paid", rows) + AmountWithStatus("Pending", rows)
            + AmountWithStatus("Overdue", rows) == Sum(RowAmount, rows)
  {
    if rows != [] {
      assert StatusesKnown(rows[1..]) by {
        forall i | 0 <= i < |rows[1..]| ensures rows[1..][i] == rows[i + 1] { }
      }
      StatusSumsAddUp(rows[1..]);
    }
  }

  /** When every receivable's status is known, the three slices of the receivable chart
      (collected, pending, overdue) add up to the receivable total. */
  lemma ReceivableChartAddsUp(records: seq<Row>)
    requires StatusesKnown(Filter(KindIs("Receivable"), records))
    ensures var resp := GetFinanceData(records);
      resp.receivableChartData[0].value + resp.receivableChartData[1].value
      + resp.receivableChartData[2].value == resp.totals.totalReceivable
  {
    StatusSumsAddUp(Filter(KindIs("Receivable"), records));
  }

  /** A receivable with an unexpected status ("Disputed") counts toward the
      receivable total but toward none of the three slices. */
  lemma UnknownStatusIsLeftOut()
    ensures var resp := GetFinanceData([Row("X", "Receivable", "P", 100, "", "Disputed", "")]);
      && resp.totals.totalReceivable == 100
      && resp.receivableChartData[0].value + resp.receivableChartData[1].value
         + resp.receivableChartData[2].value == 0
  {
    var r := Row("X", "Receivable", "P", 100, "", "Disputed", "");
    FilterCons(KindIs("Receivable"), r, []);
    FilterCons(StatusIs("Paid"), r, []);
    FilterCons(StatusIs("Pending"), r, []);
    FilterCons(StatusIs("Overdue"), r, []);
    SumCons(RowAmount, r, []);
  }

  /** The encoding of a client finance record as a server row: the kind and
      status become their names, every other field is copied. */
  function ToRow(r: FinanceRecord): Row
  {
    Row(r.id, FinanceKindName(r.kind), r.party, r.amount, r.dueDate, PaymentStatusName(r.status), r.invoiceNumber)
  }

  /** The server's records are the client's sample finance records, in the same order. */
  lemma ServerRecordsMatchClient()
    ensures ServerRecords == Map(ToRow, FinanceData)
  {
  }

  /** The receivables of the server are the client's, and so are their
      total and their three status sums. */
  lemma ReceivablesAgree(financeData: seq<FinanceRecord>)
    ensures var rec := Filter(IsReceivable, financeData);
      && Filter(KindIs("Receivable"), Map(ToRow, financeData)) == Map(ToRow, rec)
      && Sum(RowAmount, Map(ToRow, rec)) == Sum(AmountOf, rec)
      && AmountWithStatus("Paid", Map(ToRow, rec)) == Finance.StatusSum(IsPaid, rec)
      && AmountWithStatus("Pending", Map(ToRow, rec)) == Finance.StatusSum(IsPending, rec)
      && AmountWithStatus("Overdue", Map(ToRow, rec)) == Finance.StatusSum(IsOverdue, rec)
  {
    var rec := Filter(IsReceivable, financeData);
    FilterMap(ToRow, KindIs("Receivable"), IsReceivable, financeData);
    SumMap(ToRow, RowAmount, AmountOf, rec);
    FilterMap(ToRow, StatusIs("Paid"), IsPaid, rec);
    FilterMap(ToRow, StatusIs("Pending"), IsPending, rec);
    FilterMap(ToRow, StatusIs("Overdue"), IsOverdue, rec);
    SumMap(ToRow, RowAmount, AmountOf, Filter(IsPaid, rec));
    SumMap(ToRow, RowAmount, AmountOf, Filter(IsPending, rec));
    SumMap(ToRow, RowAmount, AmountOf, Filter(IsOverdue, rec));
  }

  /** The payables of the server are the client's, and so are their total
      and their paid and pending sums. */
  lemma PayablesAgree(financeData: seq<FinanceRecord>)
    ensures var pay := Filter(IsPayable, financeData);
      && Filter(KindIs("Payable"), Map(ToRow, financeData)) == Map(ToRow, pay)
      && Sum(RowAmount, Map(ToRow, pay)) == Sum(AmountOf, pay)
      && AmountWithStatus("Paid", Map(ToRow, pay)) == Finance.StatusSum(IsPaid, pay)
      && AmountWithStatus("Pending", Map(ToRow, pay)) == Finance.StatusSum(IsPending, pay)
  {
    var pay := Filter(IsPayable, financeData);
    FilterMap(ToRow, KindIs("Payable"), IsPayable, financeData);
    SumMap(ToRow, RowAmount, AmountOf, pay);
    FilterMap(ToRow, StatusIs("Paid"), IsPaid, pay);
    FilterMap(ToRow, StatusIs("Pending"), IsPending, pay);
    SumMap(ToRow, RowAmount, AmountOf, Filter(IsPaid, pay));
    SumMap(ToRow, RowAmount, AmountOf, Filter(IsPending, pay));
  }

  /** On the same records, the server's response agrees with the client's
      overview: the same receivables and payables, the same four totals and
      the same two chart series. */
  lemma ServerAgreesWithClient(financeData: seq<FinanceRecord>)
    ensures var resp := GetFinanceData(Map(ToRow, financeData));
      var v := Finance.Overview(financeData);
      && resp.records == Map(ToRow, financeData)
      && resp.receivables == Map(ToRow, v.receivables)
      && resp.payables == Map(ToRow, v.payables)
      && resp.totals == Totals(v.totalReceivable, v.totalPayable, v.receivablePaid, v.receivableOverdue)
      && resp.receivableChartData == v.receivableChartData
      && resp.payableChartData == v.payableChartData
  {
    ReceivablesAgree(financeData);
    PayablesAgree(financeData);
  }

  /** The server's response on its own records: receivables 22315 (5500
      collected, 8000 overdue) and payables 44400. */
  lemma SampleResponse()
    ensures GetFinanceData(ServerRecords).totals == Totals(22315, 44400, 5500, 8000)
  {
    ServerRecordsMatchClient();
    ServerAgreesWithClient(FinanceData);
    Finance.SampleOverview();
  }
}
