/** The finance overview computed in the browser from the finance records:
    the split into receivables and payables, the totals, the five status
    sums, and the two pie-chart series. */
module Finance {
  import opened Records
  import opened Seqs
  import opened SampleData
  import Kpis

  /** One slice of a pie chart: label, value and display colour. */
  datatype ChartEntry = ChartEntry(name: string, value: int, color: string)

  const Green: string := "#16A34A"
  const Amber: string := "#F59E0B"
  const Red: string := "#EF4444"

  datatype FinanceOverview = FinanceOverview(
    receivables: seq<FinanceRecord>,
    payables: seq<FinanceRecord>,
    totalReceivable: int,
    totalPayable: int,
    receivablePaid: int,
    receivablePending: int,
    receivableOverdue: int,
    payablePaid: int,
    payablePending: int,
    receivableChartData: seq<ChartEntry>,
    payableChartData: seq<ChartEntry>)

  /** Sum of amounts over the records with the given status. */
  function StatusSum(p: FinanceRecord -> bool, rs: seq<FinanceRecord>): int
  {
    Sum(AmountOf, Filter(p, rs))
  }

  /** The overview for `financeData`. Receivables and payables partition the
      records: both keep the original order, every receivable has kind
      Receivable, every payable kind Payable, and together they hold every
      record exactly once. */
  function Overview(financeData: seq<FinanceRecord>): (v: FinanceOverview)
    ensures Subseq(v.receivables, financeData) && Subseq(v.payables, financeData)
    ensures forall i :: 0 <= i < |v.receivables| ==> v.receivables[i].kind == Receivable
    ensures forall i :: 0 <= i < |v.payables| ==> v.payables[i].kind == Payable
    ensures forall i :: 0 <= i < |financeData| ==>
      (financeData[i] in v.receivables <==> financeData[i].kind == Receivable) &&
      (financeData[i] in v.payables <==> financeData[i].kind == Payable)
    ensures |v.receivables| + |v.payables| == |financeData|
  {
    var receivables := Filter(IsReceivable, financeData);
    var payables := Filter(IsPayable, financeData);
    FilterIsSubseq(IsReceivable, financeData);
    FilterIsSubseq(IsPayable, financeData);
    FilterMembers(IsReceivable, financeData);
    FilterMembers(IsPayable, financeData);
    CountPartition(IsReceivable, IsPayable, financeData);
    var receivablePaid := StatusSum(IsPaid, receivables);
    var receivablePending := StatusSum(IsPending, receivables);
    var receivableOverdue := StatusSum(IsOverdue, receivables);
    var payablePaid := StatusSum(IsPaid, payables);
    var payablePending := StatusSum(IsPending, payables);
    FinanceOverview(
      receivables,
      payables,
      Sum(AmountOf, receivables),
      Sum(AmountOf, payables),
      receivablePaid,
      receivablePending,
      receivableOverdue,
      payablePaid,
      payablePending,
      [ ChartEntry("Collected", receivablePaid, Green),
        ChartEntry("Pending", receivablePending, Amber),
        ChartEntry("Overdue", receivableOverdue, Red) ],
      [ ChartEntry("Paid", payablePaid, Green),
        ChartEntry("Pending", payablePending, Amber) ])
  }

  /** Sum of the values of a chart series. */
  function ChartTotal(entries: seq<ChartEntry>): int
  {
    if entries == [] then 0 else entries[0].value + ChartTotal(entries[1..])
  }

  /** The three status sums of any list of records add up to its total,
      because every record is Paid, Pending or Overdue. */
  lemma {:induction false} StatusSumsAddUp(rs: seq<FinanceRecord>)
    ensures StatusSum(IsPaid, rs) + StatusSum(IsPending, rs) + StatusSum(IsOverdue, rs) == Sum(AmountOf, rs)
  {
    if rs != [] {
      StatusSumsAddUp(rs[1..]);
    }
  }

  /** The receivable and payable totals add up to the total of all records. */
  lemma TotalsSplitAllRecords(financeData: seq<FinanceRecord>)
    ensures var v := Overview(financeData);
      v.totalReceivable + v.totalPayable == Sum(AmountOf, financeData)
  {
    SumPartition(AmountOf, IsReceivable, IsPayable, financeData);
  }

  /** Collected, pending and overdue receivables add up to the receivable
      total, and so do the three slices of the receivable chart. */
  lemma ReceivableSumsAddUp(financeData: seq<FinanceRecord>)
    ensures var v := Overview(financeData);
      && v.receivablePaid + v.receivablePending + v.receivableOverdue == v.totalReceivable
      && ChartTotal(v.receivableChartData) == v.totalReceivable
  {
    StatusSumsAddUp(Filter(IsReceivable, financeData));
    var c := Overview(financeData).receivableChartData;
    assert c[1..][1..][1..] == [];
    assert ChartTotal(c[1..][1..]) == c[2].value;
    assert ChartTotal(c[1..]) == c[1].value + c[2].value;
  }

  /** With non-negative amounts, the paid and pending payables (the two
      slices of the payable chart) sum to at most the payable total, and
      exactly to it when no payable is overdue. */
  lemma PayableChartBound(financeData: seq<FinanceRecord>)
    requires AmountsNonNegative(financeData)
    ensures var v := Overview(financeData);
      && v.payablePaid + v.payablePending <= v.totalPayable
      && ChartTotal(v.payableChartData) == v.payablePaid + v.payablePending
      && ((forall i :: 0 <= i < |v.payables| ==> v.payables[i].status != PaymentStatus.Overdue)
          ==> v.payablePaid + v.payablePending == v.totalPayable)
  {
    var payables := Filter(IsPayable, financeData);
    StatusSumsAddUp(payables);
    FilterMembers(IsPayable, financeData);
    SumFilterBound(AmountOf, IsOverdue, payables);
    var c := Overview(financeData).payableChartData;
    assert c[1..][1..] == [];
    assert ChartTotal(c[1..]) == c[1].value;
    if forall i :: 0 <= i < |payables| ==> payables[i].status != PaymentStatus.Overdue {
      FilterNonEmptyIff(IsOverdue, payables);
    }
  }

  /** With positive amounts, the payable chart covers the whole payable total
      only when no payable is overdue: an overdue payable gets no slice. */
  lemma OverduePayableIsMissingFromChart(financeData: seq<FinanceRecord>)
    requires AmountsPositive(financeData)
    ensures var v := Overview(financeData);
      v.payablePaid + v.payablePending == v.totalPayable
      <==> forall i :: 0 <= i < |v.payables| ==> v.payables[i].status != PaymentStatus.Overdue
  {
    var payables := Filter(IsPayable, financeData);
    StatusSumsAddUp(payables);
    FilterMembers(IsPayable, financeData);
    FilterNonEmptyIff(IsOverdue, payables);
    FilterMembers(IsOverdue, payables);
    PositiveSum(Filter(IsOverdue, payables));
  }

  /** A non-empty list of records with positive amounts has a positive sum. */
  lemma {:induction false} PositiveSum(rs: seq<FinanceRecord>)
    requires forall i :: 0 <= i < |rs| ==> rs[i].amount > 0
    ensures rs != [] <==> Sum(AmountOf, rs) > 0
  {
    if rs != [] {
      PositiveSum(rs[1..]);
    }
  }

  /** With non-negative amounts, the amount collected is at most the
      receivable total, so the collected share shown on the card is at most
      100% whenever the total is positive. */
  lemma CollectedAtMostTotal(financeData: seq<FinanceRecord>)
    requires AmountsNonNegative(financeData)
    ensures var v := Overview(financeData);
      0 <= v.receivablePaid <= v.totalReceivable
  {
    var receivables := Filter(IsReceivable, financeData);
    FilterMembers(IsReceivable, financeData);
    SumFilterBound(AmountOf, IsPaid, receivables);
  }

  /** The dashboard's outstanding payments equal the pending plus overdue
      receivables of the finance overview, i.e. everything not yet collected. */
  lemma {:induction false} OutstandingIsUncollected(financeData: seq<FinanceRecord>)
    ensures Sum(AmountOf, Filter(Kpis.IsOutstanding, financeData))
            == StatusSum(IsPending, Filter(IsReceivable, financeData))
               + StatusSum(IsOverdue, Filter(IsReceivable, financeData))
  {
    if financeData != [] {
      OutstandingIsUncollected(financeData[1..]);
    }
  }

  /** The outstanding-payments figure is the part of the receivable total not yet collected. */
  lemma OutstandingPaymentsMatchOverview(
    salesOrders: seq<SalesOrder>, inventory: seq<InventoryItem>, financeData: seq<FinanceRecord>)
    ensures var v := Overview(financeData);
      Kpis.GetKpis(salesOrders, inventory, financeData).outstandingPayments
      == v.receivablePending + v.receivableOverdue
      == v.totalReceivable - v.receivablePaid
  {
    OutstandingIsUncollected(financeData);
    StatusSumsAddUp(Filter(IsReceivable, financeData));
  }

  /** With non-negative amounts, the outstanding-payments figure lies
      between zero and the receivable total of the finance overview. */
  lemma OutstandingAtMostReceivable(
    salesOrders: seq<SalesOrder>, inventory: seq<InventoryItem>, financeData: seq<FinanceRecord>)
    requires AmountsNonNegative(financeData)
    ensures 0 <= Kpis.GetKpis(salesOrders, inventory, financeData).outstandingPayments
              <= Overview(financeData).totalReceivable
  {
    OutstandingPaymentsMatchOverview(salesOrders, inventory, financeData);
    CollectedAtMostTotal(financeData);
  }

  /** On the sample data the receivables are FIN001, FIN002, FIN003 and
      FIN007, the payables FIN004, FIN005 and FIN006. */
  lemma SampleSplit()
    ensures Filter(IsReceivable, FinanceData) == [FIN001, FIN002, FIN003, FIN007]
    ensures Filter(IsPayable, FinanceData) == [FIN004, FIN005, FIN006]
  {
    FilterCons(IsReceivable, FIN007, []);
    FilterCons(IsReceivable, FIN006, [FIN007]);
    FilterCons(IsReceivable, FIN005, [FIN006, FIN007]);
    FilterCons(IsReceivable, FIN004, [FIN005, FIN006, FIN007]);
    FilterCons(IsReceivable, FIN003, [FIN004, FIN005, FIN006, FIN007]);
    FilterCons(IsReceivable, FIN002, [FIN003, FIN004, FIN005, FIN006, FIN007]);
    FilterCons(IsReceivable, FIN001, [FIN002, FIN003, FIN004, FIN005, FIN006, FIN007]);
    FilterCons(IsPayable, FIN007, []);
    FilterCons(IsPayable, FIN006, [FIN007]);
    FilterCons(IsPayable, FIN005, [FIN006, FIN007]);
    FilterCons(IsPayable, FIN004, [FIN005, FIN006, FIN007]);
    FilterCons(IsPayable, FIN003, [FIN004, FIN005, FIN006, FIN007]);
    FilterCons(IsPayable, FIN002, [FIN003, FIN004, FIN005, FIN006, FIN007]);
    FilterCons(IsPayable, FIN001, [FIN002, FIN003, FIN004, FIN005, FIN006, FIN007]);
  }

  /** The status filters over the sample receivables and payables. */
  lemma SampleStatusSplit()
    ensures Filter(IsPaid, [FIN001, FIN002, FIN003, FIN007]) == [FIN003]
    ensures Filter(IsPending, [FIN001, FIN002, FIN003, FIN007]) == [FIN001, FIN007]
    ensures Filter(IsOverdue, [FIN001, FIN002, FIN003, FIN007]) == [FIN002]
    ensures Filter(IsPaid, [FIN004, FIN005, FIN006]) == [FIN006]
    ensures Filter(IsPending, [FIN004, FIN005, FIN006]) == [FIN004, FIN005]
  {
    FilterCons(IsPaid, FIN007, []);
    FilterCons(IsPaid, FIN003, [FIN007]);
    FilterCons(IsPaid, FIN002, [FIN003, FIN007]);
    FilterCons(IsPaid, FIN001, [FIN002, FIN003, FIN007]);
    FilterCons(IsPending, FIN007, []);
    FilterCons(IsPending, FIN003, [FIN007]);
    FilterCons(IsPending, FIN002, [FIN003, FIN007]);
    FilterCons(IsPending, FIN001, [FIN002, FIN003, FIN007]);
    FilterCons(IsOverdue, FIN007, []);
    FilterCons(IsOverdue, FIN003, [FIN007]);
    FilterCons(IsOverdue, FIN002, [FIN003, FIN007]);
    FilterCons(IsOverdue, FIN001, [FIN002, FIN003, FIN007]);
    FilterCons(IsPaid, FIN006, []);
    FilterCons(IsPaid, FIN005, [FIN006]);
    FilterCons(IsPaid, FIN004, [FIN005, FIN006]);
    FilterCons(IsPending, FIN006, []);
    FilterCons(IsPending, FIN005, [FIN006]);
    FilterCons(IsPending, FIN004, [FIN005, FIN006]);
  }

  /** On the sample data the receivable total is 22315 (5500 collected, 8815
      pending, 8000 overdue) and the payable total is 44400 (20000 paid, 24400
      pending). */
  lemma SampleOverview()
    ensures var v := Overview(FinanceData);
      && v.receivables == [FIN001, FIN002, FIN003, FIN007]
      && v.payables == [FIN004, FIN005, FIN006]
      && v.totalReceivable == 22315 && v.totalPayable == 44400
      && v.receivablePaid == 5500 && v.receivablePending == 8815 && v.receivableOverdue == 8000
      && v.payablePaid == 20000 && v.payablePending == 24400
  {
    SampleSplit();
    SampleStatusSplit();
    SumCons(AmountOf, FIN007, []);
    SumCons(AmountOf, FIN003, [FIN007]);
    SumCons(AmountOf, FIN002, [FIN003, FIN007]);
    SumCons(AmountOf, FIN001, [FIN002, FIN003, FIN007]);
    SumCons(AmountOf, FIN006, []);
    SumCons(AmountOf, FIN005, [FIN006]);
    SumCons(AmountOf, FIN004, [FIN005, FIN006]);
    SumCons(AmountOf, FIN007, []);
    SumCons(AmountOf, FIN001, [FIN007]);
    SumCons(AmountOf, FIN003, []);
    SumCons(AmountOf, FIN002, []);
    SumCons(AmountOf, FIN006, []);
    SumCons(AmountOf, FIN005, []);
    SumCons(AmountOf, FIN004, [FIN005]);
  }
}
