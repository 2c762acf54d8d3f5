/** The dashboard's key performance indicators, recomputed from the
    sales-order, inventory and finance lists on every call. The source reads
    its three module-level arrays; here they are parameters, and
    `SampleKpis` states the values on the shipped sample data. */
module Kpis {
  import opened Records
  import opened Seqs
  import opened SampleData

  /** The delivery date that counts as "today"; the source compares against this literal. */
  const Today: string := "2026-02-25"

  datatype KpiSnapshot = KpiSnapshot(
    todaysSales: int,
    pendingDeliveries: nat,
    lowStockItems: nat,
    outstandingPayments: int)

  predicate IsTodaysDeliveredSale(o: SalesOrder)
  {
    o.deliveryDate == Today && o.status == Delivered
  }

  predicate IsPendingDelivery(o: SalesOrder)
  {
    o.status == OutForDelivery || o.status == Preparing
  }

  /** A receivable that has not been paid yet. */
  predicate IsOutstanding(r: FinanceRecord)
  {
    r.kind == Receivable && r.status != PaymentStatus.Paid
  }

  /** `getKPIs()`. Nothing is written back: the result depends only on the three lists. */
  function GetKpis(salesOrders: seq<SalesOrder>, inventory: seq<InventoryItem>, finance: seq<FinanceRecord>): (k: KpiSnapshot)
    ensures k.pendingDeliveries <= |salesOrders|
    ensures k.lowStockItems <= |inventory|
    ensures k.lowStockItems > 0 <==> exists i :: 0 <= i < |inventory| && IsLowStock(inventory[i])
    ensures k.pendingDeliveries > 0 <==> exists i :: 0 <= i < |salesOrders| && IsPendingDelivery(salesOrders[i])
  {
    FilterNonEmptyIff(IsLowStock, inventory);
    FilterNonEmptyIff(IsPendingDelivery, salesOrders);
    KpiSnapshot(
      Sum(TotalAmountOf, Filter(IsTodaysDeliveredSale, salesOrders)),
      |Filter(IsPendingDelivery, salesOrders)|,
      |Filter(IsLowStock, inventory)|,
      Sum(AmountOf, Filter(IsOutstanding, finance)))
  }

  predicate IsDelivered(o: SalesOrder) { o.status == Delivered }

  predicate IsCancelled(o: SalesOrder) { o.status == SalesStatus.Cancelled }

  /** Every order that is neither delivered nor cancelled is a pending delivery. */
  lemma {:induction false} PendingDeliveriesAreTheRest(salesOrders: seq<SalesOrder>)
    ensures |Filter(IsPendingDelivery, salesOrders)|
            + |Filter(IsDelivered, salesOrders)|
            + |Filter(IsCancelled, salesOrders)| == |salesOrders|
  {
    if salesOrders != [] {
      PendingDeliveriesAreTheRest(salesOrders[1..]);
    }
  }

  /** With non-negative amounts the four figures are non-negative, today's sales
      are at most the total of all orders, and the outstanding payments are at
      most the total of all finance records. */
  lemma KpiBounds(salesOrders: seq<SalesOrder>, inventory: seq<InventoryItem>, finance: seq<FinanceRecord>)
    requires TotalsNonNegative(salesOrders) && AmountsNonNegative(finance)
    ensures var k := GetKpis(salesOrders, inventory, finance);
      && 0 <= k.todaysSales <= Sum(TotalAmountOf, salesOrders)
      && 0 <= k.outstandingPayments <= Sum(AmountOf, finance)
  {
    SumFilterBound(TotalAmountOf, IsTodaysDeliveredSale, salesOrders);
    SumFilterBound(AmountOf, IsOutstanding, finance);
  }

  /** Today's sales come from orders with the literal delivery date and status Delivered. */
  lemma TodaysSalesOnlyCountsTodaysDeliveries(salesOrders: seq<SalesOrder>, inventory: seq<InventoryItem>, finance: seq<FinanceRecord>)
    requires forall i :: 0 <= i < |salesOrders| ==> !IsTodaysDeliveredSale(salesOrders[i])
    ensures GetKpis(salesOrders, inventory, finance).todaysSales == 0
  {
    FilterNonEmptyIff(IsTodaysDeliveredSale, salesOrders);
  }

  /** How each sample record is classified by the four KPI rules. */
  lemma SampleClassification()
    ensures IsTodaysDeliveredSale(SO003)
    ensures !IsTodaysDeliveredSale(SO001) && !IsTodaysDeliveredSale(SO002)
    ensures !IsTodaysDeliveredSale(SO004) && !IsTodaysDeliveredSale(SO005)
    ensures IsPendingDelivery(SO001) && IsPendingDelivery(SO002) && IsPendingDelivery(SO004)
    ensures !IsPendingDelivery(SO003) && !IsPendingDelivery(SO005)
    ensures IsLowStock(Item2) && IsLowStock(Item5) && IsLowStock(Item9)
    ensures !IsLowStock(Item1) && !IsLowStock(Item3) && !IsLowStock(Item4) && !IsLowStock(Item6)
    ensures !IsLowStock(Item7) && !IsLowStock(Item8) && !IsLowStock(Item10)
    ensures IsOutstanding(FIN001) && IsOutstanding(FIN002) && IsOutstanding(FIN007)
    ensures !IsOutstanding(FIN003) && !IsOutstanding(FIN004) && !IsOutstanding(FIN005) && !IsOutstanding(FIN006)
  {
  }

  /** On the sample data today's sales are 1550, from SO003 alone. */
  lemma SampleTodaysSales()
    ensures Filter(IsTodaysDeliveredSale, SalesOrdersData) == [SO003]
    ensures Sum(TotalAmountOf, [SO003]) == 1550
  {
    SampleClassification();
    FilterCons(IsTodaysDeliveredSale, SO005, []);
    FilterCons(IsTodaysDeliveredSale, SO004, [SO005]);
    FilterCons(IsTodaysDeliveredSale, SO003, [SO004, SO005]);
    FilterCons(IsTodaysDeliveredSale, SO002, [SO003, SO004, SO005]);
    FilterCons(IsTodaysDeliveredSale, SO001, [SO002, SO003, SO004, SO005]);
    SumCons(TotalAmountOf, SO003, []);
  }

  /** On the sample data three deliveries are pending: SO001, SO002 and SO004. */
  lemma SamplePendingDeliveries()
    ensures Filter(IsPendingDelivery, SalesOrdersData) == [SO001, SO002, SO004]
  {
    SampleClassification();
    FilterCons(IsPendingDelivery, SO005, []);
    FilterCons(IsPendingDelivery, SO004, [SO005]);
    FilterCons(IsPendingDelivery, SO003, [SO004, SO005]);
    FilterCons(IsPendingDelivery, SO002, [SO003, SO004, SO005]);
    FilterCons(IsPendingDelivery, SO001, [SO002, SO003, SO004, SO005]);
  }

  /** On the sample data three items are low: Spinach, Lettuce and Cucumbers. */
  lemma SampleLowStock()
    ensures Filter(IsLowStock, InventoryData) == [Item2, Item5, Item9]
  {
    SampleClassification();
    FilterCons(IsLowStock, Item10, []);
    FilterCons(IsLowStock, Item9, [Item10]);
    FilterCons(IsLowStock, Item8, [Item9, Item10]);
    FilterCons(IsLowStock, Item7, [Item8, Item9, Item10]);
    FilterCons(IsLowStock, Item6, [Item7, Item8, Item9, Item10]);
    FilterCons(IsLowStock, Item5, [Item6, Item7, Item8, Item9, Item10]);
    FilterCons(IsLowStock, Item4, [Item5, Item6, Item7, Item8, Item9, Item10]);
    FilterCons(IsLowStock, Item3, [Item4, Item5, Item6, Item7, Item8, Item9, Item10]);
    FilterCons(IsLowStock, Item2, [Item3, Item4, Item5, Item6, Item7, Item8, Item9, Item10]);
    FilterCons(IsLowStock, Item1, [Item2, Item3, Item4, Item5, Item6, Item7, Item8, Item9, Item10]);
  }

  /** On the sample data 6750 + 8000 + 2065 = 16815 is outstanding. */
  lemma SampleOutstanding()
    ensures Filter(IsOutstanding, FinanceData) == [FIN001, FIN002, FIN007]
    ensures Sum(AmountOf, [FIN001, FIN002, FIN007]) == 16815
  {
    SampleClassification();
    FilterCons(IsOutstanding, FIN007, []);
    FilterCons(IsOutstanding, FIN006, [FIN007]);
    FilterCons(IsOutstanding, FIN005, [FIN006, FIN007]);
    FilterCons(IsOutstanding, FIN004, [FIN005, FIN006, FIN007]);
    FilterCons(IsOutstanding, FIN003, [FIN004, FIN005, FIN006, FIN007]);
    FilterCons(IsOutstanding, FIN002, [FIN003, FIN004, FIN005, FIN006, FIN007]);
    FilterCons(IsOutstanding, FIN001, [FIN002, FIN003, FIN004, FIN005, FIN006, FIN007]);
    SumCons(AmountOf, FIN007, []);
    SumCons(AmountOf, FIN002, [FIN007]);
    SumCons(AmountOf, FIN001, [FIN002, FIN007]);
  }

  /** `getKPIs()` on the sample data: today's sales 1550, three pending
      deliveries, three low-stock items and 16815 outstanding. */
  lemma SampleKpis()
    ensures GetKpis(SalesOrdersData, InventoryData, FinanceData) == KpiSnapshot(1550, 3, 3, 16815)
  {
    SampleTodaysSales();
    SamplePendingDeliveries();
    SampleLowStock();
    SampleOutstanding();
  }
}
