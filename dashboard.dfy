/** The dashboard page: four KPI cards built from the KPI snapshot, the
    low-stock list, the first five orders, and the welcome message
    that is shown once per browser session. */
module Dashboard {
  import opened Records
  import opened Seqs
  import opened SampleData
  import opened Kpis

  /** One KPI card; `value` is the number the card displays (its currency
      formatting is not modelled), `alert` marks the card for attention. */
  datatype KpiCard = KpiCard(title: string, value: int, alert: bool)

  /** What the page derives from the three lists. */
  datatype DashboardView = DashboardView(
    kpiCards: seq<KpiCard>,
    lowStockItems: seq<InventoryItem>,
    recentOrders: seq<SalesOrder>)

  /** The number of recent orders the page lists. */
  const RecentCount: nat := 5

  /** `kpiCards`: Today's Sales, Pending Deliveries, Low Stock Items and
      Outstanding Payments, in that order. Only the low-stock card can raise
      an alert, and it does so when some item is low. */
  function KpiCards(k: KpiSnapshot): (cards: seq<KpiCard>)
    ensures |cards| == 4
    ensures cards[0].title == "Today's Sales" && cards[1].title == "Pending Deliveries"
    ensures cards[2].title == "Low Stock Items" && cards[3].title == "Outstanding Payments"
    ensures cards[0].value == k.todaysSales && cards[1].value == k.pendingDeliveries
    ensures cards[2].value == k.lowStockItems && cards[3].value == k.outstandingPayments
    ensures forall i :: 0 <= i < |cards| && i != 2 ==> !cards[i].alert
  {
    [ KpiCard("Today's Sales", k.todaysSales, false),
      KpiCard("Pending Deliveries", k.pendingDeliveries, false),
      KpiCard("Low Stock Items", k.lowStockItems, k.lowStockItems > 0),
      KpiCard("Outstanding Payments", k.outstandingPayments, false) ]
  }

  /** `lowStockItems`: the inventory items below their reorder level, in
      inventory order. An item is listed exactly when it is low. */
  function LowStockList(inventory: seq<InventoryItem>): (r: seq<InventoryItem>)
    ensures Subseq(r, inventory)
    ensures forall i :: 0 <= i < |inventory| ==> (inventory[i] in r <==> inventory[i].quantity < inventory[i].reorderLevel)
    ensures forall x :: multiset(r)[x] == if x.quantity < x.reorderLevel then multiset(inventory)[x] else 0
  {
    FilterCounts(IsLowStock, inventory);
    FilterIsSubseq(IsLowStock, inventory);
    FilterMembers(IsLowStock, inventory);
    Filter(IsLowStock, inventory)
  }

  /** `salesOrders.slice(0, 5)`: the first five orders, or all of them when
      there are fewer, in their original order. */
  function RecentOrders(orders: seq<SalesOrder>): (r: seq<SalesOrder>)
    ensures |r| == if |orders| < RecentCount then |orders| else RecentCount
    ensures forall i :: 0 <= i < |r| ==> r[i] == orders[i]
  {
    if |orders| <= RecentCount then orders else orders[..RecentCount]
  }

  /** The page for the given lists: the four cards, the low items in
      inventory order, and the leading orders, the low-stock card counting
      exactly the items of the list. */
  function View(salesOrders: seq<SalesOrder>, inventory: seq<InventoryItem>, finance: seq<FinanceRecord>): (v: DashboardView)
    ensures |v.kpiCards| == 4 && v.kpiCards[2].value == |v.lowStockItems|
    ensures Subseq(v.lowStockItems, inventory)
    ensures forall i :: 0 <= i < |inventory| ==> (inventory[i] in v.lowStockItems <==> IsLowStock(inventory[i]))
    ensures forall x :: multiset(v.lowStockItems)[x] == if IsLowStock(x) then multiset(inventory)[x] else 0
    ensures |v.recentOrders| == if |salesOrders| < RecentCount then |salesOrders| else RecentCount
    ensures v.recentOrders == salesOrders[..|v.recentOrders|]
  {
    DashboardView(
      KpiCards(GetKpis(salesOrders, inventory, finance)),
      LowStockList(inventory),
      RecentOrders(salesOrders))
  }

  /** The low-stock card shows the length of the low-stock list, and raises
      its alert exactly when that list is non-empty, that is, exactly when
      some item is low. */
  lemma LowStockCardMatchesList(salesOrders: seq<SalesOrder>, inventory: seq<InventoryItem>, finance: seq<FinanceRecord>)
    ensures var v := View(salesOrders, inventory, finance);
      && v.kpiCards[2].value == |v.lowStockItems|
      && (v.kpiCards[2].alert <==> |v.lowStockItems| > 0)
      && (v.kpiCards[2].alert <==> exists i :: 0 <= i < |inventory| && IsLowStock(inventory[i]))
  {
  }

  /** The KPI snapshot's low-stock count and the dashboard's low-stock list
      apply the same rule: the count is the length of the list. */
  lemma LowStockCountIsListLength(salesOrders: seq<SalesOrder>, inventory: seq<InventoryItem>, finance: seq<FinanceRecord>)
    ensures GetKpis(salesOrders, inventory, finance).lowStockItems == |LowStockList(inventory)|
  {
  }

  /** On the sample data the cards read 1550, 3, 3 and 16815 with the
      low-stock alert raised, the low-stock list is Spinach, Lettuce and
      Cucumbers, and all five orders are recent. */
  lemma SampleView()
    ensures var v := View(SalesOrdersData, InventoryData, FinanceData);
      && v.kpiCards == [ KpiCard("Today's Sales", 1550, false),
                         KpiCard("Pending Deliveries", 3, false),
                         KpiCard("Low Stock Items", 3, true),
                         KpiCard("Outstanding Payments", 16815, false) ]
      && v.lowStockItems == [Item2, Item5, Item9]
      && v.recentOrders == SalesOrdersData
  {
    SampleKpis();
    SampleLowStock();
  }

  /** The key under which the page records that the welcome was shown. */
  const WelcomeKey: string := "welcomeShown"

  /** The browser's per-tab session storage, as far as the dashboard uses it. */
  class Session {
    var storage: map<string, string>

    constructor (initial: map<string, string>)
      ensures storage == initial
    {
      storage := initial;
    }

    /** The stored flag is truthy: present and not the empty string. An
        absent key reads as not seen, and the "true" the page writes reads
        as seen. */
    predicate HasSeenWelcome(): (b: bool)
      reads this
      ensures WelcomeKey !in storage ==> !b
      ensures WelcomeKey in storage && storage[WelcomeKey] == "true" ==> b
    {
      WelcomeKey in storage && storage[WelcomeKey] != ""
    }

    /** The page's mount effect: when the flag is not set, the welcome is shown
        and the flag is set to "true"; otherwise nothing happens. Either way
        the flag is set afterwards. */
    method Mount() returns (welcomeShown: bool)
      modifies this
      ensures welcomeShown <==> !old(HasSeenWelcome())
      ensures storage == if welcomeShown then old(storage)[WelcomeKey := "true"] else old(storage)
      ensures HasSeenWelcome()
    {
      var hasSeenWelcome := HasSeenWelcome();
      welcomeShown := false;
      if !hasSeenWelcome {
        welcomeShown := true;
        storage := storage[WelcomeKey := "true"];
      }
    }

    /** Mounting the page twice in one session shows the welcome at most once. */
    method MountTwice() returns (first: bool, second: bool)
      modifies this
      ensures first <==> !old(HasSeenWelcome())
      ensures !second
      ensures storage == if first then old(storage)[WelcomeKey := "true"] else old(storage)
    {
      first := Mount();
      second := Mount();
    }
  }
}
