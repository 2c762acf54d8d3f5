/** The sample records the application ships with: ten inventory items,
    five sales orders, four purchase orders and seven finance records. */
module SampleData {
  import opened Records
  import opened Seqs

  const Item1: InventoryItem :=
    InventoryItem("1", "Tomatoes", Fruit, "Main Warehouse", 450, "kg", 200, Fresh, "2026-03-05", 35, "Fresh Farms Co.")
  const Item2: InventoryItem :=
    InventoryItem("2", "Spinach", Leafy, "Cold Storage", 85, "kg", 100, Good, "2026-02-28", 45, "Green Leaf Suppliers")
  const Item3: InventoryItem :=
    InventoryItem("3", "Carrots", Root, "Main Warehouse", 620, "kg", 300, Fresh, "2026-03-15", 30, "Root Harvest Ltd.")
  const Item4: InventoryItem :=
    InventoryItem("4", "Potatoes", Bulk, "Main Warehouse", 1850, "kg", 500, Fresh, "2026-04-20", 22, "Bulk Veggie Mart")
  const Item5: InventoryItem :=
    InventoryItem("5", "Lettuce", Leafy, "Cold Storage", 45, "kg", 80, Expiring, "2026-02-26", 55, "Green Leaf Suppliers")
  const Item6: InventoryItem :=
    InventoryItem("6", "Bell Peppers", Fruit, "Main Warehouse", 280, "kg", 150, Good, "2026-03-08", 65, "Fresh Farms Co.")
  const Item7: InventoryItem :=
    InventoryItem("7", "Onions", Bulk, "Dry Storage", 1200, "kg", 400, Fresh, "2026-05-01", 28, "Bulk Veggie Mart")
  const Item8: InventoryItem :=
    InventoryItem("8", "Cabbage", Leafy, "Cold Storage", 180, "kg", 100, Fresh, "2026-03-10", 32, "Green Leaf Suppliers")
  const Item9: InventoryItem :=
    InventoryItem("9", "Cucumbers", Fruit, "Cold Storage", 65, "kg", 120, Fair, "2026-02-27", 40, "Fresh Farms Co.")
  const Item10: InventoryItem :=
    InventoryItem("10", "Beetroot", Root, "Main Warehouse", 340, "kg", 200, Good, "2026-03-12", 38, "Root Harvest Ltd.")

  const InventoryData: seq<InventoryItem> := [Item1, Item2, Item3, Item4, Item5, Item6, Item7, Item8, Item9, Item10]

  const SO001: SalesOrder :=
    SalesOrder("SO001", "SO-2026-001", "Green Grocery Mart", "2026-02-26", OutForDelivery,
      [
        LineItem("Tomatoes", 50, 40, 2000),
        LineItem("Potatoes", 100, 25, 2500),
        LineItem("Onions", 75, 30, 2250)
      ],
      6750, PaymentStatus.Pending, "123 Market Street, City Center")
  const SO002: SalesOrder :=
    SalesOrder("SO002", "SO-2026-002", "Fresh Express Supermarket", "2026-02-27", Preparing,
      [
        LineItem("Spinach", 30, 50, 1500),
        LineItem("Lettuce", 20, 60, 1200),
        LineItem("Bell Peppers", 40, 70, 2800)
      ],
      5500, PaymentStatus.Paid, "456 Shopping Boulevard, North District")
  const SO003: SalesOrder :=
    SalesOrder("SO003", "SO-2026-003", "Healthy Eats Restaurant", "2026-02-25", Delivered,
      [
        LineItem("Carrots", 25, 35, 875),
        LineItem("Cucumbers", 15, 45, 675)
      ],
      1550, PaymentStatus.Paid, "789 Food Street, Downtown")
  const SO004: SalesOrder :=
    SalesOrder("SO004", "SO-2026-004", "Corner Store 24/7", "2026-02-28", Preparing,
      [
        LineItem("Cabbage", 35, 35, 1225),
        LineItem("Beetroot", 20, 42, 840)
      ],
      2065, PaymentStatus.Pending, "321 Neighborhood Ave, West End")
  const SO005: SalesOrder :=
    SalesOrder("SO005", "SO-2026-005", "Farm to Table Co-op", "2026-02-24", Delivered,
      [
        LineItem("Tomatoes", 80, 40, 3200),
        LineItem("Onions", 60, 30, 1800),
        LineItem("Potatoes", 120, 25, 3000)
      ],
      8000, PaymentStatus.Overdue, "555 Co-op Lane, Eastside")

  const SalesOrdersData: seq<SalesOrder> := [SO001, SO002, SO003, SO004, SO005]

  const PO001: PurchaseOrder :=
    PurchaseOrder("PO001", "PO-2026-001", "Fresh Farms Co.", "Tomatoes", 500, 32, 16000, "2026-03-01", PurchaseStatus.Pending, "2026-02-20")
  const PO002: PurchaseOrder :=
    PurchaseOrder("PO002", "PO-2026-002", "Green Leaf Suppliers", "Spinach", 200, 42, 8400, "2026-02-28", PurchaseStatus.Pending, "2026-02-22")
  const PO003: PurchaseOrder :=
    PurchaseOrder("PO003", "PO-2026-003", "Bulk Veggie Mart", "Potatoes", 1000, 20, 20000, "2026-02-27", PurchaseStatus.Received, "2026-02-18")
  const PO004: PurchaseOrder :=
    PurchaseOrder("PO004", "PO-2026-004", "Root Harvest Ltd.", "Carrots", 400, 28, 11200, "2026-03-03", PurchaseStatus.Pending, "2026-02-23")

  const PurchaseOrdersData: seq<PurchaseOrder> := [PO001, PO002, PO003, PO004]

  const FIN001: FinanceRecord :=
    FinanceRecord("FIN001", Receivable, "Green Grocery Mart", 6750, "2026-03-01", PaymentStatus.Pending, "INV-001")
  const FIN002: FinanceRecord :=
    FinanceRecord("FIN002", Receivable, "Farm to Table Co-op", 8000, "2026-02-24", PaymentStatus.Overdue, "INV-002")
  const FIN003: FinanceRecord :=
    FinanceRecord("FIN003", Receivable, "Fresh Express Supermarket", 5500, "2026-02-28", PaymentStatus.Paid, "INV-003")
  const FIN004: FinanceRecord :=
    FinanceRecord("FIN004", Payable, "Fresh Farms Co.", 16000, "2026-03-08", PaymentStatus.Pending, "BILL-001")
  const FIN005: FinanceRecord :=
    FinanceRecord("FIN005", Payable, "Green Leaf Suppliers", 8400, "2026-03-05", PaymentStatus.Pending, "BILL-002")
  const FIN006: FinanceRecord :=
    FinanceRecord("FIN006", Payable, "Bulk Veggie Mart", 20000, "2026-03-01", PaymentStatus.Paid, "BILL-003")
  const FIN007: FinanceRecord :=
    FinanceRecord("FIN007", Receivable, "Corner Store 24/7", 2065, "2026-03-05", PaymentStatus.Pending, "INV-004")

  const FinanceData: seq<FinanceRecord> := [FIN001, FIN002, FIN003, FIN004, FIN005, FIN006, FIN007]

  /** Every sample sales order and purchase order is internally consistent. */
  lemma SampleOrdersConsistent()
    ensures forall i :: 0 <= i < |SalesOrdersData| ==> SalesOrderConsistent(SalesOrdersData[i])
    ensures forall i :: 0 <= i < |PurchaseOrdersData| ==> PurchaseOrderConsistent(PurchaseOrdersData[i])
  {
  }

  /** The sample amounts, totals, quantities and reorder levels are non-negative. */
  lemma SampleValuesNonNegative()
    ensures AmountsNonNegative(FinanceData)
    ensures TotalsNonNegative(SalesOrdersData)
    ensures forall i :: 0 <= i < |InventoryData| ==> InventoryData[i].quantity >= 0 && InventoryData[i].reorderLevel >= 0
  {
  }
}
