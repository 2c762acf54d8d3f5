/** The four business record kinds of the supplier application: inventory
    items, sales orders (with their line items), purchase orders and finance
    records. Every record is an immutable value. Each enumerated field has
    a `...Name` function giving the string the application compares
    against a filter selection. */
module Records {
  import opened Seqs

  datatype Category = Leafy | Root | Fruit | Bulk

  datatype Freshness = Fresh | Good | Fair | Expiring

  datatype InventoryItem = InventoryItem(
    id: string,
    name: string,
    category: Category,
    warehouse: string,
    quantity: int,
    unit: string,
    reorderLevel: int,
    freshness: Freshness,
    expiryDate: string,
    pricePerKg: int,
    supplier: string)

  datatype SalesStatus = Preparing | OutForDelivery | Delivered | Cancelled

  /** The payment state of a sales order and of a finance record. */
  datatype PaymentStatus = Paid | Pending | Overdue

  datatype LineItem = LineItem(vegetable: string, quantity: int, pricePerKg: int, total: int)

  datatype SalesOrder = SalesOrder(
    id: string,
    orderNumber: string,
    customerName: string,
    deliveryDate: string,
    status: SalesStatus,
    items: seq<LineItem>,
    totalAmount: int,
    paymentStatus: PaymentStatus,
    deliveryAddress: string)

  datatype PurchaseStatus = Pending | Received | Cancelled

  datatype PurchaseOrder = PurchaseOrder(
    id: string,
    orderNumber: string,
    supplier: string,
    vegetableType: string,
    quantity: int,
    pricePerKg: int,
    totalAmount: int,
    expectedDelivery: string,
    status: PurchaseStatus,
    orderedDate: string)

  datatype FinanceKind = Receivable | Payable

  /** A finance record; the source calls the `kind` field `type`. */
  datatype FinanceRecord = FinanceRecord(
    id: string,
    kind: FinanceKind,
    party: string,
    amount: int,
    dueDate: string,
    status: PaymentStatus,
    invoiceNumber: string)

  function CategoryName(c: Category): string
  {
    match c
    case Leafy => "Leafy"
    case Root => "Root"
    case Fruit => "Fruit"
    case Bulk => "Bulk"
  }

  function SalesStatusName(s: SalesStatus): string
  {
    match s
    case Preparing => "Preparing"
    case OutForDelivery => "Out for Delivery"
    case Delivered => "Delivered"
    case Cancelled => "Cancelled"
  }

  function PurchaseStatusName(s: PurchaseStatus): string
  {
    match s
    case Pending => "Pending"
    case Received => "Received"
    case Cancelled => "Cancelled"
  }

  function FinanceKindName(k: FinanceKind): string
  {
    match k
    case Receivable => "Receivable"
    case Payable => "Payable"
  }

  function PaymentStatusName(s: PaymentStatus): string
  {
    match s
    case Paid => "Paid"
    case Pending => "Pending"
    case Overdue => "Overdue"
  }

  /** No enumerated value is named like the 'all' sentinel of the filters,
      and distinct values have distinct names. */
  lemma NamesAreDistinct()
    ensures forall c: Category :: CategoryName(c) != "all"
    ensures forall c: Category, d: Category :: CategoryName(c) == CategoryName(d) ==> c == d
    ensures forall s: SalesStatus :: SalesStatusName(s) != "all"
    ensures forall s: SalesStatus, u: SalesStatus :: SalesStatusName(s) == SalesStatusName(u) ==> s == u
    ensures forall s: PurchaseStatus :: PurchaseStatusName(s) != "all"
    ensures forall s: PurchaseStatus, u: PurchaseStatus :: PurchaseStatusName(s) == PurchaseStatusName(u) ==> s == u
    ensures forall k: FinanceKind :: FinanceKindName(k) != "all"
    ensures forall k: FinanceKind, l: FinanceKind :: FinanceKindName(k) == FinanceKindName(l) ==> k == l
    ensures forall s: PaymentStatus :: PaymentStatusName(s) != "all"
    ensures forall s: PaymentStatus, u: PaymentStatus :: PaymentStatusName(s) == PaymentStatusName(u) ==> s == u
  {
  }

  /** The low-stock rule, used by the KPI count, the dashboard list and the
      inventory table alike. */
  predicate IsLowStock(item: InventoryItem)
  {
    item.quantity < item.reorderLevel
  }

  function AmountOf(r: FinanceRecord): int { r.amount }

  function TotalAmountOf(o: SalesOrder): int { o.totalAmount }

  function LineTotalOf(l: LineItem): int { l.total }

  predicate IsReceivable(r: FinanceRecord) { r.kind == Receivable }

  predicate IsPayable(r: FinanceRecord) { r.kind == Payable }

  predicate IsPaid(r: FinanceRecord) { r.status == PaymentStatus.Paid }

  predicate IsPending(r: FinanceRecord) { r.status == PaymentStatus.Pending }

  predicate IsOverdue(r: FinanceRecord) { r.status == PaymentStatus.Overdue }

  /** All finance amounts are non-negative. */
  predicate AmountsNonNegative(rs: seq<FinanceRecord>)
  {
    forall i :: 0 <= i < |rs| ==> rs[i].amount >= 0
  }

  /** All finance amounts are positive. */
  predicate AmountsPositive(rs: seq<FinanceRecord>)
  {
    forall i :: 0 <= i < |rs| ==> rs[i].amount > 0
  }

  /** All sales-order totals are non-negative. */
  predicate TotalsNonNegative(os: seq<SalesOrder>)
  {
    forall i :: 0 <= i < |os| ==> os[i].totalAmount >= 0
  }

  /** A line's total is its quantity times its unit price. */
  predicate LineConsistent(l: LineItem)
  {
    l.total == l.quantity * l.pricePerKg
  }

  /** A sales order's total is the sum of its line totals, and each line is consistent.
      The application states this of its data but never checks it. */
  predicate SalesOrderConsistent(o: SalesOrder)
  {
    && o.totalAmount == Sum(LineTotalOf, o.items)
    && forall i :: 0 <= i < |o.items| ==> LineConsistent(o.items[i])
  }

  /** A purchase order's total is its quantity times its unit price. */
  predicate PurchaseOrderConsistent(p: PurchaseOrder)
  {
    p.totalAmount == p.quantity * p.pricePerKg
  }
}
