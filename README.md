# FreshVeg ERP — a verified model of its business rules

FreshVeg ERP is a dashboard for a vegetable supplier. It keeps four kinds of in-memory records:
- inventory items,
- sales orders with their line items,
- purchase orders,
- finance records (receivables and payables).

It derives a few figures and lists from these records:
- four KPIs (today's sales, pending deliveries, low-stock items, outstanding payments);
- a finance overview that splits receivables from payables, sums their amounts by payment status and builds two pie-chart series. The browser computes this, and the Python server computes it a second time with the same rules;
- three table filters, each a case-insensitive search combined with selections whose value "all" lets everything through;
- on the dashboard page: the low-stock list, the first five orders, the alert on the low-stock card, and a welcome message shown once per browser session;
- in the application shell: the rule that highlights the navigation entry for the current path, the mobile bottom bar, and the shell's open/closed flags.

This project models those rules in Dafny and proves their properties. The modules follow the source files, except that `src/app/lib/mockData.ts` is split into three:
- `Records` holds its record types and `IsLowStock`, the one definition of the low-stock rule (`quantity < reorderLevel`). The source writes that rule three times: in `getKPIs` (src/app/lib/mockData.ts:394), in the inventory table's badge (frontend/src/app/components/Inventory.tsx:61) and in the dashboard's list (src/app/components/Dashboard.tsx:80). `Inventory.LowStockIsStrict` and `Dashboard.LowStockCountIsListLength` state what it means.
- `SampleData` holds its sample arrays.
- `Kpis` models its `getKPIs`.
- `Finance` models the client-side overview.
- `Backend` models the server endpoint.
- `Inventory`, `SalesOrders` and `PurchaseOrders` model the three table filters.
- `Dashboard` and `Layout` model the dashboard page and the application shell.

Two helper modules support them. `Seqs` gives the order-preserving filter, the sum, map and the subsequence relation. `Text` gives ASCII lower-casing, `includes` and `startsWith`.

The source reads module-level arrays, for example `getKPIs()` reads `salesOrdersData`. In the model these arrays are parameters, and separate lemmas state the results on the sample data. The dashboard's `sessionStorage` is a field of class `Dashboard.Session`. The shell's three React state flags are fields of class `Layout.Shell`, whose methods are the event handlers.

## Model

| member | source | states |
|---|---|---|
| Text.ToLower | frontend/src/app/components/Inventory.tsx:39-40 | `toLowerCase` keeps the length and maps each character by itself: only ASCII capitals change, by +32, and the result has no ASCII capital |
| Text.ToLowerIdempotent | frontend/src/app/components/Inventory.tsx:39-40 | lower-casing an already lower-cased string changes nothing |
| Text.IsPrefix | frontend/src/app/components/Layout.tsx:50 | `s.startsWith(p)` holds exactly when `s` is `p` followed by some rest |
| Text.Contains | frontend/src/app/components/Inventory.tsx:39-40 | `s.includes(t)` holds exactly when `t` occurs as a slice of `s` at some position |
| Records.NamesAreDistinct | src/app/lib/mockData.ts:6-53 | no name of a category, sales status, purchase status, finance type or payment status is "all", and distinct categories, sales statuses, purchase statuses, finance types and payment statuses have distinct names |
| SampleData.SampleOrdersConsistent | src/app/lib/mockData.ts:190-315 | every sample sales order's total is the sum of its line totals; every line total, and every purchase order's total, is quantity times unit price |
| SampleData.SampleValuesNonNegative | src/app/lib/mockData.ts:57-381 | the sample amounts, order totals, quantities and reorder levels are non-negative |
| Kpis.GetKpis | src/app/lib/mockData.ts:384-407 | the pending-delivery and low-stock counts are at most the list lengths; each count is positive exactly when some order is pending, or some item is below its reorder level |
| Kpis.PendingDeliveriesAreTheRest | src/app/lib/mockData.ts:389-391 | pending plus delivered plus cancelled orders account for every order |
| Kpis.KpiBounds | src/app/lib/mockData.ts:384-407 | with non-negative amounts, today's sales lie between 0 and the total of all orders, and outstanding payments between 0 and the total of all finance records (the sharper bound is `Finance.OutstandingAtMostReceivable`) |
| Kpis.TodaysSalesOnlyCountsTodaysDeliveries | src/app/lib/mockData.ts:385-387 | with no order delivered on 2026-02-25, today's sales are 0 |
| Kpis.SampleClassification | src/app/lib/mockData.ts:57-381 | which sample orders, items and finance records each KPI rule selects |
| Kpis.SampleTodaysSales | src/app/lib/mockData.ts:385-387 | on the sample data only SO003 counts towards today's sales, which are 1550 |
| Kpis.SamplePendingDeliveries | src/app/lib/mockData.ts:389-391 | on the sample data SO001, SO002 and SO004 are pending |
| Kpis.SampleLowStock | src/app/lib/mockData.ts:393-395 | on the sample data Spinach, Lettuce and Cucumbers are low |
| Kpis.SampleOutstanding | src/app/lib/mockData.ts:397-399 | on the sample data FIN001, FIN002 and FIN007 are outstanding, 16815 in all |
| Kpis.SampleKpis | src/app/lib/mockData.ts:384-407 | `getKPIs()` on the sample data is (1550, 3, 3, 16815) |
| Finance.Overview | src/app/components/Finance.tsx:30-31 | receivables and payables keep the original order, hold only their own kind, hold each record of their kind, and are together as long as the input |
| Finance.StatusSumsAddUp | src/app/components/Finance.tsx:36-44 | the Paid, Pending and Overdue sums of any record list add up to its total |
| Finance.TotalsSplitAllRecords | src/app/components/Finance.tsx:33-34 | the receivable and payable totals add up to the total of all records |
| Finance.ReceivableSumsAddUp | src/app/components/Finance.tsx:36-57 | collected, pending and overdue add up to the receivable total, and so do the three slices of the receivable chart |
| Finance.PayableChartBound | src/app/components/Finance.tsx:46-62 | with non-negative amounts, paid plus pending (the payable chart's total) is at most the payable total, and equals it when no payable is overdue |
| Finance.OverduePayableIsMissingFromChart | src/app/components/Finance.tsx:46-62 | with positive amounts, the payable chart covers the payable total exactly when no payable is overdue |
| Finance.PositiveSum | src/app/components/Finance.tsx:33-34 | a list with positive amounts is non-empty exactly when its sum is positive |
| Finance.CollectedAtMostTotal | src/app/components/Finance.tsx:36-38 | with non-negative amounts, 0 <= collected <= receivable total, so the collected share is at most 100% |
| Finance.OutstandingIsUncollected | src/app/lib/mockData.ts:397-399 | the KPI's outstanding payments are the pending plus the overdue receivables |
| Finance.OutstandingPaymentsMatchOverview | src/app/components/Finance.tsx:30-44 | the outstanding-payments KPI equals pending plus overdue receivables, which is the receivable total minus the amount collected |
| Finance.OutstandingAtMostReceivable | src/app/lib/mockData.ts:397-399 | with non-negative amounts, the outstanding-payments KPI lies between 0 and the receivable total of the finance overview |
| Finance.SampleSplit | src/app/lib/mockData.ts:317-381 | on the sample data the receivables are FIN001, FIN002, FIN003, FIN007 and the payables FIN004, FIN005, FIN006 |
| Finance.SampleStatusSplit | src/app/lib/mockData.ts:317-381 | the status filters over the sample receivables and payables |
| Finance.SampleOverview | src/app/components/Finance.tsx:30-51 | on the sample data: receivables 22315 (5500 collected, 8815 pending, 8000 overdue), payables 44400 (20000 paid, 24400 pending) |
| Backend.GetFinanceData | backend/main.py:81-118 | the records come back unchanged; receivables and payables keep the order and hold exactly the records whose type string is "Receivable", respectively "Payable", each as many times as it occurs in the records |
| Backend.SplitIsPartition | backend/main.py:82-86 | when every type is "Receivable" or "Payable", the two lists together hold every record, and their totals add up to the sum of all amounts |
| Backend.StatusSumsAddUp | backend/main.py:88-90 | when every status is Paid, Pending or Overdue, the three status sums add up to the total |
| Backend.ReceivableChartAddsUp | backend/main.py:88-99 | when every receivable's status is Paid, Pending or Overdue, the three receivable slices add up to `totalReceivable` |
| Backend.UnknownStatusIsLeftOut | backend/main.py:85-90 | a receivable with another status string counts toward the total but toward no slice |
| Backend.ServerRecordsMatchClient | backend/main.py:14-78 | the server's `records` are the client's sample finance records, in the same order, each encoded by `ToRow` with its type and status written as their names |
| Backend.ReceivablesAgree | backend/main.py:82-90 | the server's receivables, their total and their three status sums equal the client's |
| Backend.PayablesAgree | backend/main.py:83-93 | the server's payables, their total and their paid and pending sums equal the client's |
| Backend.ServerAgreesWithClient | backend/main.py:81-118 | on the same records the response's receivables, payables, four totals and both chart series equal those of the client's overview |
| Backend.SampleResponse | backend/main.py:106-115 | the server's totals on its own records are 22315, 44400, 5500 and 8000 |
| Inventory.FilteredData | frontend/src/app/components/Inventory.tsx:37-44 | the result keeps the input order; an item is kept exactly when its lower-cased name or supplier contains the lower-cased term and the category and warehouse selections are "all" or equal to its fields; every kept value appears as many times as in the input |
| Inventory.NoCriteriaKeepsAll | frontend/src/app/components/Inventory.tsx:38-42 | an empty term with both selections "all" keeps every item |
| Inventory.FilterAgainIsSame | frontend/src/app/components/Inventory.tsx:37 | filtering the result again with the same inputs changes nothing |
| Inventory.SearchIgnoresCase | frontend/src/app/components/Inventory.tsx:39-40 | two terms equal after lower-casing give the same result |
| Inventory.NarrowingCategory | frontend/src/app/components/Inventory.tsx:41 | a specific category keeps a subsequence of the "all" result, and every kept item is of that category |
| Inventory.NarrowingWarehouse | frontend/src/app/components/Inventory.tsx:42 | a specific warehouse keeps a subsequence of the "all" result, and every kept item is stored there |
| Inventory.LowStockIsStrict | frontend/src/app/components/Inventory.tsx:61 | stock exactly at the reorder level is not low; one unit below it is |
| Inventory.OnlyCategorySelected | frontend/src/app/components/Inventory.tsx:37-44 | with an empty term and every warehouse, the category selection alone decides the result |
| Inventory.LeafySelection | frontend/src/app/components/Inventory.tsx:37-44 | with an empty term and every warehouse, "Leafy" keeps exactly the leafy items, in order |
| Inventory.SampleLeafyClassification | src/app/lib/mockData.ts:57-188 | which sample items are leafy |
| Inventory.SampleLeafyFilter | src/app/lib/mockData.ts:57-188 | the leafy sample items are Spinach, Lettuce and Cabbage |
| Inventory.SampleLeafy | frontend/src/app/components/Inventory.tsx:37-61 | the "Leafy" selection over the sample inventory shows Spinach, Lettuce and Cabbage, the first two low on stock |
| SalesOrders.FilteredData | frontend/src/app/components/SalesOrders.tsx:37-43 | the result keeps the input order; an order is kept exactly when its lower-cased customer name or order number contains the lower-cased term and the status selection is "all" or its status; every kept value appears as many times as in the input |
| SalesOrders.NoCriteriaKeepsAll | frontend/src/app/components/SalesOrders.tsx:38-41 | an empty term with "all" keeps every order |
| SalesOrders.FilterAgainIsSame | frontend/src/app/components/SalesOrders.tsx:37 | filtering the result again changes nothing |
| SalesOrders.SearchIgnoresCase | frontend/src/app/components/SalesOrders.tsx:39-40 | two terms equal after lower-casing give the same result |
| SalesOrders.AddressIsIgnored | frontend/src/app/components/SalesOrders.tsx:38-40 | replacing every delivery address before filtering gives the filtered orders with their address replaced |
| SalesOrders.NarrowingStatus | frontend/src/app/components/SalesOrders.tsx:41 | a specific status keeps a subsequence of the "all" result, all of that status |
| SalesOrders.StatusResultsAreDisjoint | frontend/src/app/components/SalesOrders.tsx:41 | for a fixed term, two different status selections show no order in common |
| SalesOrders.StatusCountsAddUp | frontend/src/app/components/SalesOrders.tsx:41 | for a fixed term the four status selections together show as many orders as the "all" selection |
| PurchaseOrders.FilteredData | frontend/src/app/components/PurchaseOrders.tsx:37-44 | the result keeps the input order; an order is kept exactly when its lower-cased supplier, order number or vegetable type contains the lower-cased term and the status selection is "all" or its status; every kept value appears as many times as in the input |
| PurchaseOrders.NoCriteriaKeepsAll | frontend/src/app/components/PurchaseOrders.tsx:38-42 | an empty term with "all" keeps every order |
| PurchaseOrders.FilterAgainIsSame | frontend/src/app/components/PurchaseOrders.tsx:37 | filtering the result again changes nothing |
| PurchaseOrders.SearchIgnoresCase | frontend/src/app/components/PurchaseOrders.tsx:39-41 | two terms equal after lower-casing give the same result |
| PurchaseOrders.NarrowingStatus | frontend/src/app/components/PurchaseOrders.tsx:42 | a specific status keeps a subsequence of the "all" result, all of that status |
| PurchaseOrders.PendingSelection | frontend/src/app/components/PurchaseOrders.tsx:37-44 | with an empty term, "Pending" keeps exactly the pending orders |
| PurchaseOrders.SamplePendingFilter | src/app/lib/mockData.ts:266-315 | the pending sample purchase orders are PO001, PO002 and PO004 |
| PurchaseOrders.SamplePending | src/app/lib/mockData.ts:266-315 | on the sample data "Pending" shows PO001, PO002 and PO004 |
| Dashboard.KpiCards | src/app/components/Dashboard.tsx:42-78 | four cards in the order Today's Sales, Pending Deliveries, Low Stock Items, Outstanding Payments, carrying the four KPI values; no card but the low-stock one raises an alert |
| Dashboard.LowStockList | src/app/components/Dashboard.tsx:80 | the inventory order is kept, and an item is listed exactly when its quantity is below its reorder level, as many times as it occurs in the inventory |
| Dashboard.RecentOrders | src/app/components/Dashboard.tsx:81 | the first min(5, n) orders, in their original order |
| Dashboard.View | src/app/components/Dashboard.tsx:29-81 | the page has four cards, the low-stock card counting the low-stock list; the list keeps inventory order and holds exactly the low items, each as many times as in the inventory; the recent orders are the first min(5, n) orders |
| Dashboard.LowStockCardMatchesList | src/app/components/Dashboard.tsx:62-80 | the low-stock card shows the length of the low-stock list, and its alert is raised exactly when that list is non-empty, that is, when some item is low |
| Dashboard.LowStockCountIsListLength | src/app/components/Dashboard.tsx:62-80 | the low-stock KPI of `getKPIs` and the dashboard's low-stock list apply the same rule: the count is the length of the list |
| Dashboard.SampleView | src/app/components/Dashboard.tsx:29-81 | on the sample data the cards read 1550, 3, 3, 16815 with the alert raised, the low-stock list is Spinach, Lettuce and Cucumbers, and all five orders are recent |
| Dashboard.Session.HasSeenWelcome | src/app/components/Dashboard.tsx:33-34 | an absent `welcomeShown` key reads as not seen, and the "true" the page stores reads as seen |
| Dashboard.Session.Mount | src/app/components/Dashboard.tsx:31-39 | the welcome is shown exactly when the stored `welcomeShown` flag is absent or empty; the flag is then set to "true"; otherwise storage is unchanged |
| Dashboard.Session.MountTwice | src/app/components/Dashboard.tsx:31-39 | mounting twice in one session shows the welcome at most once, on the first mount |
| Dashboard.Session.constructor | src/app/components/Dashboard.tsx:33 | a session starts from the given storage contents |
| Layout.IsActive | frontend/src/app/components/Layout.tsx:48-51 | an entry is active only on a path that starts with its own path, and the root entry on no path but "/" |
| Layout.ActiveRule | frontend/src/app/components/Layout.tsx:48-51 | the root entry is active on "/" alone; any other entry is active exactly on its path followed by anything |
| Layout.NavPathsFacts | frontend/src/app/components/Layout.tsx:32-40 | seven entries, the first the root; every other path has at least three characters, and its second and third characters set it apart |
| Layout.AtMostOneActive | frontend/src/app/components/Layout.tsx:32-51 | on every path at most one navigation entry is active |
| Layout.ExactlyThisActive | frontend/src/app/components/Layout.tsx:32-51 | on an entry's own path that entry, and only it, is active |
| Layout.BottomNavItems | frontend/src/app/components/Layout.tsx:194 | the bottom bar shows the first four entries, in table order |
| Layout.FirstWord | frontend/src/app/components/Layout.tsx:206 | `split(' ')[0]` is a prefix of the label without spaces, followed by a space or by the end of the label |
| Layout.FirstWordIsUnique | frontend/src/app/components/Layout.tsx:206 | any string with those three properties is the first word |
| Layout.FirstWordOfWords | frontend/src/app/components/Layout.tsx:206 | a word without spaces is the first word of itself and of itself followed by a space and more text |
| Layout.BottomNavWords | frontend/src/app/components/Layout.tsx:32-36 | the four bottom-bar labels, split at their spaces |
| Layout.BottomNavLabels | frontend/src/app/components/Layout.tsx:194-206 | the bottom-bar labels read Dashboard, Inventory, Sales, Purchase |
| Layout.Shell.constructor | frontend/src/app/components/Layout.tsx:43-45 | the sidebar sheet, the collapsed flag and the "More" menu all start closed |
| Layout.Shell.ToggleCollapse | frontend/src/app/components/Layout.tsx:96 | the collapse button negates `sidebarCollapsed` and leaves the other flags alone |
| Layout.Shell.ToggleMoreMenu | frontend/src/app/components/Layout.tsx:212 | the "More" button negates `moreMenuOpen` and leaves the other flags alone |
| Layout.Shell.SetSidebarOpen | frontend/src/app/components/Layout.tsx:118-138 | the sheet's open notification and the menu button set `sidebarOpen` and nothing else |
| Layout.Shell.FollowSidebarLink | frontend/src/app/components/Layout.tsx:77 | following a sidebar link closes the sheet and nothing else |
| Layout.Shell.ToggleCollapseTwice | frontend/src/app/components/Layout.tsx:96 | two presses of the collapse button restore every flag |

## Left out

- Amounts, prices and quantities are unbounded integers. The source uses JavaScript numbers (doubles) and Python ints. Every sample value is a small integer, so no rounding arises.
- Percentages are left out: the collected share (`toFixed(1)`) and the chart-label percentages. They are floating point. `Finance.CollectedAtMostTotal` states the underlying integer inequality instead.
- All formatting is left out: `toLocaleString`, the currency prefix of the card values, and `toLocaleDateString`. Dates are opaque strings, and the "today" test is plain string equality with "2026-02-25".
- `Text.ToLower` lower-cases ASCII letters only. JavaScript `toLowerCase` and `includes` are Unicode-aware; non-ASCII case folding is not modelled.
- The FastAPI application, the CORS middleware, the HTTP routing and JSON serialisation are left out (backend/main.py:1-12, 80). `Backend.GetFinanceData` is the handler as a function of the records.
- The toast call is left out. `Dashboard.Session.Mount` returns whether the welcome is shown. Its title and description text are not modelled.
- `sessionStorage` is modelled only as a map from keys to strings, local to one session. Its persistence across reloads is not modelled, and neither is any access by other pages.
- React state and rendering are left out: `useState` for search terms, selections and tabs; JSX; icons; recharts; styling; the colour and badge `switch` helpers. The filters are functions of their inputs.
- The hard-coded `stockByCategory` and `salesTrendData` arrays are left out. They are not derived from any records.
- The fetch, loading and error handling of frontend/src/app/components/Finance.tsx is left out. It only displays values the server computed, and `Backend` models that computation.
- Settings.tsx, Reports.tsx and routes.tsx are not part of this model. They hold form defaults, static chart arrays and router configuration.
- The selections are modelled as arbitrary strings, matching the `string` type of the React state. The option lists in the select menus are not modelled.
