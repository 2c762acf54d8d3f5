/** The purchase-order table's filter: a case-insensitive search over the
    supplier, the order number and the vegetable type, combined with a
    status selection where "all" lets every status through. */
module PurchaseOrders {
  import opened Records
  import opened Seqs
  import opened Text
  import opened SampleData

  /** The sentinel value of the status selection. */
  const All: string := "all"

  /** The lower-cased supplier, order number or vegetable type contains the
      lower-cased search term. */
  predicate MatchesSearch(order: PurchaseOrder, searchTerm: string)
  {
    || Contains(ToLower(order.supplier), ToLower(searchTerm))
    || Contains(ToLower(order.orderNumber), ToLower(searchTerm))
    || Contains(ToLower(order.vegetableType), ToLower(searchTerm))
  }

  predicate MatchesStatus(order: PurchaseOrder, statusFilter: string)
  {
    statusFilter == All || PurchaseStatusName(order.status) == statusFilter
  }

  predicate Matches(order: PurchaseOrder, searchTerm: string, statusFilter: string)
  {
    MatchesSearch(order, searchTerm) && MatchesStatus(order, statusFilter)
  }

  /** The filter's callback for one choice of the two inputs. */
  function Criteria(searchTerm: string, statusFilter: string): PurchaseOrder -> bool
  {
    (order: PurchaseOrder) => Matches(order, searchTerm, statusFilter)
  }

  /** `filteredData`: the matching orders in their original order. An order
      is kept exactly when it matches, and every kept order comes from the input. */
  function FilteredData(orders: seq<PurchaseOrder>, searchTerm: string, statusFilter: string): (r: seq<PurchaseOrder>)
    ensures Subseq(r, orders)
    ensures forall i :: 0 <= i < |orders| ==> (orders[i] in r <==> Matches(orders[i], searchTerm, statusFilter))
    ensures forall j :: 0 <= j < |r| ==> r[j] in orders && Matches(r[j], searchTerm, statusFilter)
    ensures forall x :: multiset(r)[x] == if Matches(x, searchTerm, statusFilter) then multiset(orders)[x] else 0
  {
    var p := Criteria(searchTerm, statusFilter);
    FilterCounts(p, orders);
    FilterIsSubseq(p, orders);
    FilterMembers(p, orders);
    Filter(p, orders)
  }

  /** With an empty search term and "all", the table shows every order. */
  lemma NoCriteriaKeepsAll(orders: seq<PurchaseOrder>)
    ensures FilteredData(orders, "", All) == orders
  {
    forall i | 0 <= i < |orders| ensures Matches(orders[i], "", All) {
      ContainsEmpty(ToLower(orders[i].supplier));
    }
    FilterAllKept(Criteria("", All), orders);
  }

  /** Filtering the filtered table again with the same inputs changes nothing. */
  lemma FilterAgainIsSame(orders: seq<PurchaseOrder>, searchTerm: string, statusFilter: string)
    ensures var r := FilteredData(orders, searchTerm, statusFilter);
      FilteredData(r, searchTerm, statusFilter) == r
  {
    FilterIdempotent(Criteria(searchTerm, statusFilter), orders);
  }

  /** Two search terms that are equal after lower-casing select the same orders. */
  lemma SearchIgnoresCase(orders: seq<PurchaseOrder>, term1: string, term2: string, statusFilter: string)
    requires ToLower(term1) == ToLower(term2)
    ensures FilteredData(orders, term1, statusFilter) == FilteredData(orders, term2, statusFilter)
  {
    FilterCongruent(Criteria(term1, statusFilter), Criteria(term2, statusFilter), orders);
  }

  /** Choosing a status instead of "all" keeps a subsequence of the previous
      result, and every order kept has that status. */
  lemma NarrowingStatus(orders: seq<PurchaseOrder>, searchTerm: string, status: PurchaseStatus)
    ensures var r := FilteredData(orders, searchTerm, PurchaseStatusName(status));
      && Subseq(r, FilteredData(orders, searchTerm, All))
      && forall j :: 0 <= j < |r| ==> r[j].status == status
  {
    NamesAreDistinct();
    FilterMonotone(Criteria(searchTerm, PurchaseStatusName(status)), Criteria(searchTerm, All), orders);
  }

  predicate IsPendingOrder(order: PurchaseOrder) { order.status == PurchaseStatus.Pending }

  /** With an empty search term, the "Pending" selection keeps the pending orders. */
  lemma PendingSelection(orders: seq<PurchaseOrder>)
    ensures FilteredData(orders, "", "Pending") == Filter(IsPendingOrder, orders)
  {
    NamesAreDistinct();
    forall i | 0 <= i < |orders| ensures MatchesSearch(orders[i], "") {
      ContainsEmpty(ToLower(orders[i].supplier));
    }
    FilterCongruent(Criteria("", "Pending"), IsPendingOrder, orders);
  }

  /** On the sample data the pending orders are PO001, PO002 and PO004. */
  lemma SamplePendingFilter()
    ensures Filter(IsPendingOrder, PurchaseOrdersData) == [PO001, PO002, PO004]
  {
    assert IsPendingOrder(PO001) && IsPendingOrder(PO002) && !IsPendingOrder(PO003) && IsPendingOrder(PO004);
    FilterCons(IsPendingOrder, PO004, []);
    FilterCons(IsPendingOrder, PO003, [PO004]);
    FilterCons(IsPendingOrder, PO002, [PO003, PO004]);
    FilterCons(IsPendingOrder, PO001, [PO002, PO003, PO004]);
  }

  /** On the sample data the "Pending" selection shows PO001, PO002 and PO004. */
  lemma SamplePending()
    ensures FilteredData(PurchaseOrdersData, "", "Pending") == [PO001, PO002, PO004]
  {
    PendingSelection(PurchaseOrdersData);
    SamplePendingFilter();
  }
}
