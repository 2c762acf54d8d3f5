/** The sales-order table's filter: a case-insensitive search over the
    customer name and the order number, combined with a status selection
    where "all" lets every status through. */
module SalesOrders {
  import opened Records
  import opened Seqs
  import opened Text

  /** The sentinel value of the status selection. */
  const All: string := "all"

  /** The lower-cased customer name or order number contains the lower-cased search term. */
  predicate MatchesSearch(order: SalesOrder, searchTerm: string)
  {
    Contains(ToLower(order.customerName), ToLower(searchTerm)) || Contains(ToLower(order.orderNumber), ToLower(searchTerm))
  }

  predicate MatchesStatus(order: SalesOrder, statusFilter: string)
  {
    statusFilter == All || SalesStatusName(order.status) == statusFilter
  }

  predicate Matches(order: SalesOrder, searchTerm: string, statusFilter: string)
  {
    MatchesSearch(order, searchTerm) && MatchesStatus(order, statusFilter)
  }

  /** The filter's callback for one choice of the two inputs. */
  function Criteria(searchTerm: string, statusFilter: string): SalesOrder -> bool
  {
    (order: SalesOrder) => Matches(order, searchTerm, statusFilter)
  }

  /** `filteredData`: the matching orders in their original order. An order
      is kept exactly when it matches, and every kept order comes from the input. */
  function FilteredData(orders: seq<SalesOrder>, searchTerm: string, statusFilter: string): (r: seq<SalesOrder>)
    ensures Subseq(r, orders)
    ensures forall i :: 0 <= i < |orders| ==> (orders[i] in r <==> Matches(orders[i], searchTerm, statusFilter))
    ensures forall j :: 0 <= j < |r| ==> r[j] in orders && Matches(r[j], searchTerm, statusFilter)
    ensures forall x :: multiset(r)[x] == if Matches(x, searchTerm, statusFilter) then multiset(orders)[x] else 0
  {
    var p := Criteria(searchTerm, statusFilter);
    FilterCounts(p, orders);
    FilterIsSubseq(p, orders);
    FilterMembers(p, orders);
    Filter(p, orders)
  }

  /** With an empty search term and "all", the table shows every order. */
  lemma NoCriteriaKeepsAll(orders: seq<SalesOrder>)
    ensures FilteredData(orders, "", All) == orders
  {
    forall i | 0 <= i < |orders| ensures Matches(orders[i], "", All) {
      ContainsEmpty(ToLower(orders[i].customerName));
    }
    FilterAllKept(Criteria("", All), orders);
  }

  /** Filtering the filtered table again with the same inputs changes nothing. */
  lemma FilterAgainIsSame(orders: seq<SalesOrder>, searchTerm: string, statusFilter: string)
    ensures var r := FilteredData(orders, searchTerm, statusFilter);
      FilteredData(r, searchTerm, statusFilter) == r
  {
    FilterIdempotent(Criteria(searchTerm, statusFilter), orders);
  }

  /** Two search terms that are equal after lower-casing select the same orders. */
  lemma SearchIgnoresCase(orders: seq<SalesOrder>, term1: string, term2: string, statusFilter: string)
    requires ToLower(term1) == ToLower(term2)
    ensures FilteredData(orders, term1, statusFilter) == FilteredData(orders, term2, statusFilter)
  {
    FilterCongruent(Criteria(term1, statusFilter), Criteria(term2, statusFilter), orders);
  }

  /** The order with its delivery address replaced. */
  function WithAddress(address: string): SalesOrder -> SalesOrder
  {
    (order: SalesOrder) => order.(deliveryAddress := address)
  }

  /** The delivery address plays no part: replacing every order's address
      and then filtering gives the filtered orders with the address replaced. */
  lemma AddressIsIgnored(orders: seq<SalesOrder>, searchTerm: string, statusFilter: string, address: string)
    ensures FilteredData(Map(WithAddress(address), orders), searchTerm, statusFilter)
            == Map(WithAddress(address), FilteredData(orders, searchTerm, statusFilter))
  {
    var p := Criteria(searchTerm, statusFilter);
    FilterMap(WithAddress(address), p, p, orders);
  }

  /** Choosing a status instead of "all" keeps a subsequence of the previous
      result, and every order kept has that status. */
  lemma NarrowingStatus(orders: seq<SalesOrder>, searchTerm: string, status: SalesStatus)
    ensures var r := FilteredData(orders, searchTerm, SalesStatusName(status));
      && Subseq(r, FilteredData(orders, searchTerm, All))
      && forall j :: 0 <= j < |r| ==> r[j].status == status
  {
    NamesAreDistinct();
    FilterMonotone(Criteria(searchTerm, SalesStatusName(status)), Criteria(searchTerm, All), orders);
  }

  /** For a fixed search term the four status selections show disjoint sets of orders. */
  lemma StatusResultsAreDisjoint(orders: seq<SalesOrder>, searchTerm: string, s: SalesStatus, t: SalesStatus)
    requires s != t
    ensures var rs := FilteredData(orders, searchTerm, SalesStatusName(s));
      var rt := FilteredData(orders, searchTerm, SalesStatusName(t));
      forall j :: 0 <= j < |rs| ==> rs[j] !in rt
  {
    NamesAreDistinct();
  }

  /** The count of `StatusCountsAddUp`, over the callbacks of `FilteredData`. */
  lemma {:induction false} StatusFilterLengthsAddUp(orders: seq<SalesOrder>, searchTerm: string)
    ensures |Filter(Criteria(searchTerm, "Preparing"), orders)|
            + |Filter(Criteria(searchTerm, "Out for Delivery"), orders)|
            + |Filter(Criteria(searchTerm, "Delivered"), orders)|
            + |Filter(Criteria(searchTerm, "Cancelled"), orders)|
            == |Filter(Criteria(searchTerm, All), orders)|
  {
    if orders != [] {
      StatusFilterLengthsAddUp(orders[1..], searchTerm);
    }
  }

  /** For a fixed search term the four status selections together show as
      many orders as the "all" selection. */
  lemma StatusCountsAddUp(orders: seq<SalesOrder>, searchTerm: string)
    ensures |FilteredData(orders, searchTerm, "Preparing")|
            + |FilteredData(orders, searchTerm, "Out for Delivery")|
            + |FilteredData(orders, searchTerm, "Delivered")|
            + |FilteredData(orders, searchTerm, "Cancelled")|
            == |FilteredData(orders, searchTerm, All)|
  {
    StatusFilterLengthsAddUp(orders, searchTerm);
  }
}
