/** The inventory table's filter: a case-insensitive search over the item
    name and supplier, combined with a category selection and a warehouse
    selection, where the selection "all" lets every value through. */
module Inventory {
  import opened Records
  import opened Seqs
  import opened Text
  import opened SampleData

  /** The sentinel value of the category and warehouse selections. */
  const All: string := "all"

  /** The lower-cased name or supplier contains the lower-cased search term. */
  predicate MatchesSearch(item: InventoryItem, searchTerm: string)
  {
    Contains(ToLower(item.name), ToLower(searchTerm)) || Contains(ToLower(item.supplier), ToLower(searchTerm))
  }

  predicate MatchesCategory(item: InventoryItem, categoryFilter: string)
  {
    categoryFilter == All || CategoryName(item.category) == categoryFilter
  }

  predicate MatchesWarehouse(item: InventoryItem, warehouseFilter: string)
  {
    warehouseFilter == All || item.warehouse == warehouseFilter
  }

  /** The three conditions of the table filter, all of which must hold. */
  predicate Matches(item: InventoryItem, searchTerm: string, categoryFilter: string, warehouseFilter: string)
  {
    MatchesSearch(item, searchTerm) && MatchesCategory(item, categoryFilter) && MatchesWarehouse(item, warehouseFilter)
  }

  /** The filter's callback for one choice of the three inputs. */
  function Criteria(searchTerm: string, categoryFilter: string, warehouseFilter: string): InventoryItem -> bool
  {
    (item: InventoryItem) => Matches(item, searchTerm, categoryFilter, warehouseFilter)
  }

  /** `filteredData`: the items that match, in the order of the inventory. An
      item of the inventory is kept exactly when it matches, and every kept
      item comes from the inventory. */
  function FilteredData(items: seq<InventoryItem>, searchTerm: string, categoryFilter: string, warehouseFilter: string): (r: seq<InventoryItem>)
    ensures Subseq(r, items)
    ensures forall i :: 0 <= i < |items| ==>
      (items[i] in r <==> Matches(items[i], searchTerm, categoryFilter, warehouseFilter))
    ensures forall j :: 0 <= j < |r| ==> r[j] in items && Matches(r[j], searchTerm, categoryFilter, warehouseFilter)
    ensures forall x :: multiset(r)[x] == if Matches(x, searchTerm, categoryFilter, warehouseFilter) then multiset(items)[x] else 0
  {
    var p := Criteria(searchTerm, categoryFilter, warehouseFilter);
    FilterCounts(p, items);
    FilterIsSubseq(p, items);
    FilterMembers(p, items);
    Filter(p, items)
  }

  /** With an empty search term and both selections "all", the table shows every item. */
  lemma NoCriteriaKeepsAll(items: seq<InventoryItem>)
    ensures FilteredData(items, "", All, All) == items
  {
    forall i | 0 <= i < |items| ensures Matches(items[i], "", All, All) {
      ContainsEmpty(ToLower(items[i].name));
    }
    FilterAllKept(Criteria("", All, All), items);
  }

  /** Filtering the filtered table again with the same inputs changes nothing. */
  lemma FilterAgainIsSame(items: seq<InventoryItem>, searchTerm: string, categoryFilter: string, warehouseFilter: string)
    ensures var r := FilteredData(items, searchTerm, categoryFilter, warehouseFilter);
      FilteredData(r, searchTerm, categoryFilter, warehouseFilter) == r
  {
    FilterIdempotent(Criteria(searchTerm, categoryFilter, warehouseFilter), items);
  }

  /** Two search terms that are equal after lower-casing select the same items. */
  lemma SearchIgnoresCase(items: seq<InventoryItem>, term1: string, term2: string, categoryFilter: string, warehouseFilter: string)
    requires ToLower(term1) == ToLower(term2)
    ensures FilteredData(items, term1, categoryFilter, warehouseFilter) == FilteredData(items, term2, categoryFilter, warehouseFilter)
  {
    FilterCongruent(Criteria(term1, categoryFilter, warehouseFilter), Criteria(term2, categoryFilter, warehouseFilter), items);
  }

  /** Choosing a category instead of "all" keeps a subsequence of the previous
      result, and every item it keeps is of that category. */
  lemma NarrowingCategory(items: seq<InventoryItem>, searchTerm: string, category: string, warehouseFilter: string)
    ensures Subseq(FilteredData(items, searchTerm, category, warehouseFilter), FilteredData(items, searchTerm, All, warehouseFilter))
    ensures var r := FilteredData(items, searchTerm, category, warehouseFilter);
      category != All ==> forall j :: 0 <= j < |r| ==> CategoryName(r[j].category) == category
  {
    FilterMonotone(Criteria(searchTerm, category, warehouseFilter), Criteria(searchTerm, All, warehouseFilter), items);
  }

  /** Choosing a warehouse instead of "all" keeps a subsequence of the
      previous result, and every item it keeps is stored in that warehouse. */
  lemma NarrowingWarehouse(items: seq<InventoryItem>, searchTerm: string, categoryFilter: string, warehouse: string)
    ensures Subseq(FilteredData(items, searchTerm, categoryFilter, warehouse), FilteredData(items, searchTerm, categoryFilter, All))
    ensures var r := FilteredData(items, searchTerm, categoryFilter, warehouse);
      warehouse != All ==> forall j :: 0 <= j < |r| ==> r[j].warehouse == warehouse
  {
    FilterMonotone(Criteria(searchTerm, categoryFilter, warehouse), Criteria(searchTerm, categoryFilter, All), items);
  }

  /** The low-stock rule is strict: stock exactly at the reorder level is not
      low, one unit below it is. */
  lemma LowStockIsStrict(item: InventoryItem)
    ensures !IsLowStock(item.(quantity := item.reorderLevel))
    ensures IsLowStock(item.(quantity := item.reorderLevel - 1))
  {
  }

  /** The callback of a filter on the category selection alone. */
  function CategoryCriteria(categoryFilter: string): InventoryItem -> bool
  {
    (item: InventoryItem) => MatchesCategory(item, categoryFilter)
  }

  /** With an empty search term and every warehouse, only the category
      selection decides what is shown. */
  lemma OnlyCategorySelected(items: seq<InventoryItem>, categoryFilter: string)
    ensures FilteredData(items, "", categoryFilter, All) == Filter(CategoryCriteria(categoryFilter), items)
  {
    forall i | 0 <= i < |items| ensures MatchesSearch(items[i], "") {
      ContainsEmpty(ToLower(items[i].name));
    }
    FilterCongruent(Criteria("", categoryFilter, All), CategoryCriteria(categoryFilter), items);
  }

  predicate IsLeafy(item: InventoryItem) { item.category == Leafy }

  /** With an empty search term and every warehouse, the "Leafy" selection
      keeps the leafy items. */
  lemma LeafySelection(items: seq<InventoryItem>)
    ensures FilteredData(items, "", "Leafy", All) == Filter(IsLeafy, items)
  {
    OnlyCategorySelected(items, "Leafy");
    FilterCongruent(CategoryCriteria("Leafy"), IsLeafy, items);
  }

  /** Which sample items are leafy. */
  lemma SampleLeafyClassification()
    ensures IsLeafy(Item2) && IsLeafy(Item5) && IsLeafy(Item8)
    ensures !IsLeafy(Item1) && !IsLeafy(Item3) && !IsLeafy(Item4) && !IsLeafy(Item6)
    ensures !IsLeafy(Item7) && !IsLeafy(Item9) && !IsLeafy(Item10)
  {
  }

  /** The leafy items of the sample inventory. */
  lemma SampleLeafyFilter()
    ensures Filter(IsLeafy, InventoryData) == [Item2, Item5, Item8]
  {
    SampleLeafyClassification();
    FilterCons(IsLeafy, Item10, []);
    FilterCons(IsLeafy, Item9, [Item10]);
    FilterCons(IsLeafy, Item8, [Item9, Item10]);
    FilterCons(IsLeafy, Item7, [Item8, Item9, Item10]);
    FilterCons(IsLeafy, Item6, [Item7, Item8, Item9, Item10]);
    FilterCons(IsLeafy, Item5, [Item6, Item7, Item8, Item9, Item10]);
    FilterCons(IsLeafy, Item4, [Item5, Item6, Item7, Item8, Item9, Item10]);
    FilterCons(IsLeafy, Item3, [Item4, Item5, Item6, Item7, Item8, Item9, Item10]);
    FilterCons(IsLeafy, Item2, [Item3, Item4, Item5, Item6, Item7, Item8, Item9, Item10]);
    FilterCons(IsLeafy, Item1, [Item2, Item3, Item4, Item5, Item6, Item7, Item8, Item9, Item10]);
  }

  /** On the sample inventory the "Leafy" selection shows Spinach, Lettuce and
      Cabbage, and the first two of them are low on stock. */
  lemma SampleLeafy()
    ensures FilteredData(InventoryData, "", "Leafy", All) == [Item2, Item5, Item8]
    ensures IsLowStock(Item2) && IsLowStock(Item5) && !IsLowStock(Item8)
  {
    LeafySelection(InventoryData);
    SampleLeafyFilter();
  }
}
