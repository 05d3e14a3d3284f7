/** The `useFilter` hook (client/src/hooks/use-filter.ts): a category filter with an "all" sentinel
    and "load more" pagination. The hook's two pieces of state live in a class; the lists it derives
    from them are functions of that state and of the items the component passes in. */
module UseFilter {
  import opened Seqs
  import opened Text

  /** The filter value that shows every item. */
  const All := "all"
  const DefaultItemsPerPage := 6

  /** The test `String(item[filterKey]).toLowerCase() === currentFilter.toLowerCase()`;
      `key` stands for `String(item[filterKey])`. */
  function KeyMatches<T>(key: T -> string, filter: string): T -> bool
  {
    (item: T) => Lower(key(item)) == Lower(filter)
  }

  /** `filteredItems`: nothing for no items, everything for "all", otherwise the items whose key
      equals the filter ignoring case, in their original order. */
  function FilteredItems<T>(items: seq<T>, key: T -> string, filter: string): (r: seq<T>)
    ensures items == [] ==> r == []
    ensures filter == All ==> r == items
    ensures filter != All ==> forall i :: 0 <= i < |r| ==> r[i] in items && Lower(key(r[i])) == Lower(filter)
    ensures filter != All ==> forall i :: 0 <= i < |items| && Lower(key(items[i])) == Lower(filter) ==> items[i] in r
  {
    if |items| == 0 then []
    else if filter == All then items
    else Filter(items, KeyMatches(key, filter))
  }

  /** Filtering works item by item: the items of a concatenation are filtered in place, which is
      what keeps them in their original order. */
  lemma FilteredItemsAppend<T>(a: seq<T>, b: seq<T>, key: T -> string, filter: string)
    ensures FilteredItems(a + b, key, filter) == FilteredItems(a, key, filter) + FilteredItems(b, key, filter)
  {
    if a == [] {
      assert a + b == b;
    } else if b == [] {
      assert a + b == a;
    } else if filter != All {
      FilterAppend(a, b, KeyMatches(key, filter));
    }
  }

  /** Applying the same filter to its own output changes nothing. */
  lemma FilteredItemsIdempotent<T>(items: seq<T>, key: T -> string, filter: string)
    ensures FilteredItems(FilteredItems(items, key, filter), key, filter) == FilteredItems(items, key, filter)
  {
    if items != [] && filter != All {
      FilterIdempotent(items, KeyMatches(key, filter));
    }
  }

  /** `displayedItems`: `filteredItems.slice(0, currentPage * itemsPerPage)`. */
  function DisplayedItems<T>(filtered: seq<T>, page: int, perPage: int): (r: seq<T>)
    ensures r <= filtered
    ensures page * perPage >= 0 ==> |r| == Min(page * perPage, |filtered|)
  {
    SliceTo(filtered, page * perPage)
  }

  /** `hasMoreItems`: fewer items shown than there are. */
  predicate HasMoreItems<T>(filtered: seq<T>, page: int, perPage: int)
  {
    |DisplayedItems(filtered, page, perPage)| < |filtered|
  }

  /** With a non-negative end index there are more items exactly when the pages shown so far
      do not reach the end of the list. */
  lemma HasMoreItemsIff<T>(filtered: seq<T>, page: int, perPage: int)
    requires page * perPage >= 0
    ensures HasMoreItems(filtered, page, perPage) <==> page * perPage < |filtered|
  {
  }

  /** Loading one more page never hides an item and shows up to `perPage` more. */
  lemma LoadMoreGrows<T>(filtered: seq<T>, page: int, perPage: int)
    requires page >= 0 && perPage >= 0
    ensures DisplayedItems(filtered, page, perPage) <= DisplayedItems(filtered, page + 1, perPage)
    ensures |DisplayedItems(filtered, page + 1, perPage)| ==
            Min(|DisplayedItems(filtered, page, perPage)| + perPage, |filtered|)
  {
    assert (page + 1) * perPage == page * perPage + perPage;
    SliceToMonotone(filtered, page * perPage, (page + 1) * perPage);
  }

  /** The hook's state: the current filter and page, with the page size it was given. */
  class FilterState {
    var currentFilter: string
    var currentPage: int
    const itemsPerPage: int

    /** `useState(initialFilter)` and `useState(1)`. */
    constructor (initialFilter: string, itemsPerPage: int)
      ensures currentFilter == initialFilter && currentPage == 1
      ensures this.itemsPerPage == itemsPerPage
    {
      currentFilter := initialFilter;
      currentPage := 1;
      this.itemsPerPage := itemsPerPage;
    }

    /** `useFilter(items, filterKey)`: every item, six per page. */
    constructor WithDefaults()
      ensures currentFilter == All && currentPage == 1
      ensures itemsPerPage == DefaultItemsPerPage
    {
      currentFilter := All;
      currentPage := 1;
      itemsPerPage := DefaultItemsPerPage;
    }

    /** `setFilter(filter)` followed by the effect on `[currentFilter]`: a new value resets the page
        to 1; setting the value it already has re-renders nothing, so the page stays. */
    method SetFilter(filter: string)
      modifies this
      ensures currentFilter == filter
      ensures currentPage == if filter == old(currentFilter) then old(currentPage) else 1
    {
      if filter != currentFilter {
        currentFilter := filter;
        currentPage := 1;
      }
    }

    /** `loadMoreItems`: `setCurrentPage(prev => prev + 1)`. */
    method LoadMoreItems()
      modifies this
      ensures currentPage == old(currentPage) + 1
      ensures currentFilter == old(currentFilter)
    {
      currentPage := currentPage + 1;
    }

    /** The exposed `setCurrentPage`. */
    method SetCurrentPage(page: int)
      modifies this
      ensures currentPage == page
      ensures currentFilter == old(currentFilter)
    {
      currentPage := page;
    }

    /** What the hook returns as `displayedItems` for the items of this render. */
    function Displayed<T>(items: seq<T>, key: T -> string): (r: seq<T>)
      reads this
      ensures r <= FilteredItems(items, key, currentFilter)
      ensures currentPage * itemsPerPage >= 0 ==>
                |r| == Min(currentPage * itemsPerPage, |FilteredItems(items, key, currentFilter)|)
    {
      DisplayedItems(FilteredItems(items, key, currentFilter), currentPage, itemsPerPage)
    }
  }
}
