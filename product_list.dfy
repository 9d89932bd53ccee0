/**
 * The product list screen: a search over name and description, a choice of
 * sort order, and page-by-page display with a window of page links.
 *
 * `ListComponent` holds the component's fields. Its object invariant says
 * that the filtered list is always the sorted search result of the loaded
 * products and that the page fields are always consistent with it; every
 * operation keeps it and states its new state.
 */
module ProductList {
  import opened Wrappers
  import opened Text

  /** A catalogue product; `createdAt` is the timestamp `created_at` parses to. */
  datatype Product = Product(
    id: Option<int>,
    name: Option<string>,
    description: Option<string>,
    price: Option<int>,
    createdAt: Option<int>)

  /** The `currentSort` choices. */
  datatype SortOption = NoSort | NameAsc | NameDesc | PriceAsc | PriceDesc | DateAsc | DateDesc

  function Min(a: int, b: int): int { if a <= b then a else b }
  function Max(a: int, b: int): int { if a >= b then a else b }

  // ---------------------------------------------------------------- search

  /**
   * The search predicate: the lower-cased name or the lower-cased
   * description contains the (already lower-cased) term; a missing field
   * never matches.
   */
  predicate Matches(p: Product, term: string) {
    (p.name.Some? && Contains(Lower(p.name.value), term))
    || (p.description.Some? && Contains(Lower(p.description.value), term))
  }

  /**
   * Filtering by the empty term is not the same as skipping the filter: it
   * keeps exactly the products that have a name or a description. This is
   * why `applyFilters` guards the search step by a non-empty term.
   */
  lemma MatchesEmptyTerm(p: Product)
    ensures Matches(p, "") <==> p.name.Some? || p.description.Some?
  {
    if p.name.Some? {
      ContainsEmpty(Lower(p.name.value));
    }
    if p.description.Some? {
      ContainsEmpty(Lower(p.description.value));
    }
  }

  /**
   * `products.filter(...)`: keeps, in their order, exactly the products that
   * match, each as often as it occurs.
   */
  function Filter(products: seq<Product>, term: string): seq<Product> {
    if products == [] then []
    else (if Matches(products[0], term) then [products[0]] else []) + Filter(products[1..], term)
  }

  lemma {:induction false} FilterKeepsMatches(products: seq<Product>, term: string)
    ensures |Filter(products, term)| <= |products|
    ensures forall i :: 0 <= i < |Filter(products, term)| ==> Matches(Filter(products, term)[i], term)
    ensures forall p :: multiset(Filter(products, term))[p] == if Matches(p, term) then multiset(products)[p] else 0
  {
    if products != [] {
      FilterKeepsMatches(products[1..], term);
      assert products == [products[0]] + products[1..];
    }
  }

  /** The search step of `applyFilters`: an empty term keeps every product. */
  function Searched(products: seq<Product>, term: string): seq<Product> {
    if term != "" then Filter(products, term) else products
  }

  // ---------------------------------------------------------------- sorting

  function NameKey(p: Product): string { p.name.GetOr("") }
  function PriceKey(p: Product): int { p.price.GetOr(0) }
  function DateKey(p: Product): int { p.createdAt.GetOr(0) }

  /**
   * `a` may stand before `b` under the comparator of `sort` (the comparator
   * returns at most 0). Names compare with `LexLe`; missing names are "",
   * missing prices and dates 0. Without a sort every order is allowed.
   */
  predicate InOrder(sort: SortOption, a: Product, b: Product) {
    match sort
    case NoSort => true
    case NameAsc => LexLe(NameKey(a), NameKey(b))
    case NameDesc => LexLe(NameKey(b), NameKey(a))
    case PriceAsc => PriceKey(a) <= PriceKey(b)
    case PriceDesc => PriceKey(b) <= PriceKey(a)
    case DateAsc => DateKey(a) <= DateKey(b)
    case DateDesc => DateKey(b) <= DateKey(a)
  }

  /** Every comparator is total: of two products, one may stand before the other. */
  lemma InOrderTotal(sort: SortOption, a: Product, b: Product)
    ensures InOrder(sort, a, b) || InOrder(sort, b, a)
  {
    match sort
    case NameAsc => LexLeTotal(NameKey(a), NameKey(b));
    case NameDesc => LexLeTotal(NameKey(a), NameKey(b));
    case _ =>
  }

  /** Every comparator is transitive. */
  lemma InOrderTransitive(sort: SortOption, a: Product, b: Product, c: Product)
    requires InOrder(sort, a, b) && InOrder(sort, b, c)
    ensures InOrder(sort, a, c)
  {
    match sort
    case NameAsc => LexLeTransitive(NameKey(a), NameKey(b), NameKey(c));
    case NameDesc => LexLeTransitive(NameKey(c), NameKey(b), NameKey(a));
    case _ =>
  }

  /** `s` is ordered by the comparator of `sort`. */
  ghost predicate Sorted(sort: SortOption, s: seq<Product>) {
    forall i, j :: 0 <= i < j < |s| ==> InOrder(sort, s[i], s[j])
  }

  /** The first `n` elements of `a` are ordered by `sort`. */
  ghost predicate SortedUpTo(a: array<Product>, sort: SortOption, n: int)
    reads a
  {
    forall x, y :: 0 <= x < y < n && y < a.Length ==> InOrder(sort, a[x], a[y])
  }

  /**
   * `result.sort(comparator)` on the copy: an insertion sort in place that
   * leaves the array ordered by `sort` and a permutation of what it held.
   */
  method SortInPlace(a: array<Product>, sort: SortOption)
    modifies a
    ensures Sorted(sort, a[..])
    ensures multiset(a[..]) == multiset(old(a[..]))
  {
    var i := 0;
    while i < a.Length
      invariant 0 <= i <= a.Length
      invariant SortedUpTo(a, sort, i)
      invariant multiset(a[..]) == multiset(old(a[..]))
    {
      InsertBackwards(a, sort, i);
      i := i + 1;
    }
  }

  /** Moves `a[i]` down into the ordered run `a[..i]`, leaving `a[..i+1]` ordered. */
  method InsertBackwards(a: array<Product>, sort: SortOption, i: int)
    requires 0 <= i < a.Length && SortedUpTo(a, sort, i)
    modifies a
    ensures SortedUpTo(a, sort, i + 1)
    ensures multiset(a[..]) == multiset(old(a[..]))
  {
    var j := i;
    while j > 0 && !InOrder(sort, a[j - 1], a[j])
      invariant 0 <= j <= i
      invariant forall x, y :: 0 <= x < y <= i && x != j && y != j ==> InOrder(sort, a[x], a[y])
      invariant forall y :: j < y <= i ==> InOrder(sort, a[j], a[y])
      invariant multiset(a[..]) == multiset(old(a[..]))
    {
      InOrderTotal(sort, a[j - 1], a[j]);
      Swap(a, j - 1, j);
      j := j - 1;
    }
    forall x | 0 <= x < j
      ensures InOrder(sort, a[x], a[j])
    {
      if x < j - 1 {
        InOrderTransitive(sort, a[x], a[j - 1], a[j]);
      }
    }
  }

  /** Exchanges `a[i]` and `a[j]`; every other element stays, so the contents do too. */
  method Swap(a: array<Product>, i: int, j: int)
    requires 0 <= i < a.Length && 0 <= j < a.Length
    modifies a
    ensures a[i] == old(a[j]) && a[j] == old(a[i])
    ensures forall k :: 0 <= k < a.Length && k != i && k != j ==> a[k] == old(a[k])
    ensures multiset(a[..]) == multiset(old(a[..]))
  {
    a[i], a[j] := a[j], a[i];
  }

  // ---------------------------------------------------------------- pagination

  /** `Math.ceil(n / perPage)`: the fewest pages of `perPage` items that hold `n` items. */
  function TotalPages(n: nat, perPage: int): (pages: nat)
    requires perPage > 0
    ensures (pages - 1) * perPage < n <= pages * perPage
  {
    var q := (n + perPage - 1) / perPage;
    CeilingBounds(n, perPage, q);
    q
  }

  /** The arithmetic behind `TotalPages`. */
  lemma CeilingBounds(n: nat, perPage: int, q: int)
    requires perPage > 0 && q == (n + perPage - 1) / perPage
    ensures q >= 0
    ensures (q - 1) * perPage < n <= q * perPage
  {
    var m := n + perPage - 1;
    assert perPage * q <= m < perPage * q + perPage by {
      assert m == perPage * q + m % perPage;
    }
    assert (q - 1) * perPage == perPage * q - perPage;
    assert perPage * (q + 1) > 0;
  }

  /**
   * The clamp of `updatePagination`: a page past the last becomes the last
   * page, or page 1 when there are no pages; any other page stays.
   */
  function ClampPage(page: int, totalPages: nat): (r: int)
    requires page >= 1
    ensures 1 <= r <= Max(totalPages, 1)
    ensures page <= totalPages ==> r == page
    ensures page > totalPages ==> r == Max(totalPages, 1)
  {
    if page > totalPages then (if totalPages == 0 then 1 else totalPages) else page
  }

  /** The first index of page `page`. */
  function PageStart(page: int, perPage: int): int {
    (page - 1) * perPage
  }

  /**
   * `filtered.slice(start, start + perPage)` for page `page`: the contiguous
   * run of at most `perPage` items from the page's first index, empty when
   * that index is past the end.
   */
  function PageSlice(s: seq<Product>, page: int, perPage: int): (r: seq<Product>)
    requires page >= 1 && perPage > 0
    ensures |r| == if PageStart(page, perPage) < |s| then Min(perPage, |s| - PageStart(page, perPage)) else 0
    ensures forall k :: 0 <= k < |r| ==> r[k] == s[PageStart(page, perPage) + k]
  {
    var start := PageStart(page, perPage);
    assert start >= 0 by {
      assert (page - 1) * perPage >= 0;
    }
    if start >= |s| then [] else s[start..Min(start + perPage, |s|)]
  }

  /** Pages 1 to `k`, one after the other. */
  function Pages(s: seq<Product>, perPage: int, k: nat): seq<Product>
    requires perPage > 0
  {
    if k == 0 then [] else Pages(s, perPage, k - 1) + PageSlice(s, k, perPage)
  }

  /** The first `k` pages are the first `k * perPage` items (or all of them). */
  lemma {:induction false} PagesArePrefix(s: seq<Product>, perPage: int, k: nat)
    requires perPage > 0
    ensures Pages(s, perPage, k) == s[..Min(k * perPage, |s|)]
  {
    if k > 0 {
      var b := PageStart(k, perPage);
      PageStartStep(k, perPage);
      var lo, hi := Min(b, |s|), Min(b + perPage, |s|);
      calc {
        Pages(s, perPage, k);
        Pages(s, perPage, k - 1) + PageSlice(s, k, perPage);
        { PagesArePrefix(s, perPage, k - 1); PageSliceRun(s, k, perPage); }
        s[..lo] + s[lo..hi];
        s[..hi];
      }
    }
  }

  /** Page `k` starts where the first `k - 1` pages end, at a non-negative index. */
  lemma PageStartStep(k: int, perPage: int)
    requires k >= 1 && perPage > 0
    ensures PageStart(k, perPage) == (k - 1) * perPage >= 0
    ensures k * perPage == PageStart(k, perPage) + perPage
  {
  }

  /** Page `k` is the run of the list between its first index and the next page's, both cut at the end. */
  lemma PageSliceRun(s: seq<Product>, k: int, perPage: int)
    requires k >= 1 && perPage > 0 && PageStart(k, perPage) >= 0
    ensures PageSlice(s, k, perPage)
      == s[Min(PageStart(k, perPage), |s|)..Min(PageStart(k, perPage) + perPage, |s|)]
  {
  }

  /** The pages 1 to `totalPages` partition the filtered list: together they are exactly it. */
  lemma PagesPartition(s: seq<Product>, perPage: int)
    requires perPage > 0
    ensures Pages(s, perPage, TotalPages(|s|, perPage)) == s
  {
    PagesArePrefix(s, perPage, TotalPages(|s|, perPage));
  }

  /** After the clamp, a non-empty list never shows an empty page. */
  lemma ClampedPageNotEmpty(s: seq<Product>, page: int, perPage: int)
    requires page >= 1 && perPage > 0 && |s| > 0
    ensures PageSlice(s, ClampPage(page, TotalPages(|s|, perPage)), perPage) != []
  {
    var t := TotalPages(|s|, perPage);
    var p := ClampPage(page, t);
    assert t >= 1;
    assert 1 <= p <= t;
    assert (p - 1) * perPage <= (t - 1) * perPage by {
      assert (t - 1) * perPage - (p - 1) * perPage == (t - p) * perPage;
    }
  }

  /** The first page number of the window of `getPageNumbers`, in closed form. */
  function WindowStart(currentPage: int, totalPages: nat): int {
    Max(1, Min(currentPage - 2, totalPages - 4))
  }

  /** Every field of `ListComponent`, as a value. */
  datatype ListState = ListState(
    products: seq<Product>,
    filteredProducts: seq<Product>,
    paginatedProducts: seq<Product>,
    loading: bool,
    searchTerm: string,
    currentSort: SortOption,
    currentPage: int,
    itemsPerPage: int,
    totalPages: nat)

  class ListComponent {
    var products: seq<Product>
    var filteredProducts: seq<Product>
    var paginatedProducts: seq<Product>
    var loading: bool
    var searchTerm: string
    var currentSort: SortOption
    var currentPage: int
    var itemsPerPage: int
    var totalPages: nat

    function Snapshot(): ListState
      reads this
    {
      ListState(products, filteredProducts, paginatedProducts, loading, searchTerm,
        currentSort, currentPage, itemsPerPage, totalPages)
    }

    /** The page settings `updatePagination` needs. */
    predicate PageSettingsValid()
      reads this
    {
      itemsPerPage > 0 && currentPage >= 1
    }

    /** The page fields agree with the filtered list and the current page is in range. */
    ghost predicate Paginated()
      reads this
      requires PageSettingsValid()
    {
      && totalPages == TotalPages(|filteredProducts|, itemsPerPage)
      && currentPage <= Max(totalPages, 1)
      && paginatedProducts == PageSlice(filteredProducts, currentPage, itemsPerPage)
    }

    /** The filtered list is the sorted search result of the loaded products. */
    ghost predicate Filtered()
      reads this
    {
      && multiset(filteredProducts) == multiset(Searched(products, searchTerm))
      && Sorted(currentSort, filteredProducts)
      && (currentSort == NoSort ==> filteredProducts == Searched(products, searchTerm))
    }

    ghost predicate Valid()
      reads this
    {
      && PageSettingsValid()
      && Paginated()
      && Filtered()
      && searchTerm == Lower(searchTerm)
    }

    constructor ()
      ensures Valid()
      ensures Snapshot() == ListState([], [], [], true, "", NoSort, 1, 10, 0)
    {
      products := [];
      filteredProducts := [];
      paginatedProducts := [];
      loading := true;
      searchTerm := "";
      currentSort := NoSort;
      currentPage := 1;
      itemsPerPage := 10;
      totalPages := 0;
    }

    /**
     * `updatePagination`: recomputes the page count, clamps the current page
     * into range and slices the current page out of the filtered list.
     */
    method UpdatePagination()
      requires PageSettingsValid()
      modifies this
      ensures PageSettingsValid() && Paginated()
      ensures totalPages == TotalPages(|filteredProducts|, itemsPerPage)
      ensures currentPage == ClampPage(old(currentPage), totalPages)
      ensures Snapshot() == old(Snapshot()).(totalPages := totalPages,
        currentPage := currentPage, paginatedProducts := paginatedProducts)
    {
      totalPages := TotalPages(|filteredProducts|, itemsPerPage);
      if currentPage > totalPages {
        currentPage := if totalPages == 0 then 1 else totalPages;
      }
      paginatedProducts := PageSlice(filteredProducts, currentPage, itemsPerPage);
    }

    /**
     * `applyFilters`: searches a copy of the products, sorts it by the current
     * sort, and paginates the result from the current page.
     */
    method ApplyFilters()
      requires PageSettingsValid() && searchTerm == Lower(searchTerm)
      modifies this
      ensures Valid()
      ensures multiset(filteredProducts) == multiset(Searched(products, searchTerm))
      ensures Sorted(currentSort, filteredProducts)
      ensures currentSort == NoSort ==> filteredProducts == Searched(products, searchTerm)
      ensures currentPage == ClampPage(old(currentPage), totalPages)
      ensures products == old(products) && searchTerm == old(searchTerm)
      ensures currentSort == old(currentSort) && itemsPerPage == old(itemsPerPage)
      ensures loading == old(loading)
      ensures Snapshot() == old(Snapshot()).(filteredProducts := filteredProducts,
        paginatedProducts := paginatedProducts, currentPage := currentPage,
        totalPages := totalPages)
    {
      var result := Searched(products, searchTerm);
      if currentSort != NoSort {
        var a := new Product[|result|](i requires 0 <= i < |result| => result[i]);
        assert a[..] == result;
        SortInPlace(a, currentSort);
        result := a[..];
      }
      filteredProducts := result;
      UpdatePagination();
    }

    /** `loadProducts` issues its request. */
    method LoadProducts()
      requires Valid()
      modifies this
      ensures Valid()
      ensures Snapshot() == old(Snapshot()).(loading := true)
    {
      loading := true;
    }

    /** The product request answered: the list is replaced and re-filtered. */
    method OnProductsLoaded(loaded: seq<Product>)
      requires Valid()
      modifies this
      ensures Valid()
      ensures products == loaded && !loading
      ensures currentPage == ClampPage(old(currentPage), totalPages)
      ensures Snapshot() == old(Snapshot()).(products := loaded, loading := false,
        filteredProducts := filteredProducts, paginatedProducts := paginatedProducts,
        currentPage := currentPage, totalPages := totalPages)
    {
      products := loaded;
      ApplyFilters();
      loading := false;
    }

    /** The product request failed; the list stays as it was. */
    method OnProductsFailed()
      requires Valid()
      modifies this
      ensures Valid()
      ensures Snapshot() == old(Snapshot()).(loading := false)
    {
      loading := false;
    }

    /** `onSearch`: the lower-cased input becomes the term, back to page 1. */
    method OnSearch(input: string)
      requires Valid()
      modifies this
      ensures Valid()
      ensures searchTerm == Lower(input) && currentPage == 1
      ensures Snapshot() == old(Snapshot()).(searchTerm := Lower(input),
        filteredProducts := filteredProducts, paginatedProducts := paginatedProducts,
        currentPage := 1, totalPages := totalPages)
    {
      var term := Lower(input);
      LowerIdempotent(input);
      searchTerm := term;
      currentPage := 1;
      ApplyFilters();
    }

    /** `clearSearch`: no term, back to page 1. */
    method ClearSearch()
      requires Valid()
      modifies this
      ensures Valid()
      ensures searchTerm == "" && currentPage == 1
      ensures multiset(filteredProducts) == multiset(products)
      ensures Snapshot() == old(Snapshot()).(searchTerm := "",
        filteredProducts := filteredProducts, paginatedProducts := paginatedProducts,
        currentPage := 1, totalPages := totalPages)
    {
      searchTerm := "";
      currentPage := 1;
      ApplyFilters();
    }

    /** `applySorting`: the new sort order, back to page 1. */
    method ApplySorting(sort: SortOption)
      requires Valid()
      modifies this
      ensures Valid()
      ensures currentSort == sort && currentPage == 1
      ensures Snapshot() == old(Snapshot()).(currentSort := sort,
        filteredProducts := filteredProducts, paginatedProducts := paginatedProducts,
        currentPage := 1, totalPages := totalPages)
    {
      currentSort := sort;
      currentPage := 1;
      ApplyFilters();
    }

    /** `clearFilters`: no term and no sort, so the filtered list is the product list as loaded. */
    method ClearFilters()
      requires Valid()
      modifies this
      ensures Valid()
      ensures filteredProducts == products && currentPage == 1
      ensures Snapshot() == old(Snapshot()).(searchTerm := "", currentSort := NoSort,
        filteredProducts := products, paginatedProducts := paginatedProducts,
        currentPage := 1, totalPages := totalPages)
    {
      searchTerm := "";
      currentSort := NoSort;
      currentPage := 1;
      ApplyFilters();
    }

    /** `goToPage`: moves to `page` when it is a page of the list; otherwise nothing changes. */
    method GoToPage(page: int)
      requires Valid()
      modifies this
      ensures Valid()
      ensures 1 <= page <= old(totalPages) ==>
        Snapshot() == old(Snapshot()).(currentPage := page,
          paginatedProducts := PageSlice(filteredProducts, page, itemsPerPage))
      ensures !(1 <= page <= old(totalPages)) ==> Snapshot() == old(Snapshot())
    {
      if page >= 1 && page <= totalPages {
        currentPage := page;
        UpdatePagination();
      }
    }

    /** `onItemsPerPageChange`: the new page size, back to page 1. */
    method OnItemsPerPageChange(perPage: int)
      requires Valid() && perPage > 0
      modifies this
      ensures Valid()
      ensures itemsPerPage == perPage && currentPage == 1
      ensures Snapshot() == old(Snapshot()).(itemsPerPage := perPage, currentPage := 1,
        totalPages := TotalPages(|filteredProducts|, perPage),
        paginatedProducts := PageSlice(filteredProducts, 1, perPage))
    {
      itemsPerPage := perPage;
      currentPage := 1;
      UpdatePagination();
    }

    /**
     * `getPageNumbers`: the window of page links, at most five consecutive
     * pages of the list, starting two before the current page where the
     * ends allow, and holding the current page whenever it is a page.
     */
    method GetPageNumbers() returns (pages: seq<int>)
      ensures |pages| == Min(5, totalPages)
      ensures forall k :: 0 <= k < |pages| ==> pages[k] == WindowStart(currentPage, totalPages) + k
      ensures forall k :: 0 <= k < |pages| ==> 1 <= pages[k] <= totalPages
      ensures 1 <= currentPage <= totalPages ==> currentPage in pages
    {
      var startPage := Max(1, currentPage - 2);
      var endPage := Min(totalPages, startPage + 4);
      if endPage - startPage < 4 {
        startPage := Max(1, endPage - 4);
      }
      pages := [];
      var i := startPage;
      while i <= endPage
        invariant startPage <= i <= Max(endPage + 1, startPage)
        invariant |pages| == i - startPage
        invariant forall k :: 0 <= k < |pages| ==> pages[k] == startPage + k
      {
        pages := pages + [i];
        i := i + 1;
      }
      if 1 <= currentPage <= totalPages {
        assert pages[currentPage - startPage] == currentPage;
      }
    }
  }

  /**
   * A client of the component: five products at two per page make three
   * pages; the third shows the last product, the page links are 1, 2 and 3,
   * and a fourth page is refused.
   */
  method ThreePages()
  {
    var all := seq(5, i => Product(Some(i), Some("item"), None, Some(i), None));
    var list := new ListComponent();
    list.OnProductsLoaded(all);
    assert list.filteredProducts == all;
    list.OnItemsPerPageChange(2);
    assert list.totalPages == 3;
    list.GoToPage(3);
    assert list.paginatedProducts == all[4..];
    var links := list.GetPageNumbers();
    assert links == [1, 2, 3];
    list.GoToPage(4);
    assert list.currentPage == 3;
  }
}
