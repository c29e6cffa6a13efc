/** The product listing page (src/pages/Products.jsx): the filtered and
    sorted view of the catalog, its 1-based pages, the compact list of page
    buttons, and the `currentPage` state that the page buttons and the
    filter controls move. Fetching the catalog is not modelled: the page
    object is built from an already assembled product list. */
module Catalog {
  import opened Seqs
  import opened Text

  datatype Product = Product(
    id: int,
    name: string,
    description: string,
    price: real,
    category: string,
    brand: string,
    rating: real,
    stock: int,
    featured: bool,
    image: string)

  /** The values of the sort selector. */
  datatype SortKey = Featured | PriceLow | PriceHigh | Rating | Newest | Title

  /** The filter test: the category matches (`"all"` admits every one) and
      the lower-cased query occurs in the lower-cased name, description or,
      when the product has one, brand. */
  predicate Matches(p: Product, query: string, category: string)
  {
    var q := Lower(query);
    && (category == "all" || p.category == category)
    && (|| Contains(Lower(p.name), q)
        || Contains(Lower(p.description), q)
        || (p.brand != "" && Contains(Lower(p.brand), q)))
  }

  function MatchesBy(query: string, category: string): Product -> bool
  {
    p => Matches(p, query, category)
  }

  /** The comparator passed to `sort`; only its sign matters. For
      `Featured` it looks at the first argument only. */
  function Compare(key: SortKey, a: Product, b: Product): real
  {
    match key
    case PriceLow => a.price - b.price
    case PriceHigh => b.price - a.price
    case Rating => b.rating - a.rating
    case Newest => (b.id - a.id) as real
    case Title => if LexLess(a.name, b.name) then -1.0 else if a.name == b.name then 0.0 else 1.0
    case Featured => if a.featured then -1.0 else 1.0
  }

  /** `a` may be placed before `b`. */
  function BeforeBy(key: SortKey): (Product, Product) -> bool
  {
    (a, b) => Compare(key, a, b) <= 0.0
  }

  /** `filteredProducts`: the products that pass the filter, sorted by `key`.
      No product is invented or duplicated, and every product that passes
      the filter is present. */
  function View(products: seq<Product>, query: string, category: string, key: SortKey): (r: seq<Product>)
    ensures multiset(r) == multiset(Filter(products, MatchesBy(query, category)))
    ensures multiset(r) <= multiset(products)
    ensures forall p :: p in r <==> p in products && Matches(p, query, category)
    ensures category != "all" ==> forall p :: p in r ==> p.category == category
  {
    var kept := Filter(products, MatchesBy(query, category));
    var r := Sort(kept, BeforeBy(key));
    assert forall p :: p in r <==> p in kept by {
      forall p ensures p in r <==> p in kept {
        assert p in r <==> p in multiset(r);
        assert p in kept <==> p in multiset(kept);
      }
    }
    r
  }

  /** Matching ignores the letter case of the query. */
  lemma MatchesIgnoresQueryCase(p: Product, query: string, category: string)
    ensures Matches(p, Lower(query), category) == Matches(p, query, category)
  {
    LowerIdempotent(query);
  }

  /** With no query and category `"all"`, every product is listed. */
  lemma ViewKeepsAllWhenUnfiltered(products: seq<Product>, key: SortKey)
    ensures multiset(View(products, "", "all", key)) == multiset(products)
  {
    forall i | 0 <= i < |products| ensures MatchesBy("", "all")(products[i]) {
      assert Lower("") == "";
      ContainsEmpty(Lower(products[i].name));
    }
    FilterKeepsAll(products, MatchesBy("", "all"));
  }

  /** Every key except `Featured` gives a consistent comparator. */
  lemma BeforeTotalPreorder(key: SortKey, u: seq<Product>)
    requires key != Featured
    ensures TotalPreorderOn(u, BeforeBy(key))
  {
    if key == Title {
      forall a, b | a in u && b in u
        ensures BeforeBy(key)(a, b) || BeforeBy(key)(b, a)
      {
        if a.name != b.name {
          LexLessTotal(a.name, b.name);
        }
      }
      forall a, b, c | a in u && b in u && c in u && BeforeBy(key)(a, b) && BeforeBy(key)(b, c)
        ensures BeforeBy(key)(a, c)
      {
        if LexLess(a.name, b.name) && LexLess(b.name, c.name) {
          LexLessTransitive(a.name, b.name, c.name);
        }
      }
    }
  }

  /** The sort orders by the selected key: non-decreasing price for
      `PriceLow`, non-increasing price for `PriceHigh`, non-increasing
      rating for `Rating`, non-increasing id for `Newest`, and names in
      string order for `Title`. */
  lemma ViewOrdered(products: seq<Product>, query: string, category: string, key: SortKey)
    ensures var r := View(products, query, category, key);
      forall i, j :: 0 <= i < j < |r| ==>
        && (key == PriceLow ==> r[i].price <= r[j].price)
        && (key == PriceHigh ==> r[i].price >= r[j].price)
        && (key == Rating ==> r[i].rating >= r[j].rating)
        && (key == Newest ==> r[i].id >= r[j].id)
        && (key == Title ==> !LexLess(r[j].name, r[i].name))
  {
    var r := View(products, query, category, key);
    if key != Featured {
      ViewSorted(products, query, category, key);
      forall i, j | 0 <= i < j < |r|
        ensures && (key == PriceLow ==> r[i].price <= r[j].price)
                && (key == PriceHigh ==> r[i].price >= r[j].price)
                && (key == Rating ==> r[i].rating >= r[j].rating)
                && (key == Newest ==> r[i].id >= r[j].id)
                && (key == Title ==> !LexLess(r[j].name, r[i].name))
      {
        assert Compare(key, r[i], r[j]) <= 0.0 by {
          assert BeforeBy(key)(r[i], r[j]);
        }
        if key == Title && LexLess(r[j].name, r[i].name) {
          LexLessAsymmetric(r[j].name, r[i].name);
        }
      }
    }
  }

  /** For every key but `Featured`, the view is sorted by the comparator. */
  lemma ViewSorted(products: seq<Product>, query: string, category: string, key: SortKey)
    requires key != Featured
    ensures Sorted(View(products, query, category, key), BeforeBy(key))
  {
    var kept := Filter(products, MatchesBy(query, category));
    BeforeTotalPreorder(key, kept);
    SortSorted(kept, BeforeBy(key));
  }

  // ----- Pagination -----

  /** `Math.ceil(count / perPage)`. */
  function TotalPages(count: nat, perPage: nat): (t: nat)
    requires perPage > 0
  {
    (count + perPage - 1) / perPage
  }

  /** The page count is the least number of pages that holds every item. */
  lemma TotalPagesBounds(count: nat, perPage: nat)
    requires perPage > 0
    ensures count <= TotalPages(count, perPage) * perPage
    ensures TotalPages(count, perPage) > 0 ==> (TotalPages(count, perPage) - 1) * perPage < count
    ensures TotalPages(count, perPage) == 0 <==> count == 0
  {
    var t := TotalPages(count, perPage);
    var m := (count + perPage - 1) % perPage;
    assert count + perPage - 1 == t * perPage + m;
  }

  /** `items.slice((page - 1) * perPage, page * perPage)`, with the end
      positions clamped to the length as `slice` does. */
  function PageSlice<T>(items: seq<T>, page: int, perPage: nat): (r: seq<T>)
    requires page >= 1 && perPage > 0
    ensures |r| <= perPage
  {
    var last := page * perPage;
    var first := last - perPage;
    var hi := if last < |items| then last else |items|;
    var lo := if first < hi then first else hi;
    items[lo..hi]
  }

  /** Pages 1 to k, one after the other. */
  function PagesUpTo<T>(items: seq<T>, perPage: nat, k: nat): seq<T>
    requires perPage > 0
  {
    if k == 0 then [] else PagesUpTo(items, perPage, k - 1) + PageSlice(items, k, perPage)
  }

  lemma {:induction false} PagesUpToPrefix<T>(items: seq<T>, perPage: nat, k: nat)
    requires perPage > 0
    ensures PagesUpTo(items, perPage, k) == items[..if k * perPage < |items| then k * perPage else |items|]
  {
    if k > 0 {
      PagesUpToPrefix(items, perPage, k - 1);
      assert (k - 1) * perPage == k * perPage - perPage;
      var prev := if (k - 1) * perPage < |items| then (k - 1) * perPage else |items|;
      var next := if k * perPage < |items| then k * perPage else |items|;
      assert items[..next] == items[..prev] + items[prev..next];
    }
  }

  /** Concatenating pages 1 to `totalPages` gives back the whole list, each
      item exactly once and in order. */
  lemma PagesRebuildList<T>(items: seq<T>, perPage: nat)
    requires perPage > 0
    ensures PagesUpTo(items, perPage, TotalPages(|items|, perPage)) == items
  {
    TotalPagesBounds(|items|, perPage);
    PagesUpToPrefix(items, perPage, TotalPages(|items|, perPage));
  }

  /** A page within range is never empty. */
  lemma PageInRangeNonEmpty<T>(items: seq<T>, page: int, perPage: nat)
    requires perPage > 0 && 1 <= page <= TotalPages(|items|, perPage)
    ensures |PageSlice(items, page, perPage)| > 0
  {
    var t := TotalPages(|items|, perPage);
    TotalPagesBounds(|items|, perPage);
    assert (page - 1) * perPage <= (t - 1) * perPage;
  }

  // ----- Page buttons -----

  /** A page button: a page number, or the `'...'` placeholder. */
  datatype PageItem = PageNumber(n: int) | Ellipsis

  /** The page numbers lo, lo + 1, ..., hi. */
  function Run(lo: int, hi: int): (r: seq<PageItem>)
    ensures |r| == if hi >= lo then hi - lo + 1 else 0
    ensures forall i :: 0 <= i < |r| ==> r[i] == PageNumber(lo + i)
  {
    if hi < lo then [] else seq(hi - lo + 1, i => PageNumber(lo + i))
  }

  /** The compact list of page buttons for `current` of `total` pages. */
  function PageList(current: int, total: int): seq<PageItem>
  {
    if total <= 5 then Run(1, total)
    else if current <= 3 then Run(1, 4) + [Ellipsis, PageNumber(total)]
    else if current >= total - 2 then [PageNumber(1), Ellipsis] + Run(total - 3, total)
    else [PageNumber(1), Ellipsis, PageNumber(current - 1), PageNumber(current),
          PageNumber(current + 1), Ellipsis, PageNumber(total)]
  }

  /** `getPageNumbers`: pushes the page buttons one by one. */
  method GetPageNumbers(currentPage: int, totalPages: int) returns (pageNumbers: seq<PageItem>)
    ensures pageNumbers == PageList(currentPage, totalPages)
  {
    pageNumbers := [];
    var maxPagesToShow := 5;
    if totalPages <= maxPagesToShow {
      var i := 1;
      while i <= totalPages
        invariant 1 <= i <= (if totalPages >= 1 then totalPages + 1 else 1)
        invariant pageNumbers == Run(1, i - 1)
      {
        pageNumbers := pageNumbers + [PageNumber(i)];
        i := i + 1;
      }
    } else {
      if currentPage <= 3 {
        var i := 1;
        while i <= 4
          invariant 1 <= i <= 5
          invariant pageNumbers == Run(1, i - 1)
        {
          pageNumbers := pageNumbers + [PageNumber(i)];
          i := i + 1;
        }
        pageNumbers := pageNumbers + [Ellipsis];
        pageNumbers := pageNumbers + [PageNumber(totalPages)];
      } else if currentPage >= totalPages - 2 {
        pageNumbers := pageNumbers + [PageNumber(1)];
        pageNumbers := pageNumbers + [Ellipsis];
        var i := totalPages - 3;
        while i <= totalPages
          invariant totalPages - 3 <= i <= totalPages + 1
          invariant pageNumbers == [PageNumber(1), Ellipsis] + Run(totalPages - 3, i - 1)
        {
          pageNumbers := pageNumbers + [PageNumber(i)];
          i := i + 1;
        }
      } else {
        pageNumbers := pageNumbers + [PageNumber(1)];
        pageNumbers := pageNumbers + [Ellipsis];
        pageNumbers := pageNumbers + [PageNumber(currentPage - 1)];
        pageNumbers := pageNumbers + [PageNumber(currentPage)];
        pageNumbers := pageNumbers + [PageNumber(currentPage + 1)];
        pageNumbers := pageNumbers + [Ellipsis];
        pageNumbers := pageNumbers + [PageNumber(totalPages)];
      }
    }
  }

  /** Numbered entries strictly increase from left to right. */
  ghost predicate Increasing(r: seq<PageItem>)
  {
    forall i, j :: 0 <= i < j < |r| && r[i].PageNumber? && r[j].PageNumber? ==> r[i].n < r[j].n
  }

  /** Numbered entries are pages that exist. */
  ghost predicate WithinPages(r: seq<PageItem>, total: int)
  {
    forall i :: 0 <= i < |r| && r[i].PageNumber? ==> 1 <= r[i].n <= total
  }

  /** Neighbouring numbers are consecutive pages, and an ellipsis sits
      between two numbers and stands for at least one skipped page. */
  ghost predicate GapsMarked(r: seq<PageItem>)
  {
    && (|r| > 0 ==> r[0].PageNumber? && r[|r| - 1].PageNumber?)
    && (forall i :: 0 <= i < |r| - 1 && r[i].PageNumber? && r[i + 1].PageNumber? ==> r[i + 1].n == r[i].n + 1)
    && (forall i :: 0 < i < |r| - 1 && r[i].Ellipsis? ==>
          r[i - 1].PageNumber? && r[i + 1].PageNumber? && r[i + 1].n > r[i - 1].n + 1)
  }

  /** Up to five pages: every page is listed, in order. */
  lemma PageListFew(current: int, total: int)
    requires total <= 5
    ensures var r := PageList(current, total);
      |r| == (if total > 0 then total else 0) && forall i :: 0 <= i < |r| ==> r[i] == PageNumber(i + 1)
  {
  }

  /** More than five pages: six or seven buttons, from page 1 to the last
      page, and seven exactly when the current page is away from both ends. */
  lemma PageListCompact(current: int, total: int)
    requires total > 5
    ensures var r := PageList(current, total);
      && (|r| == 6 || |r| == 7)
      && r[0] == PageNumber(1) && r[|r| - 1] == PageNumber(total)
      && (|r| == 7 <==> 3 < current < total - 2)
  {
  }

  /** The page buttons are well formed: increasing, within the existing
      pages, and with ellipses exactly where pages are skipped. */
  lemma PageListWellFormed(current: int, total: int)
    requires 1 <= current <= total
    ensures var r := PageList(current, total);
      Increasing(r) && WithinPages(r, total) && GapsMarked(r)
  {
    if total <= 5 {
      RunWellFormed(1, total);
    } else if current <= 3 {
      HeadListWellFormed(current, total);
    } else if current >= total - 2 {
      TailListWellFormed(current, total);
    } else {
      ListWellFormed7(current, total);
    }
  }

  /** Near the first page: pages 1 to 4, an ellipsis, the last page. */
  lemma HeadListWellFormed(current: int, total: int)
    requires total > 5 && current <= 3
    ensures var r := PageList(current, total);
      Increasing(r) && WithinPages(r, total) && GapsMarked(r)
  {
    assert PageList(current, total) == [PageNumber(1), PageNumber(2), PageNumber(3), PageNumber(4), Ellipsis, PageNumber(total)];
    ListWellFormed6(1, 2, 3, 4, total, 4, total);
  }

  /** Near the last page: page 1, an ellipsis, the last four pages. */
  lemma TailListWellFormed(current: int, total: int)
    requires total > 5 && current > 3 && current >= total - 2
    ensures var r := PageList(current, total);
      Increasing(r) && WithinPages(r, total) && GapsMarked(r)
  {
    assert PageList(current, total) == [PageNumber(1), Ellipsis, PageNumber(total - 3), PageNumber(total - 2),
                                        PageNumber(total - 1), PageNumber(total)];
    ListWellFormed6(1, total - 3, total - 2, total - 1, total, 1, total);
  }

  lemma RunWellFormed(lo: int, hi: int)
    requires 1 <= lo
    ensures Increasing(Run(lo, hi)) && WithinPages(Run(lo, hi), hi) && GapsMarked(Run(lo, hi))
  {
  }

  /** Four consecutive pages and one more, with the ellipsis after `gapAfter`. */
  lemma ListWellFormed6(a: int, b: int, c: int, d: int, e: int, gapAfter: int, total: int)
    requires 1 <= a && e <= total
    requires (gapAfter == d && b == a + 1 && c == b + 1 && d == c + 1 && e > d + 1)
          || (gapAfter == a && c == b + 1 && d == c + 1 && e == d + 1 && b > a + 1)
    ensures var r := if gapAfter == d then [PageNumber(a), PageNumber(b), PageNumber(c), PageNumber(d), Ellipsis, PageNumber(e)]
                     else [PageNumber(a), Ellipsis, PageNumber(b), PageNumber(c), PageNumber(d), PageNumber(e)];
      Increasing(r) && WithinPages(r, total) && GapsMarked(r)
  {
  }

  lemma ListWellFormed7(current: int, total: int)
    requires 3 < current < total - 2
    ensures var r := PageList(current, total);
      Increasing(r) && WithinPages(r, total) && GapsMarked(r)
  {
    var r := PageList(current, total);
    assert |r| == 7;
  }

  /** The current page always has a button. */
  lemma PageListHasCurrent(current: int, total: int)
    requires 1 <= current <= total
    ensures PageNumber(current) in PageList(current, total)
  {
    var r := PageList(current, total);
    if total <= 5 {
      assert r[current - 1] == PageNumber(current);
    } else if current <= 3 {
      assert r[current - 1] == PageNumber(current);
    } else if current >= total - 2 {
      assert r[current - total + 5] == PageNumber(current);
    }
  }

  /** The three examples of the compact list: first, last and a middle page of ten. */
  lemma PageListExamples()
    ensures PageList(1, 10) == [PageNumber(1), PageNumber(2), PageNumber(3), PageNumber(4), Ellipsis, PageNumber(10)]
    ensures PageList(10, 10) == [PageNumber(1), Ellipsis, PageNumber(7), PageNumber(8), PageNumber(9), PageNumber(10)]
    ensures PageList(5, 10) == [PageNumber(1), Ellipsis, PageNumber(4), PageNumber(5), PageNumber(6), Ellipsis, PageNumber(10)]
  {
  }

  /** `handlePageChange`'s guard: the ellipsis and pages outside
      1..total are refused. */
  predicate AcceptsPage(item: PageItem, total: int)
  {
    !(item.Ellipsis? || item.n < 1 || item.n > total)
  }

  /** Clicking a numbered button always moves to that page; clicking an
      ellipsis never moves. */
  lemma PageButtonsNavigate(current: int, total: int)
    requires 1 <= current <= total
    ensures forall item :: item in PageList(current, total) ==>
      (AcceptsPage(item, total) <==> item.PageNumber?)
  {
    PageListWellFormed(current, total);
  }

  /** The listing page's state. */
  class CatalogPage {
    var products: seq<Product>
    var searchQuery: string
    var selectedCategory: string
    var sortBy: SortKey
    var currentPage: int
    var itemsPerPage: nat

    /** `currentPage` is a real page, or page 1 of an empty list. */
    ghost predicate Valid()
      reads this
    {
      itemsPerPage > 0 && 1 <= currentPage && (currentPage == 1 || currentPage <= PageCount())
    }

    function Filtered(): seq<Product>
      reads this
    {
      View(products, searchQuery, selectedCategory, sortBy)
    }

    /** `totalPages`. */
    function PageCount(): nat
      reads this
      requires itemsPerPage > 0
    {
      TotalPages(|Filtered()|, itemsPerPage)
    }

    /** `currentProducts`: at most a page of products, and never an empty
        page while some product passes the filter. */
    function CurrentProducts(): (r: seq<Product>)
      reads this
      requires Valid()
      ensures |r| <= itemsPerPage
      ensures |Filtered()| > 0 ==> |r| > 0
    {
      var s := Filtered();
      assert |s| > 0 ==> |PageSlice(s, currentPage, itemsPerPage)| > 0 by {
        if |s| > 0 {
          TotalPagesBounds(|s|, itemsPerPage);
          PageInRangeNonEmpty(s, currentPage, itemsPerPage);
        }
      }
      PageSlice(s, currentPage, itemsPerPage)
    }

    /** The initial state over an assembled catalog. */
    constructor(catalog: seq<Product>)
      ensures Valid()
      ensures products == catalog && searchQuery == "" && selectedCategory == "all"
      ensures sortBy == Featured && currentPage == 1 && itemsPerPage == 8
    {
      products := catalog;
      searchQuery := "";
      selectedCategory := "all";
      sortBy := Featured;
      currentPage := 1;
      itemsPerPage := 8;
    }

    /** Typing in the search box; a changed query sends the view back to page 1. */
    method SetSearchQuery(query: string)
      requires Valid()
      modifies this
      ensures Valid()
      ensures searchQuery == query
      ensures currentPage == if query != old(searchQuery) then 1 else old(currentPage)
      ensures products == old(products) && selectedCategory == old(selectedCategory)
      ensures sortBy == old(sortBy) && itemsPerPage == old(itemsPerPage)
    {
      if query != searchQuery {
        currentPage := 1;
      }
      searchQuery := query;
    }

    /** Picking a category; a changed category sends the view back to page 1. */
    method SetCategory(category: string)
      requires Valid()
      modifies this
      ensures Valid()
      ensures selectedCategory == category
      ensures currentPage == if category != old(selectedCategory) then 1 else old(currentPage)
      ensures products == old(products) && searchQuery == old(searchQuery)
      ensures sortBy == old(sortBy) && itemsPerPage == old(itemsPerPage)
    {
      if category != selectedCategory {
        currentPage := 1;
      }
      selectedCategory := category;
    }

    /** Picking a sort key; a changed key sends the view back to page 1. */
    method SetSortBy(key: SortKey)
      requires Valid()
      modifies this
      ensures Valid()
      ensures sortBy == key
      ensures currentPage == if key != old(sortBy) then 1 else old(currentPage)
      ensures products == old(products) && searchQuery == old(searchQuery)
      ensures selectedCategory == old(selectedCategory) && itemsPerPage == old(itemsPerPage)
    {
      if key != sortBy {
        currentPage := 1;
      }
      sortBy := key;
    }

    /** The "Clear Filters" button: empty query, every category. */
    method ClearFilters()
      requires Valid()
      modifies this
      ensures Valid()
      ensures searchQuery == "" && selectedCategory == "all"
      ensures currentPage == if old(searchQuery) != "" || old(selectedCategory) != "all" then 1 else old(currentPage)
      ensures products == old(products) && sortBy == old(sortBy) && itemsPerPage == old(itemsPerPage)
    {
      SetSearchQuery("");
      SetCategory("all");
    }

    /** The items-per-page selector always goes back to page 1. */
    method SetItemsPerPage(perPage: nat)
      requires Valid() && perPage > 0
      modifies this
      ensures Valid()
      ensures itemsPerPage == perPage && currentPage == 1
      ensures products == old(products) && searchQuery == old(searchQuery)
      ensures selectedCategory == old(selectedCategory) && sortBy == old(sortBy)
    {
      itemsPerPage := perPage;
      currentPage := 1;
    }

    /** `handlePageChange`: moves to a page that exists; otherwise nothing changes. */
    method HandlePageChange(item: PageItem)
      requires Valid()
      modifies this`currentPage
      ensures Valid()
      ensures currentPage == if AcceptsPage(item, PageCount()) then item.n else old(currentPage)
    {
      if item.Ellipsis? || item.n < 1 || item.n > PageCount() {
        return;
      }
      currentPage := item.n;
    }
  }
}
