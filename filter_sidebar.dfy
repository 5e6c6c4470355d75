/** The catalogue's filter panel (frontend/src/components/Products/FilterSidebar.tsx:6-107):
    local filter state initialised from the URL, written back to the URL's
    query by `applyFilters`, and reset by `resetFilters`. The router's
    search params are a field that `setSearchParams` replaces. */
module FilterSidebar {
  import opened Common
  import opened QueryParams

  /** The names `applyFilters` writes. */
  const FilterKeys: set<string> := {"category", "price_min", "price_max", "in_stock", "sort_by", "search"}

  /** `params.set(k, v)` when `v` is non-empty, otherwise `params.delete(k)`. */
  function SetOrDelete(p: Params, k: string, v: string): (r: Params)
    ensures Values(r, k) == (if v != "" then [v] else [])
    ensures k in FilterKeys ==> Without(r, FilterKeys) == Without(p, FilterKeys)
  {
    if v != "" then
      var r := Set(p, k, v);
      if k in FilterKeys then WithoutAfterSet(p, k, v, FilterKeys); r else r
    else
      var r := Delete(p, k);
      if k in FilterKeys then WithoutAfterDelete(p, k, FilterKeys); r else r
  }

  /** The values of any name after `SetOrDelete`: the new value alone
      under `k`, and those of every other name left alone. */
  lemma SetOrDeleteValues(p: Params, k: string, v: string, k': string)
    ensures Values(SetOrDelete(p, k, v), k') ==
              if k' == k then (if v != "" then [v] else []) else Values(p, k')
  {
    if v != "" {
      var r := Set(p, k, v);
    } else {
      var r := Delete(p, k);
    }
  }

  /** Five `SetOrDelete` steps in a row: a name gets the value of the last
      step that names it, and keeps its values when no step does. */
  lemma FiveSteps(p: Params, k1: string, v1: string, k2: string, v2: string, k3: string, v3: string,
                  k4: string, v4: string, k5: string, v5: string, k: string)
    ensures Values(SetOrDelete(SetOrDelete(SetOrDelete(SetOrDelete(SetOrDelete(p, k1, v1), k2, v2), k3, v3), k4, v4), k5, v5), k)
            == if k == k5 then (if v5 != "" then [v5] else [])
               else if k == k4 then (if v4 != "" then [v4] else [])
               else if k == k3 then (if v3 != "" then [v3] else [])
               else if k == k2 then (if v2 != "" then [v2] else [])
               else if k == k1 then (if v1 != "" then [v1] else [])
               else Values(p, k)
  {
    var p1 := SetOrDelete(p, k1, v1);
    var p2 := SetOrDelete(p1, k2, v2);
    var p3 := SetOrDelete(p2, k3, v3);
    var p4 := SetOrDelete(p3, k4, v4);
    SetOrDeleteValues(p, k1, v1, k);
    SetOrDeleteValues(p1, k2, v2, k);
    SetOrDeleteValues(p2, k3, v3, k);
    SetOrDeleteValues(p3, k4, v4, k);
    SetOrDeleteValues(p4, k5, v5, k);
  }

  /** The URL `applyFilters` produces from the URL `p` and the panel's
      inputs: the five filters set or deleted in turn, then the search term
      written back when it is non-empty. */
  function Applied(p: Params, category: string, priceMin: string, priceMax: string,
                   inStock: bool, sortBy: string): Params
  {
    var p1 := SetOrDelete(p, "category", category);
    var p2 := SetOrDelete(p1, "price_min", priceMin);
    var p3 := SetOrDelete(p2, "price_max", priceMax);
    var p4 := SetOrDelete(p3, "in_stock", if inStock then "true" else "");
    var p5 := SetOrDelete(p4, "sort_by", sortBy);
    var search := Get(p, "search");
    if TruthyOpt(search) then Set(p5, "search", search.value) else p5
  }

  /** Each filter is present, once, exactly when its input is non-empty
      (the in-stock box: exactly when it is checked, with "true"). */
  lemma AppliedFilters(p: Params, category: string, priceMin: string, priceMax: string,
                       inStock: bool, sortBy: string)
    ensures var r := Applied(p, category, priceMin, priceMax, inStock, sortBy);
      && Values(r, "category") == (if category != "" then [category] else [])
      && Values(r, "price_min") == (if priceMin != "" then [priceMin] else [])
      && Values(r, "price_max") == (if priceMax != "" then [priceMax] else [])
      && Values(r, "in_stock") == (if inStock then ["true"] else [])
      && Values(r, "sort_by") == (if sortBy != "" then [sortBy] else [])
  {
    var stock := if inStock then "true" else "";
    FiveSteps(p, "category", category, "price_min", priceMin, "price_max", priceMax, "in_stock", stock, "sort_by", sortBy, "category");
    FiveSteps(p, "category", category, "price_min", priceMin, "price_max", priceMax, "in_stock", stock, "sort_by", sortBy, "price_min");
    FiveSteps(p, "category", category, "price_min", priceMin, "price_max", priceMax, "in_stock", stock, "sort_by", sortBy, "price_max");
    FiveSteps(p, "category", category, "price_min", priceMin, "price_max", priceMax, "in_stock", stock, "sort_by", sortBy, "in_stock");
    FiveSteps(p, "category", category, "price_min", priceMin, "price_max", priceMax, "in_stock", stock, "sort_by", sortBy, "sort_by");
  }

  /** The search term keeps its first value, alone, when that is non-empty;
      otherwise its pairs are left as they were. */
  lemma AppliedSearch(p: Params, category: string, priceMin: string, priceMax: string,
                      inStock: bool, sortBy: string)
    ensures var r := Applied(p, category, priceMin, priceMax, inStock, sortBy);
      Values(r, "search") == if TruthyOpt(Get(p, "search")) then [Get(p, "search").value] else Values(p, "search")
  {
    var stock := if inStock then "true" else "";
    FiveSteps(p, "category", category, "price_min", priceMin, "price_max", priceMax, "in_stock", stock, "sort_by", sortBy, "search");
  }

  /** Every pair whose name is not a filter stays, in its order. */
  lemma AppliedKeepsOtherPairs(p: Params, category: string, priceMin: string, priceMax: string,
                               inStock: bool, sortBy: string)
    ensures Without(Applied(p, category, priceMin, priceMax, inStock, sortBy), FilterKeys) == Without(p, FilterKeys)
    ensures forall k :: k !in FilterKeys ==>
              Values(Applied(p, category, priceMin, priceMax, inStock, sortBy), k) == Values(p, k)
  {
    var p1 := SetOrDelete(p, "category", category);
    var p2 := SetOrDelete(p1, "price_min", priceMin);
    var p3 := SetOrDelete(p2, "price_max", priceMax);
    var p4 := SetOrDelete(p3, "in_stock", if inStock then "true" else "");
    var p5 := SetOrDelete(p4, "sort_by", sortBy);
    var search := Get(p, "search");
    if TruthyOpt(search) {
      WithoutAfterSet(p5, "search", search.value, FilterKeys);
    }
    var r := Applied(p, category, priceMin, priceMax, inStock, sortBy);
    forall k | k !in FilterKeys ensures Values(r, k) == Values(p, k) {
      ValuesWithout(r, FilterKeys);
      ValuesWithout(p, FilterKeys);
      assert Values(Without(r, FilterKeys), k) == Values(r, k);
      assert Values(Without(p, FilterKeys), k) == Values(p, k);
    }
  }

  /** The body of `applyFilters` on a copy of the URL's params: the same
      set/delete calls in the same order, then the search term. */
  method ApplyTo(url: Params, category: string, priceMin: string, priceMax: string,
                 inStock: bool, sortBy: string) returns (params: Params)
    ensures params == Applied(url, category, priceMin, priceMax, inStock, sortBy)
  {
    params := url;
    params := SetOrDelete(params, "category", category);
    params := SetOrDelete(params, "price_min", priceMin);
    params := SetOrDelete(params, "price_max", priceMax);
    params := SetOrDelete(params, "in_stock", if inStock then "true" else "");
    params := SetOrDelete(params, "sort_by", sortBy);
    var searchQuery := Get(url, "search");
    if TruthyOpt(searchQuery) {
      params := Set(params, "search", searchQuery.value);
    }
  }

  class FilterPanel {
    var searchParams: Params
    var priceMin: string
    var priceMax: string
    var selectedCategory: string
    var inStock: bool
    var sortBy: string

    /** The initial state read from the URL. */
    constructor (url: Params)
      ensures searchParams == url
      ensures priceMin == OrEmpty(Get(url, "price_min")) && priceMax == OrEmpty(Get(url, "price_max"))
      ensures selectedCategory == OrEmpty(Get(url, "category"))
      ensures inStock <==> Get(url, "in_stock") == Some("true")
      ensures sortBy == if TruthyOpt(Get(url, "sort_by")) then Get(url, "sort_by").value else "name"
    {
      searchParams := url;
      priceMin := OrEmpty(Get(url, "price_min"));
      priceMax := OrEmpty(Get(url, "price_max"));
      selectedCategory := OrEmpty(Get(url, "category"));
      inStock := Get(url, "in_stock") == Some("true");
      var sort := Get(url, "sort_by");
      sortBy := if TruthyOpt(sort) then sort.value else "name";
    }

    /** `handleCategoryChange`. */
    method HandleCategoryChange(categorySlug: string)
      modifies this
      ensures selectedCategory == categorySlug
      ensures searchParams == old(searchParams) && priceMin == old(priceMin) && priceMax == old(priceMax)
      ensures inStock == old(inStock) && sortBy == old(sortBy)
    {
      selectedCategory := categorySlug;
    }

    /** `handlePriceChange` for the input named `name`: "min" and "max"
        update their bound; any other name only adds a property the panel
        never reads. */
    method HandlePriceChange(name: string, value: string)
      modifies this
      ensures priceMin == if name == "min" then value else old(priceMin)
      ensures priceMax == if name == "max" then value else old(priceMax)
      ensures searchParams == old(searchParams) && selectedCategory == old(selectedCategory)
      ensures inStock == old(inStock) && sortBy == old(sortBy)
    {
      if name == "min" {
        priceMin := value;
      } else if name == "max" {
        priceMax := value;
      }
    }

    /** `handleInStockChange`. */
    method HandleInStockChange(checked: bool)
      modifies this
      ensures inStock == checked
      ensures searchParams == old(searchParams) && selectedCategory == old(selectedCategory)
      ensures priceMin == old(priceMin) && priceMax == old(priceMax) && sortBy == old(sortBy)
    {
      inStock := checked;
    }

    /** `handleSortChange`. */
    method HandleSortChange(value: string)
      modifies this
      ensures sortBy == value
      ensures searchParams == old(searchParams) && selectedCategory == old(selectedCategory)
      ensures priceMin == old(priceMin) && priceMax == old(priceMax) && inStock == old(inStock)
    {
      sortBy := value;
    }

    /** `applyFilters`: the URL becomes `Applied` of the URL and the
        inputs, built by the same set/delete calls in the same order. */
    method ApplyFilters()
      modifies this
      ensures searchParams == Applied(old(searchParams), old(selectedCategory), old(priceMin), old(priceMax),
                                      old(inStock), old(sortBy))
      ensures selectedCategory == old(selectedCategory) && priceMin == old(priceMin) && priceMax == old(priceMax)
      ensures inStock == old(inStock) && sortBy == old(sortBy)
    {
      var url := searchParams;
      var params := ApplyTo(url, selectedCategory, priceMin, priceMax, inStock, sortBy);
      searchParams := params;
    }

    /** `resetFilters`: the local defaults, and a URL holding only the
        search term when there is one. */
    method ResetFilters()
      modifies this
      ensures searchParams ==
                if TruthyOpt(Get(old(searchParams), "search")) then [("search", Get(old(searchParams), "search").value)]
                else []
      ensures selectedCategory == "" && priceMin == "" && priceMax == "" && !inStock && sortBy == "name"
    {
      selectedCategory := "";
      priceMin := "";
      priceMax := "";
      inStock := false;
      sortBy := "name";
      var params: Params := [];
      var searchQuery := Get(searchParams, "search");
      if TruthyOpt(searchQuery) {
        params := Set(params, "search", searchQuery.value);
      }
      searchParams := params;
    }
  }

  /** Applying the same filters twice gives the same URL as applying them
      once. */
  lemma SetOrDeleteIdempotent(p: Params, k: string, v: string)
    ensures SetOrDelete(SetOrDelete(p, k, v), k, v) == SetOrDelete(p, k, v)
  {
    var once := SetOrDelete(p, k, v);
    if v != "" {
      SetTwice(p, k, v);
    } else {
      WithoutTwice(p, {k}, {k});
      assert {k} + {k} == {k};
    }
  }

  /** Setting a name twice to the same value is setting it once. */
  lemma {:induction false} SetTwice(p: Params, k: string, v: string)
    ensures Set(Set(p, k, v), k, v) == Set(p, k, v)
    decreases |p|
  {
    if p != [] && p[0].0 != k {
      SetTwice(p[1..], k, v);
      assert ([p[0]] + Set(p[1..], k, v))[1..] == Set(p[1..], k, v);
    } else if p != [] {
      var r := Set(p, k, v);
      var rest := r[1..];
      assert r[0] == (k, v);
      assert Without(rest, {k}) == rest by {
        WithoutNone(rest, {k});
      }
    }
  }

  /** Filtering out names that do not occur changes nothing. */
  lemma {:induction false} WithoutNone(p: Params, ks: set<string>)
    requires forall i :: 0 <= i < |p| ==> p[i].0 !in ks
    ensures Without(p, ks) == p
    decreases |p|
  {
    if p != [] {
      WithoutNone(p[1..], ks);
    }
  }
}
