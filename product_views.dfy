/** The catalogue listing on the backend (backend/products/views.py:32-77):
    the active products narrowed by the query's filters, then ordered by
    the requested key, and the featured list cut from it. Each queryset
    step is a function on the product sequence. Django reads each query
    parameter's last value. Decimal parsing of the price bounds is a
    parameter (text to cents, None when the text is not a number). */
module ProductViews {
  import opened Common
  import opened QueryParams
  import opened Products

  // ------------------------------------------------------------ text matching

  /** `t` occurs in `s` starting at position `i`. */
  predicate OccursAt(t: string, s: string, i: int)
  {
    0 <= i && i + |t| <= |s| && s[i..i + |t|] == t
  }

  /** `t` occurs in `s` at some position. */
  ghost predicate Occurs(t: string, s: string)
  {
    exists i :: OccursAt(t, s, i)
  }

  /** The search by position, left to right. */
  function OccursFrom(t: string, s: string, from: nat): (r: bool)
    ensures r <==> exists i :: from <= i && OccursAt(t, s, i)
    decreases |s| + 1 - from
  {
    if from + |t| > |s| then false
    else if s[from..from + |t|] == t then
      assert OccursAt(t, s, from);
      true
    else
      var r := OccursFrom(t, s, from + 1);
      assert !OccursAt(t, s, from);
      r
  }

  /** `icontains`: `t` occurs in `s` once both are lower-cased. */
  function IContains(s: string, t: string): (r: bool)
    ensures r <==> Occurs(Lower(t), Lower(s))
  {
    OccursFrom(Lower(t), Lower(s), 0)
  }

  /** The empty term occurs everywhere, and a term longer than the text
      nowhere. */
  lemma OccursBounds(t: string, s: string)
    ensures t == "" ==> Occurs(t, s)
    ensures |t| > |s| ==> !Occurs(t, s)
  {
    if t == "" {
      assert OccursAt(t, s, 0);
    }
  }

  // ----------------------------------------------------------------- filters

  /** The filters the request asks for. A bound is present exactly when its
      parameter is non-empty. */
  datatype Criteria = Criteria(
    category: Option<string>, priceMin: Option<int>, priceMax: Option<int>,
    inStockOnly: bool, search: Option<string>)

  /** A price bound's parameter: absent or empty means no bound; text that
      is not a number makes the request fail. */
  datatype Bound = NoBound | AtPrice(cents: int) | BadNumber

  function ReadBound(text: Option<string>, parseDecimal: string -> Option<int>): (b: Bound)
    ensures b == NoBound <==> !TruthyOpt(text)
    ensures b.AtPrice? ==> parseDecimal(text.value) == Some(b.cents)
    ensures b.AtPrice? <==> TruthyOpt(text) && parseDecimal(text.value).Some?
    ensures b == BadNumber <==> TruthyOpt(text) && parseDecimal(text.value).None?
  {
    if !TruthyOpt(text) then NoBound
    else match parseDecimal(text.value)
      case Some(c) => AtPrice(c)
      case None => BadNumber
  }

  /** The criteria read from the query, or None when a price bound is not
      a number. */
  function ReadCriteria(params: Params, parseDecimal: string -> Option<int>): (c: Option<Criteria>)
    ensures c.Some? ==> (c.value.category.Some? <==> TruthyOpt(GetLast(params, "category")))
    ensures c.Some? ==> (c.value.inStockOnly <==>
                           TruthyOpt(GetLast(params, "in_stock")) && Lower(GetLast(params, "in_stock").value) == "true")
    ensures c.None? <==> ReadBound(GetLast(params, "price_min"), parseDecimal) == BadNumber
                         || ReadBound(GetLast(params, "price_max"), parseDecimal) == BadNumber
    ensures c.Some? ==> c.value.category.Some? ==> c.value.category == GetLast(params, "category")
    ensures c.Some? ==> c.value.search == (if TruthyOpt(GetLast(params, "search")) then GetLast(params, "search") else None)
    ensures c.Some? ==> var lo := ReadBound(GetLast(params, "price_min"), parseDecimal);
              c.value.priceMin == if lo.AtPrice? then Some(lo.cents) else None
    ensures c.Some? ==> var hi := ReadBound(GetLast(params, "price_max"), parseDecimal);
              c.value.priceMax == if hi.AtPrice? then Some(hi.cents) else None
  {
    var category := GetLast(params, "category");
    var lo := ReadBound(GetLast(params, "price_min"), parseDecimal);
    var hi := ReadBound(GetLast(params, "price_max"), parseDecimal);
    var inStock := GetLast(params, "in_stock");
    var search := GetLast(params, "search");
    if lo == BadNumber || hi == BadNumber then None
    else Some(Criteria(
      if TruthyOpt(category) then category else None,
      if lo.AtPrice? then Some(lo.cents) else None,
      if hi.AtPrice? then Some(hi.cents) else None,
      TruthyOpt(inStock) && Lower(inStock.value) == "true",
      if TruthyOpt(search) then search else None))
  }

  /** One product passes every requested filter: the category slug is
      equal, the price lies within the inclusive bounds, the stock flag is
      set when asked for, and the term occurs, ignoring case, in the name,
      the description or the category name. */
  predicate Matches(p: Product, c: Criteria)
  {
    && (c.category.Some? ==> p.category.slug == c.category.value)
    && (c.priceMin.Some? ==> p.price >= c.priceMin.value)
    && (c.priceMax.Some? ==> p.price <= c.priceMax.value)
    && (c.inStockOnly ==> p.inStock)
    && (c.search.Some? ==>
          IContains(p.name, c.search.value) || IContains(p.description, c.search.value)
          || IContains(p.category.name, c.search.value))
  }

  /** The active products that pass the filters, in their stored order. */
  function Select(products: seq<Product>, c: Criteria): (r: seq<Product>)
    ensures |r| <= |products|
    ensures forall p :: p in r <==> p in products && p.isActive && Matches(p, c)
    ensures multiset(r) <= multiset(products)
  {
    if products == [] then []
    else
      var rest := Select(products[1..], c);
      assert products == [products[0]] + products[1..];
      if products[0].isActive && Matches(products[0], c) then [products[0]] + rest else rest
  }

  /** With no filter requested, the listing holds every active product. */
  lemma NoFiltersKeepsActive(products: seq<Product>, p: Product)
    requires p in products && p.isActive
    ensures p in Select(products, Criteria(None, None, None, false, None))
  {
  }

  // ----------------------------------------------------------------- ordering

  datatype SortOrder = PriceAsc | PriceDesc | Newest | ByName

  /** `sort_by`, defaulting to the name when absent or unknown. */
  function OrderOf(sortBy: Option<string>): (o: SortOrder)
    ensures o == PriceAsc <==> sortBy == Some("price_asc")
    ensures o == PriceDesc <==> sortBy == Some("price_desc")
    ensures o == Newest <==> sortBy == Some("newest")
  {
    var key := if sortBy.Some? then sortBy.value else "name";
    if key == "price_asc" then PriceAsc
    else if key == "price_desc" then PriceDesc
    else if key == "newest" then Newest
    else ByName
  }

  /** Strings ordered character by character, a prefix first. */
  predicate StrLe(a: string, b: string)
    decreases |a|
  {
    if a == [] then true
    else if b == [] then false
    else if a[0] != b[0] then a[0] < b[0]
    else StrLe(a[1..], b[1..])
  }

  lemma {:induction false} StrLeTotal(a: string, b: string)
    ensures StrLe(a, b) || StrLe(b, a)
    decreases |a|
  {
    if a != [] && b != [] && a[0] == b[0] {
      StrLeTotal(a[1..], b[1..]);
    }
  }

  lemma {:induction false} StrLeTrans(a: string, b: string, c: string)
    requires StrLe(a, b) && StrLe(b, c)
    ensures StrLe(a, c)
    decreases |a|
  {
    if a != [] && b != [] && c != [] && a[0] == b[0] && b[0] == c[0] {
      StrLeTrans(a[1..], b[1..], c[1..]);
    }
  }

  /** `p` may come before `q` under the order. */
  predicate Before(o: SortOrder, p: Product, q: Product)
  {
    match o
    case PriceAsc => p.price <= q.price
    case PriceDesc => p.price >= q.price
    case Newest => p.createdAt >= q.createdAt
    case ByName => StrLe(p.name, q.name)
  }

  lemma BeforeTotal(o: SortOrder, p: Product, q: Product)
    ensures Before(o, p, q) || Before(o, q, p)
  {
    if o == ByName {
      StrLeTotal(p.name, q.name);
    }
  }

  lemma BeforeTrans(o: SortOrder, p: Product, q: Product, r: Product)
    requires Before(o, p, q) && Before(o, q, r)
    ensures Before(o, p, r)
  {
    if o == ByName {
      StrLeTrans(p.name, q.name, r.name);
    }
  }

  predicate SortedBy(o: SortOrder, s: seq<Product>)
  {
    forall i, j :: 0 <= i < j < |s| ==> Before(o, s[i], s[j])
  }

  /** `p` placed before the first element it may precede. */
  function Insert(o: SortOrder, p: Product, s: seq<Product>): (r: seq<Product>)
    requires SortedBy(o, s)
    ensures multiset(r) == multiset(s) + multiset{p}
    ensures SortedBy(o, r)
  {
    if s == [] then [p]
    else if Before(o, p, s[0]) then
      InsertFront(o, p, s);
      [p] + s
    else
      var rest := Insert(o, p, s[1..]);
      BeforeTotal(o, p, s[0]);
      InsertBehind(o, s[0], s[1..], p, rest);
      assert s == [s[0]] + s[1..];
      [s[0]] + rest
  }

  lemma InsertFront(o: SortOrder, p: Product, s: seq<Product>)
    requires SortedBy(o, s) && s != [] && Before(o, p, s[0])
    ensures SortedBy(o, [p] + s)
  {
    var r := [p] + s;
    forall i, j | 0 <= i < j < |r| ensures Before(o, r[i], r[j]) {
      if i == 0 && j > 1 {
        BeforeTrans(o, p, s[0], s[j - 1]);
      }
    }
  }

  lemma InsertBehind(o: SortOrder, head: Product, tail: seq<Product>, p: Product, rest: seq<Product>)
    requires SortedBy(o, [head] + tail) && SortedBy(o, rest)
    requires Before(o, head, p)
    requires multiset(rest) == multiset(tail) + multiset{p}
    ensures SortedBy(o, [head] + rest)
  {
    var r := [head] + rest;
    var whole := [head] + tail;
    forall j | 0 < j < |r| ensures Before(o, head, r[j]) {
      var q := rest[j - 1];
      assert r[j] == q;
      assert q in multiset(rest);
      if q != p {
        assert q in multiset(tail);
        var k :| 0 <= k < |tail| && tail[k] == q;
        assert whole[0] == head && whole[k + 1] == q;
      }
    }
  }

  /** `order_by`: a sorted rearrangement of the same products. */
  function Sort(o: SortOrder, s: seq<Product>): (r: seq<Product>)
    ensures multiset(r) == multiset(s)
    ensures SortedBy(o, r)
  {
    if s == [] then []
    else
      assert s == [s[0]] + s[1..];
      Insert(o, s[0], Sort(o, s[1..]))
  }

  // ---------------------------------------------------------------- endpoints

  /** `get_queryset`: the filtered products in the requested order, or
      None when a price bound is not a number. */
  function GetQueryset(products: seq<Product>, params: Params, parseDecimal: string -> Option<int>)
    : (r: Option<seq<Product>>)
    ensures r.None? <==> ReadCriteria(params, parseDecimal).None?
    ensures r.Some? ==> SortedBy(OrderOf(GetLast(params, "sort_by")), r.value)
    ensures r.Some? ==> forall p :: p in r.value <==>
              p in products && p.isActive && Matches(p, ReadCriteria(params, parseDecimal).value)
  {
    match ReadCriteria(params, parseDecimal)
    case None => None
    case Some(c) =>
      var selected := Select(products, c);
      var sorted := Sort(OrderOf(GetLast(params, "sort_by")), selected);
      assert forall p :: p in sorted <==> p in multiset(sorted);
      Some(sorted)
  }

  /** The listing holds the selected products with their multiplicities:
      sorting neither drops nor duplicates one. */
  lemma ListingIsSelectionReordered(products: seq<Product>, params: Params, parseDecimal: string -> Option<int>)
    requires GetQueryset(products, params, parseDecimal).Some?
    ensures multiset(GetQueryset(products, params, parseDecimal).value)
            == multiset(Select(products, ReadCriteria(params, parseDecimal).value))
  {
  }

  /** Every listing is a subset of the active products: a filter only ever
      removes products. */
  lemma ListingOnlyActive(products: seq<Product>, params: Params, parseDecimal: string -> Option<int>)
    requires GetQueryset(products, params, parseDecimal).Some?
    ensures var r := GetQueryset(products, params, parseDecimal).value;
      && |r| <= |products|
      && forall p :: p in r ==> p in products && p.isActive
  {
    var c := ReadCriteria(params, parseDecimal).value;
    var selected := Select(products, c);
    var r := Sort(OrderOf(GetLast(params, "sort_by")), selected);
    assert |r| == |multiset(r)| == |multiset(selected)| == |selected|;
  }

  /** The in-stock products of a sequence, in order. */
  function InStockOnly(s: seq<Product>): (r: seq<Product>)
    ensures |r| <= |s|
    ensures forall p :: p in r <==> p in s && p.inStock
  {
    if s == [] then []
    else (if s[0].inStock then [s[0]] else []) + InStockOnly(s[1..])
  }

  lemma {:induction false} InStockOnlyKeepsOrder(o: SortOrder, s: seq<Product>)
    requires SortedBy(o, s)
    ensures SortedBy(o, InStockOnly(s))
    decreases |s|
  {
    if s != [] {
      InStockOnlyKeepsOrder(o, s[1..]);
      var rest := InStockOnly(s[1..]);
      if s[0].inStock {
        var r := [s[0]] + rest;
        forall i, j | 0 <= i < j < |r| ensures Before(o, r[i], r[j]) {
          if i == 0 {
            assert r[j] in s[1..];
            var k :| 0 <= k < |s[1..]| && s[1..][k] == r[j];
            assert s[k + 1] == r[j];
          }
        }
      }
    }
  }

  /** `featured`: the first eight in-stock products of the listing. */
  function Featured(products: seq<Product>, params: Params, parseDecimal: string -> Option<int>)
    : (r: Option<seq<Product>>)
    ensures r.None? <==> GetQueryset(products, params, parseDecimal).None?
    ensures r.Some? ==> |r.value| <= 8
    ensures r.Some? ==> forall p :: p in r.value ==> p.inStock && p in GetQueryset(products, params, parseDecimal).value
  {
    match GetQueryset(products, params, parseDecimal)
    case None => None
    case Some(listing) =>
      var stocked := InStockOnly(listing);
      var n := if |stocked| < 8 then |stocked| else 8;
      assert forall p :: p in stocked[..n] ==> p in stocked;
      Some(stocked[..n])
  }

  /** The featured products keep the listing's order and are its first
      in-stock products: a shorter list only when fewer are in stock. */
  lemma FeaturedIsListingPrefix(products: seq<Product>, params: Params, parseDecimal: string -> Option<int>)
    requires GetQueryset(products, params, parseDecimal).Some?
    ensures var listing := GetQueryset(products, params, parseDecimal).value;
      var featured := Featured(products, params, parseDecimal).value;
      && SortedBy(OrderOf(GetLast(params, "sort_by")), featured)
      && featured == InStockOnly(listing)[..|featured|]
      && (|featured| < 8 ==> featured == InStockOnly(listing))
  {
    var listing := GetQueryset(products, params, parseDecimal).value;
    InStockOnlyKeepsOrder(OrderOf(GetLast(params, "sort_by")), listing);
  }
}
