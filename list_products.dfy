/**
 * The catalogue's product list: products are loaded once, their image names turned
 * into full URLs, and the list shows the products that pass the search box and the
 * filter panel's category, subcategory, price range and on-sale filters.
 */
module ListProducts {
  import opened Common
  import opened Text

  const BaseImageUrl := "http://localhost:8080/uploads/"

  /** The inclusive price bounds `[min, max]` of the filter panel's two sliders. */
  datatype PriceRange = PriceRange(lo: int, hi: int)
  {
    /** `newPriceRange[index] = value` on a copy. */
    function With(index: int, value: int): (r: PriceRange)
      requires index == 0 || index == 1
      ensures index == 0 ==> r == PriceRange(value, hi)
      ensures index == 1 ==> r == PriceRange(lo, value)
    {
      if index == 0 then PriceRange(value, hi) else PriceRange(lo, value)
    }
  }

  /** The `filters` object; an absent `subcategory` is `''`, which is just as falsy. */
  datatype Filters = Filters(category: string, subcategory: string, priceRange: PriceRange, onSale: bool)

  /** The search term is found, ignoring case, in the name or the description. */
  predicate MatchesSearch(p: Product, term: string)
  {
    Contains(Lower(p.productName), Lower(term)) || Contains(Lower(p.productDescription), Lower(term))
  }

  /** An empty filter value imposes nothing; otherwise the product must carry an equal value, ignoring case. */
  predicate MatchesField(value: Option<string>, filter: string)
  {
    filter == "" || (Truthy(value) && SameIgnoringCase(value.value, filter))
  }

  predicate MatchesPrice(p: Product, range: PriceRange)
  {
    range.lo <= p.productPrice <= range.hi
  }

  /** The callback of `products.filter`. */
  predicate Matches(p: Product, f: Filters, term: string)
  {
    && MatchesSearch(p, term)
    && MatchesField(p.categoriaProduct, f.category)
    && MatchesField(p.subCategoriaProduct, f.subcategory)
    && MatchesPrice(p, f.priceRange)
    && (!f.onSale || p.enOferta)
  }

  /** `filteredProducts`: the products that match, in their order. */
  function FilterProducts(products: seq<Product>, f: Filters, term: string): (r: seq<Product>)
    ensures |r| <= |products|
    ensures forall i :: 0 <= i < |r| ==> Matches(r[i], f, term)
    ensures forall p :: p in products && Matches(p, f, term) ==> p in r
    ensures forall p :: p in r ==> p in products
    ensures IsSubsequence(r, products)
  {
    if products == [] then []
    else
      var rest := FilterProducts(products[1..], f, term);
      if Matches(products[0], f, term) then [products[0]] + rest else rest
  }
  /** Every matching product is shown as many times as it was loaded, and no other one. */
  lemma {:induction false} FilterProductsCounts(products: seq<Product>, f: Filters, term: string)
    ensures forall p ::
      multiset(FilterProducts(products, f, term))[p] == (if Matches(p, f, term) then multiset(products)[p] else 0)
  {
    if products != [] {
      FilterProductsCounts(products[1..], f, term);
      assert products == [products[0]] + products[1..];
    }
  }


  /** Every string contains the empty one, so an empty search term excludes nothing. */
  lemma EmptySearchMatches(p: Product)
    ensures MatchesSearch(p, "")
  {
    assert Lower("") == [];
    assert StartsWith(Lower(p.productName), []);
  }

  /** With the search box empty, the default filters and prices within the default range, every product is shown. */
  lemma {:induction false} DefaultFiltersShowAll(products: seq<Product>, hi: int)
    requires forall i :: 0 <= i < |products| ==> 0 <= products[i].productPrice <= hi
    ensures FilterProducts(products, Filters("", "", PriceRange(0, hi), false), "") == products
  {
    if products != [] {
      EmptySearchMatches(products[0]);
      DefaultFiltersShowAll(products[1..], hi);
    }
  }

  /** A minimum above the maximum lets nothing through. */
  lemma {:induction false} CrossedRangeShowsNothing(products: seq<Product>, f: Filters, term: string)
    requires f.priceRange.lo > f.priceRange.hi
    ensures FilterProducts(products, f, term) == []
  {
    if products != [] {
      CrossedRangeShowsNothing(products[1..], f, term);
    }
  }

  /** Filtering the filtered list again changes nothing. */
  lemma {:induction false} FilterIdempotent(products: seq<Product>, f: Filters, term: string)
    ensures FilterProducts(FilterProducts(products, f, term), f, term) == FilterProducts(products, f, term)
  {
    if products != [] {
      FilterIdempotent(products[1..], f, term);
      var rest := FilterProducts(products[1..], f, term);
      if Matches(products[0], f, term) {
        assert ([products[0]] + rest)[1..] == rest;
      }
    }
  }

  /** Turning on the on-sale filter can only shrink the list, to its on-sale products. */
  lemma {:induction false} OnSaleNarrows(products: seq<Product>, f: Filters, term: string)
    ensures FilterProducts(products, f.(onSale := true), term) ==
            FilterOnSale(FilterProducts(products, f.(onSale := false), term))
  {
    if products != [] {
      OnSaleNarrows(products[1..], f, term);
    }
  }

  /** `.filter(product => product.enOferta)` */
  function FilterOnSale(products: seq<Product>): (r: seq<Product>)
    ensures forall i :: 0 <= i < |r| ==> r[i].enOferta
    ensures forall p :: p in products && p.enOferta ==> p in r
    ensures forall p :: p in r ==> p in products
    ensures |r| <= |products|
  {
    if products == [] then []
    else (if products[0].enOferta then [products[0]] else []) + FilterOnSale(products[1..])
  }

  /** The map that turns each image name into a URL under the uploads folder, leaving the rest alone. */
  function WithImageBase(products: seq<Product>): (r: seq<Product>)
    ensures |r| == |products|
    ensures forall i :: 0 <= i < |r| ==>
      r[i] == products[i].(imageProduct := BaseImageUrl + products[i].imageProduct)
  {
    seq(|products|, i requires 0 <= i < |products| => products[i].(imageProduct := BaseImageUrl + products[i].imageProduct))
  }

  /** Prefixing keeps the on-sale flag, so it commutes with the on-sale filter. */
  lemma {:induction false} WithImageBaseOnSale(products: seq<Product>)
    ensures FilterOnSale(WithImageBase(products)) == WithImageBase(FilterOnSale(products))
  {
    if products != [] {
      var p, rest := products[0], products[1..];
      var head := if p.enOferta then [p] else [];
      var q := WithImageBase([p]);
      assert WithImageBase(products) == q + WithImageBase(rest) by {
        assert [p] + rest == products;
        WithImageBaseAppend([p], rest);
      }
      assert FilterOnSale(WithImageBase(products)) == WithImageBase(head) + FilterOnSale(WithImageBase(rest)) by {
        assert FilterOnSale(q) == WithImageBase(head) by {
          assert q[1..] == [];
        }
        FilterOnSaleAppend(q, WithImageBase(rest));
      }
      assert WithImageBase(FilterOnSale(products)) == WithImageBase(head) + WithImageBase(FilterOnSale(rest)) by {
        WithImageBaseAppend(head, FilterOnSale(rest));
      }
      WithImageBaseOnSale(rest);
    }
  }

  /** One step of the filter: the first item is kept exactly when it is on sale. */
  lemma FilterOnSaleCons(x: Product, s: seq<Product>)
    ensures FilterOnSale([x] + s) == (if x.enOferta then [x] else []) + FilterOnSale(s)
  {
    assert ([x] + s)[0] == x && ([x] + s)[1..] == s;
  }

  /** The filter works item by item, so it distributes over concatenation. */
  lemma {:induction false} FilterOnSaleAppend(a: seq<Product>, b: seq<Product>)
    ensures FilterOnSale(a + b) == FilterOnSale(a) + FilterOnSale(b)
  {
    if a != [] {
      var x, rest := a[0], a[1..];
      assert a == [x] + rest && a + b == [x] + (rest + b);
      FilterOnSaleCons(x, rest + b);
      FilterOnSaleCons(x, rest);
      FilterOnSaleAppend(rest, b);
    } else {
      assert a + b == b;
    }
  }

  /** The map works item by item, so it distributes over concatenation. */
  lemma WithImageBaseAppend(a: seq<Product>, b: seq<Product>)
    ensures WithImageBase(a + b) == WithImageBase(a) + WithImageBase(b)
  {
  }

  /** The list and the catalogue state it is handed: the filters and the search term. */
  class ProductList {
    var products: seq<Product>
    var loading: bool
    var error: bool
    var filters: Filters
    var searchTerm: string

    /** The catalogue page's initial filters, before the panel's first emission. */
    constructor ()
      ensures products == [] && loading && !error
      ensures filters == Filters("", "", PriceRange(0, 1000000), false) && searchTerm == ""
    {
      products := [];
      loading := true;
      error := false;
      filters := Filters("", "", PriceRange(0, 1000000), false);
      searchTerm := "";
    }

    /** The products on screen. */
    function Shown(): (r: seq<Product>)
      reads this
      ensures IsSubsequence(r, products)
      ensures forall i :: 0 <= i < |r| ==> Matches(r[i], filters, searchTerm)
      ensures forall p :: p in products && Matches(p, filters, searchTerm) ==> p in r
    {
      FilterProducts(products, filters, searchTerm)
    }

    /** The "no products" notice shows exactly when no loaded product matches. */
    predicate NoResults()
      reads this
    {
      |Shown()| == 0
    }

    /** The effect that loads all products once. */
    method Load(reply: HttpResult<seq<Product>>)
      modifies this
      ensures reply.Ok? ==> products == WithImageBase(reply.data) && !loading && !error
      ensures reply.Err? ==> products == old(products) && !loading && error
      ensures filters == old(filters) && searchTerm == old(searchTerm)
    {
      match reply {
        case Ok(data) =>
          products := WithImageBase(data);
          loading := false;
          error := false;
        case Err(_) =>
          loading := false;
          error := true;
      }
    }

    /** `handleSearchChange`, through the catalogue's `setSearchTerm`. */
    method HandleSearchChange(value: string)
      modifies this`searchTerm
      ensures searchTerm == value && products == old(products) && filters == old(filters)
      ensures loading == old(loading) && error == old(error)
    {
      searchTerm := value;
    }

    /** The catalogue's `handleFilterChange`, which the filter panel calls. */
    method SetFilters(f: Filters)
      modifies this`filters
      ensures filters == f && products == old(products) && searchTerm == old(searchTerm)
      ensures loading == old(loading) && error == old(error)
    {
      filters := f;
    }
  }
}
