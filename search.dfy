/**
  The products page's search and category filter. The page keeps the full
  product list, the active category (from the URL or the category buttons)
  and the search box's text; an effect recomputes the shown products whenever
  any of them changes.

  Case folding is ASCII only: `toLowerCase` maps 'A'..'Z' to 'a'..'z' and
  leaves every other character alone.
 */
module Search {
  import opened Seqs
  import opened Types
  import Catalog

  function LowerChar(c: char): (d: char)
    ensures 'A' <= c <= 'Z' ==> 'a' <= d <= 'z' && d as int - c as int == 32
    ensures !('A' <= c <= 'Z') ==> d == c
  {
    if 'A' <= c <= 'Z' then (c as int + 32) as char else c
  }

  /** `toLowerCase`, ASCII letters only. */
  function Lower(s: string): (r: string)
    ensures |r| == |s|
    ensures forall i :: 0 <= i < |s| ==> r[i] == LowerChar(s[i])
  {
    seq(|s|, i requires 0 <= i < |s| => LowerChar(s[i]))
  }

  /** Lower-casing twice is lower-casing once. */
  lemma LowerIdempotent(s: string)
    ensures Lower(Lower(s)) == Lower(s)
  {
    var once := Lower(s);
    forall i | 0 <= i < |s|
      ensures Lower(once)[i] == once[i]
    {
      assert !('A' <= once[i] <= 'Z');
    }
  }

  /** Category names are already lower case. */
  lemma LowerSlug(c: Category)
    ensures Lower(Slug(c)) == Slug(c)
  {
    var s := Slug(c);
    forall i | 0 <= i < |s|
      ensures Lower(s)[i] == s[i]
    {
      assert !('A' <= s[i] <= 'Z');
    }
  }

  /** `sub` occurs in `s` starting at index `i`. */
  predicate OccursAt(s: string, sub: string, i: nat)
  {
    i + |sub| <= |s| && s[i..i + |sub|] == sub
  }

  /** `String.prototype.includes`: `sub` occurs in `s` at some position. */
  function Includes(s: string, sub: string): (r: bool)
    ensures r <==> exists i: nat :: OccursAt(s, sub, i)
    decreases |s|
  {
    if |sub| > |s| then false
    else if s[..|sub|] == sub then
      assert OccursAt(s, sub, 0);
      true
    else
      var r := Includes(s[1..], sub);
      assert r <==> exists i: nat :: OccursAt(s, sub, i) by {
        if r {
          var j: nat :| OccursAt(s[1..], sub, j);
          assert s[j + 1..j + 1 + |sub|] == s[1..][j..j + |sub|];
          assert OccursAt(s, sub, j + 1);
        }
        if exists i: nat :: OccursAt(s, sub, i) {
          var i: nat :| OccursAt(s, sub, i);
          assert i != 0;
          assert s[1..][i - 1..i - 1 + |sub|] == s[i..i + |sub|];
          assert OccursAt(s[1..], sub, i - 1);
        }
      }
      r
  }

  /** The search predicate: the lower-cased query occurs in the lower-cased title, description or category. */
  predicate Matches(p: Product, query: string)
  {
    var q := Lower(query);
    Includes(Lower(p.title), q) || Includes(Lower(p.description), q) || Includes(Lower(Slug(p.category)), q)
  }

  function MatchesQuery(query: string): Product -> bool
  {
    (p: Product) => Matches(p, query)
  }

  /** The search ignores the case of the query. */
  lemma MatchesIgnoresQueryCase(p: Product, query: string)
    ensures Matches(p, Lower(query)) <==> Matches(p, query)
  {
    LowerIdempotent(query);
  }

  /** Every product matches the category's own name. */
  lemma MatchesOwnCategory(p: Product)
    ensures Matches(p, Slug(p.category))
  {
    var s := Slug(p.category);
    LowerSlug(p.category);
    assert OccursAt(Lower(s), s, 0);
  }

  /** A JavaScript string or null is truthy when present and non-empty. */
  predicate Truthy(s: Option<string>)
  {
    s.Some? && s.value != ""
  }

  /**
    What the filter effect shows: with a category set, the catalog's products
    of that category, otherwise the page's `products`; then, with a non-empty
    query, only those that match it. The category branch reads the catalog
    directly, not `products`.
   */
  function Narrowed(products: seq<Product>, catalog: seq<Product>, query: string, category: Option<string>): (r: seq<Product>)
    ensures Truthy(category) ==> forall p :: p in r ==> p in catalog && Slug(p.category) == category.value
    ensures query != "" ==> forall p :: p in r ==> Matches(p, query)
    ensures Truthy(category) ==> IsSubsequence(r, catalog)
    ensures !Truthy(category) ==> IsSubsequence(r, products)
    ensures Truthy(category) ==> forall p :: p in catalog && Slug(p.category) == category.value && (query == "" || Matches(p, query)) ==> p in r
    ensures !Truthy(category) ==> forall p :: p in products && (query == "" || Matches(p, query)) ==> p in r
    ensures !Truthy(category) && query == "" ==> r == products
  {
    var base := if Truthy(category) then Catalog.ByCategory(catalog, category.value) else products;
    if query == "" then
      SubsequenceRefl(base);
      base
    else
      var r := Filter(base, MatchesQuery(query));
      FilterSpec(base, MatchesQuery(query));
      if Truthy(category) then
        SubsequenceTrans(r, base, catalog);
        r
      else
        r
  }

  /** Searching for a category's name with that category selected shows the whole category. */
  lemma SearchOwnCategory(catalog: seq<Product>, c: Category)
    ensures Narrowed(catalog, catalog, Slug(c), Some(Slug(c))) == Catalog.ByCategory(catalog, Slug(c))
  {
    var base := Catalog.ByCategory(catalog, Slug(c));
    forall p | p in base
      ensures MatchesQuery(Slug(c))(p)
    {
      SlugInjective(p.category, c);
      MatchesOwnCategory(p);
    }
    FilterAll(base, MatchesQuery(Slug(c)));
  }

  /** A filter every element passes keeps the whole sequence. */
  lemma {:induction false} FilterAll<T>(s: seq<T>, f: T -> bool)
    requires forall x :: x in s ==> f(x)
    ensures Filter(s, f) == s
    decreases |s|
  {
    if s != [] {
      assert s == [s[0]] + s[1..];
      FilterAll(s[1..], f);
    }
  }

  /** The page's state. `catalog` is the product list the data module serves. */
  class ProductsPage {
    const catalog: seq<Product>
    var products: seq<Product>
    var filteredProducts: seq<Product>
    var searchQuery: string
    var activeCategory: Option<string>

    /** The effect's result agrees with the current inputs. */
    ghost predicate Shown()
      reads this
    {
      filteredProducts == Narrowed(products, catalog, searchQuery, activeCategory)
    }

    /**
      The page after its mount effects: the full list loaded, the category
      taken from the URL, and the search text taken from the URL when that
      parameter is truthy.
     */
    constructor (categoryParam: Option<string>, searchParam: Option<string>)
      ensures catalog == Catalog.Products && products == catalog
      ensures activeCategory == categoryParam
      ensures searchQuery == if Truthy(searchParam) then searchParam.value else ""
      ensures Shown()
    {
      catalog := Catalog.Products;
      products := Catalog.Products;
      searchQuery := if Truthy(searchParam) then searchParam.value else "";
      activeCategory := categoryParam;
      filteredProducts := [];
      new;
      ApplyFilters();
    }

    /** The filter effect: `result` starts as `products` and is narrowed step by step. */
    method ApplyFilters()
      modifies this
      ensures Shown()
      ensures products == old(products) && searchQuery == old(searchQuery) && activeCategory == old(activeCategory)
    {
      var result := products;
      if Truthy(activeCategory) {
        result := Catalog.ByCategory(catalog, activeCategory.value);
      }
      if searchQuery != "" {
        result := Filter(result, MatchesQuery(searchQuery));
      }
      filteredProducts := result;
    }

    /** Typing in the search box. */
    method SetSearchQuery(query: string)
      modifies this
      ensures searchQuery == query
      ensures products == old(products) && activeCategory == old(activeCategory)
      ensures Shown()
    {
      searchQuery := query;
      ApplyFilters();
    }

    /** A category button, or a change of the URL's category parameter. */
    method SetCategory(category: Option<string>)
      modifies this
      ensures activeCategory == category
      ensures products == old(products) && searchQuery == old(searchQuery)
      ensures Shown()
    {
      activeCategory := category;
      ApplyFilters();
    }

    /** A change of the URL's search parameter: only a truthy value replaces the query. */
    method SearchParamChanged(searchParam: Option<string>)
      modifies this
      ensures searchQuery == if Truthy(searchParam) then searchParam.value else old(searchQuery)
      ensures products == old(products) && activeCategory == old(activeCategory)
      ensures Shown()
    {
      if Truthy(searchParam) {
        searchQuery := searchParam.value;
      }
      ApplyFilters();
    }

    /** "Clear Filters": empty query, no category, and so the whole list is shown. */
    method ClearFilters()
      modifies this
      ensures searchQuery == "" && activeCategory.None?
      ensures products == old(products)
      ensures filteredProducts == products
    {
      searchQuery := "";
      activeCategory := None;
      ApplyFilters();
    }
  }
}
