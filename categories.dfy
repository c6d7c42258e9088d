/**
  The categories page's tally: one pass over the product list that builds a
  dictionary from category name to the number of products in it, and the
  display rule that shows 0 for a name the dictionary lacks.
 */
module Categories {
  import opened Seqs
  import opened Types
  import Catalog

  /** The number of products in `s` whose category is named `slug`, counted from the back. */
  function CountOf(s: seq<Product>, slug: string): nat
    decreases |s|
  {
    if s == [] then 0
    else CountOf(s[..|s| - 1], slug) + (if Slug(s[|s| - 1].category) == slug then 1 else 0)
  }

  /** The tally agrees with the catalog's category filter. */
  lemma {:induction false} CountOfIsFilterSize(s: seq<Product>, slug: string)
    ensures CountOf(s, slug) == |Catalog.ByCategory(s, slug)|
    decreases |s|
  {
    if s != [] {
      var init := s[..|s| - 1];
      var last := s[|s| - 1];
      assert s == init + [last];
      CountOfIsFilterSize(init, slug);
      FilterConcat(init, [last], Catalog.InCategory(slug));
      assert [last][1..] == [];
    }
  }

  /** A category has a positive count exactly when some product carries it. */
  lemma {:induction false} CountOfPositive(s: seq<Product>, slug: string)
    ensures CountOf(s, slug) > 0 <==> exists p :: p in s && Slug(p.category) == slug
    decreases |s|
  {
    if s != [] {
      var init := s[..|s| - 1];
      CountOfPositive(init, slug);
      assert s == init + [s[|s| - 1]];
      if exists p :: p in s && Slug(p.category) == slug {
        var p :| p in s && Slug(p.category) == slug;
        if p != s[|s| - 1] {
          assert p in init;
        }
      }
    }
  }

  /** Every product is counted under exactly one of the three names. */
  lemma CountsCoverCatalog(s: seq<Product>)
    ensures CountOf(s, "templates") + CountOf(s, "courses") + CountOf(s, "tools") == |s|
  {
    CountOfIsFilterSize(s, "templates");
    CountOfIsFilterSize(s, "courses");
    CountOfIsFilterSize(s, "tools");
    Catalog.CategoryFiltersPartition(s);
  }

  /**
    `productCounts`: the `reduce` that bumps `acc[product.category]`, starting
    from `(acc[...] || 0)`. Its keys are exactly the categories that occur,
    each with its number of products.
   */
  method ProductCounts(products: seq<Product>) returns (counts: map<string, int>)
    ensures forall k :: k in counts <==> exists p :: p in products && Slug(p.category) == k
    ensures forall k :: k in counts ==> counts[k] == CountOf(products, k) && counts[k] >= 1
  {
    counts := map[];
    var i := 0;
    while i < |products|
      invariant 0 <= i <= |products|
      invariant IsTally(counts, products[..i])
    {
      var key := Slug(products[i].category);
      var prev := if key in counts && counts[key] != 0 then counts[key] else 0;
      TallyStep(counts, products, i);
      counts := counts[key := prev + 1];
      i := i + 1;
    }
    assert products[..i] == products;
    CountOfPositiveEverywhere(products);
  }

  /** `counts` holds, for each category occurring in `s`, its number of products, and nothing else. */
  ghost predicate IsTally(counts: map<string, int>, s: seq<Product>)
  {
    (forall k :: k in counts <==> CountOf(s, k) > 0) &&
    (forall k :: k in counts ==> counts[k] == CountOf(s, k))
  }

  /** One step of the reduce keeps the dictionary equal to the tally of the prefix read so far. */
  lemma TallyStep(counts: map<string, int>, s: seq<Product>, i: nat)
    requires i < |s|
    requires IsTally(counts, s[..i])
    ensures var key := Slug(s[i].category);
      IsTally(counts[key := (if key in counts && counts[key] != 0 then counts[key] else 0) + 1], s[..i + 1])
  {
    CountOfPrefix(s, i);
  }

  lemma CountOfPositiveEverywhere(s: seq<Product>)
    ensures forall k :: CountOf(s, k) > 0 <==> exists p :: p in s && Slug(p.category) == k
  {
    forall k
      ensures CountOf(s, k) > 0 <==> exists p :: p in s && Slug(p.category) == k
    {
      CountOfPositive(s, k);
    }
  }

  /** Extending a prefix by one product adds one to that product's category only. */
  lemma CountOfPrefix(s: seq<Product>, i: nat)
    requires i < |s|
    ensures forall k :: CountOf(s[..i + 1], k) == CountOf(s[..i], k) + (if Slug(s[i].category) == k then 1 else 0)
  {
    assert s[..i + 1] == s[..i] + [s[i]];
    assert s[..i + 1][..i] == s[..i];
  }

  /** `productCounts[slug] || 0`: the number shown on a category card. */
  function DisplayedCount(counts: map<string, int>, slug: string): (r: int)
    ensures slug !in counts ==> r == 0
    ensures slug in counts && counts[slug] != 0 ==> r == counts[slug]
  {
    if slug in counts && counts[slug] != 0 then counts[slug] else 0
  }

  /**
    The page's three cards: each shows its category's size, 0 when the
    category has no products, and together they account for every product.
   */
  method CardCounts(products: seq<Product>) returns (templates: int, courses: int, tools: int)
    ensures templates == CountOf(products, "templates")
    ensures courses == CountOf(products, "courses")
    ensures tools == CountOf(products, "tools")
    ensures templates + courses + tools == |products|
  {
    var counts := ProductCounts(products);
    templates := DisplayedCount(counts, "templates");
    courses := DisplayedCount(counts, "courses");
    tools := DisplayedCount(counts, "tools");
    CountOfPositive(products, "templates");
    CountOfPositive(products, "courses");
    CountOfPositive(products, "tools");
    CountsCoverCatalog(products);
  }
}
