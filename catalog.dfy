/**
  The product catalog: a constant list of six digital products and the
  lookups the pages use on it (featured, all, by id, by category).

  Each lookup is the source's `filter` or `find` over the constant list. Its
  contract is stated and proved once for any product list (`FindById`,
  `ByCategory`, `Featured`); the catalog-level names apply them to `Products`.
 */
module Catalog {
  import opened Seqs
  import opened Types

  /** The address of a stock photo at the width the catalog requests. */
  function UnsplashImage(photo: string, width: string): string
  {
    "https://images.unsplash.com/photo-" + photo
      + "?ixlib=rb-4.0.3&ixid=MnwxMjA3fDB8MHxwaG90by1wYWdlfHx8fGVufDB8fHx8&auto=format&fit=crop&w="
      + width + "&q=80"
  }

  const Products: seq<Product> := [
    Product(
      id := "1",
      title := "UI Templates Pack",
      description := "A comprehensive collection of ready-to-use UI components and layouts for modern web applications.",
      priceCents := 4999,
      category := Templates,
      imageSrc := UnsplashImage("1522202176988-66273c2fd55f", "1471"),
      featured := true,
      creator := "Design Studio Pro",
      ratingTenths := 48),
    Product(
      id := "2",
      title := "Digital Marketing Course",
      description := "Master the art of digital marketing with this comprehensive course covering SEO, social media, and content marketing strategies.",
      priceCents := 7999,
      category := Courses,
      imageSrc := UnsplashImage("1555066931-4365d14bab8c", "1470"),
      featured := true,
      creator := "Marketing Experts Inc",
      ratingTenths := 49),
    Product(
      id := "3",
      title := "Video Editing Toolkit",
      description := "Professional video editing presets, transitions, and effects for creating stunning content quickly.",
      priceCents := 3999,
      category := Tools,
      imageSrc := UnsplashImage("1498050108023-c5249f4df085", "1472"),
      featured := true,
      creator := "VideoWizards",
      ratingTenths := 47),
    Product(
      id := "4",
      title := "E-commerce Website Template",
      description := "Complete e-commerce website template with product listings, cart functionality, and checkout process.",
      priceCents := 5999,
      category := Templates,
      imageSrc := UnsplashImage("1517245386807-bb43f82c33c4", "1470"),
      featured := false,
      creator := "Web Templates Co.",
      ratingTenths := 46),
    Product(
      id := "5",
      title := "Graphic Design Masterclass",
      description := "Learn graphic design principles from basics to advanced techniques for print and digital media.",
      priceCents := 8999,
      category := Courses,
      imageSrc := UnsplashImage("1626785774573-4b799315345d", "1471"),
      featured := false,
      creator := "Creative Arts Academy",
      ratingTenths := 49),
    Product(
      id := "6",
      title := "Social Media Content Pack",
      description := "Ready-to-use templates for Instagram, Facebook, and Twitter to boost your social media presence.",
      priceCents := 2999,
      category := Tools,
      imageSrc := UnsplashImage("1611162616305-c69b3fa7fbe0", "1374"),
      featured := false,
      creator := "Social Media Pros",
      ratingTenths := 45)
  ]

  /** Pairwise distinct ids. */
  ghost predicate DistinctIds(s: seq<Product>)
  {
    forall i, j :: 0 <= i < j < |s| ==> s[i].id != s[j].id
  }

  // ---------------------------------------------------------------------------
  // The lookups, over any product list

  function HasId(id: string): Product -> bool
  {
    (p: Product) => p.id == id
  }

  /** `find(product => product.id === id)`: the first product whose id is `id`, or none. */
  function FindById(catalog: seq<Product>, id: string): (r: Option<Product>)
    ensures r.Some? ==> r.value.id == id && r.value in catalog
    ensures r.None? <==> forall p :: p in catalog ==> p.id != id
    ensures r.Some? ==> exists i :: 0 <= i < |catalog| && catalog[i] == r.value &&
                                   forall j :: 0 <= j < i ==> catalog[j].id != id
  {
    match IndexOf(catalog, HasId(id))
    case Some(i) => Some(catalog[i])
    case None => None
  }

  /** With distinct ids, looking up the id held at an index yields exactly that entry. */
  lemma FindByIdAt(catalog: seq<Product>, i: nat)
    requires DistinctIds(catalog) && i < |catalog|
    ensures FindById(catalog, catalog[i].id) == Some(catalog[i])
  {
    var r := FindById(catalog, catalog[i].id);
    var k :| 0 <= k < |catalog| && catalog[k] == r.value &&
             forall j :: 0 <= j < k ==> catalog[j].id != catalog[i].id;
    assert k == i;
  }

  function InCategory(category: string): Product -> bool
  {
    (p: Product) => Slug(p.category) == category
  }

  /** `filter(product => product.category === category)`, in list order. */
  function ByCategory(catalog: seq<Product>, category: string): (r: seq<Product>)
    ensures forall p :: p in r <==> p in catalog && Slug(p.category) == category
    ensures IsSubsequence(r, catalog)
  {
    FilterSpec(catalog, InCategory(category));
    Filter(catalog, InCategory(category))
  }

  function IsFeatured(p: Product): bool { p.featured }

  /** `filter(product => product.featured)`, in list order. */
  function Featured(catalog: seq<Product>): (r: seq<Product>)
    ensures forall p :: p in r <==> p in catalog && p.featured
    ensures IsSubsequence(r, catalog)
  {
    FilterSpec(catalog, IsFeatured);
    Filter(catalog, IsFeatured)
  }

  /** The three category filters split any product list without overlap or loss. */
  lemma {:induction false} CategoryFiltersPartition(s: seq<Product>)
    ensures |ByCategory(s, "templates")| + |ByCategory(s, "courses")| + |ByCategory(s, "tools")| == |s|
    ensures forall p, c :: p in s ==> (p in ByCategory(s, Slug(c)) <==> c == p.category)
    decreases |s|
  {
    if s != [] {
      CategoryFiltersPartition(s[1..]);
      SlugInjective(s[0].category, Templates);
      SlugInjective(s[0].category, Courses);
      SlugInjective(s[0].category, Tools);
    }
    forall p, c | p in s
      ensures p in ByCategory(s, Slug(c)) <==> c == p.category
    {
      SlugInjective(p.category, c);
    }
  }

  // ---------------------------------------------------------------------------
  // The lookups over the catalog

  /** `getAllProducts()`: the catalog itself. */
  const AllProducts: seq<Product> := Products

  /** `getFeaturedProducts()`. */
  const FeaturedProducts: seq<Product> := Featured(Products)

  /** `getProductById(id)`. */
  function ProductById(id: string): Option<Product>
  {
    FindById(Products, id)
  }

  /** `getProductsByCategory(category)`. */
  function ProductsByCategory(category: string): seq<Product>
  {
    ByCategory(Products, category)
  }

  /** The catalog holds six products with pairwise distinct ids. */
  lemma CatalogIdsDistinct()
    ensures DistinctIds(Products) && |Products| == 6
  {
    forall i, j | 0 <= i < j < |Products|
      ensures Products[i].id != Products[j].id
    {
      assert Products[i].id[0] != Products[j].id[0];
    }
  }

  /** Every catalog product is found by its own id. */
  lemma ProductByIdAt(i: nat)
    requires i < |Products|
    ensures ProductById(Products[i].id) == Some(Products[i])
  {
    CatalogIdsDistinct();
    FindByIdAt(Products, i);
  }
}
