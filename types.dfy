/**
  The value types shared by the storefront: products and their categories,
  and the toast notifications the providers raise. Prices are whole cents and
  ratings whole tenths of a star.
 */
module Types {

  /** The three values a product's category may take. */
  datatype Category = Templates | Courses | Tools

  /** The lower-case name a category carries in URLs and in the data. */
  function Slug(c: Category): (s: string)
    ensures |s| > 0
    ensures forall i :: 0 <= i < |s| ==> 'a' <= s[i] <= 'z'
  {
    match c
    case Templates => "templates"
    case Courses => "courses"
    case Tools => "tools"
  }

  lemma SlugInjective(a: Category, b: Category)
    ensures Slug(a) == Slug(b) <==> a == b
  {
    if a != b {
      assert Slug(a)[0] != Slug(b)[0] || Slug(a)[1] != Slug(b)[1];
    }
  }

  datatype Product = Product(
    id: string,
    title: string,
    description: string,
    priceCents: nat,
    category: Category,
    imageSrc: string,
    featured: bool,
    creator: string,
    ratingTenths: nat)

  /** A toast notification: title, description, and whether it uses the destructive style. */
  datatype Toast = Toast(title: string, description: string, destructive: bool)
}
