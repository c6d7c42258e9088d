/**
  The shopping cart: an ordered list of lines `{product, quantity}` kept in
  memory, mirrored to the browser's local storage under the key 'cart', with
  the item count and the total price recomputed after every change.

  The new line lists that `addItem` and `removeItem` compute are pure
  functions here; `CartStore` holds the provider's state and applies them.
 */
module Cart {
  import opened Seqs
  import opened Types

  datatype CartItem = CartItem(product: Product, quantity: int)

  function LineHasId(id: string): CartItem -> bool
  {
    (l: CartItem) => l.product.id == id
  }

  function LineLacksId(id: string): CartItem -> bool
  {
    (l: CartItem) => l.product.id != id
  }

  /** The index of the first line for product `id`, as `items.find` locates it. */
  function LineIndex(items: seq<CartItem>, id: string): (r: Option<nat>)
    ensures r.Some? ==> r.value < |items| && items[r.value].product.id == id
    ensures r.Some? ==> forall j :: 0 <= j < r.value ==> items[j].product.id != id
    ensures r.None? <==> forall j :: 0 <= j < |items| ==> items[j].product.id != id
  {
    IndexOf(items, LineHasId(id))
  }

  /** `items.some(item => item.product.id === id)`: is the product in the cart? */
  function InCart(items: seq<CartItem>, id: string): (r: bool)
    ensures r <==> exists i :: 0 <= i < |items| && items[i].product.id == id
  {
    var r := Any(items, LineHasId(id));
    assert r <==> exists i :: 0 <= i < |items| && items[i].product.id == id by {
      if r {
        var x :| x in items && LineHasId(id)(x);
        var i :| 0 <= i < |items| && items[i] == x;
      }
      if exists i :: 0 <= i < |items| && items[i].product.id == id {
        var i :| 0 <= i < |items| && items[i].product.id == id;
        assert items[i] in items && LineHasId(id)(items[i]);
      }
    }
    r
  }

  /** Every line for product `id` has its quantity changed by `delta`; others are kept. */
  function Bumped(items: seq<CartItem>, id: string, delta: int): (r: seq<CartItem>)
    ensures |r| == |items|
    ensures forall j :: 0 <= j < |items| ==>
      r[j] == if items[j].product.id == id then items[j].(quantity := items[j].quantity + delta) else items[j]
    decreases |items|
  {
    if items == [] then []
    else
      var l := items[0];
      [if l.product.id == id then l.(quantity := l.quantity + delta) else l] + Bumped(items[1..], id, delta)
  }

  /** `items.filter(item => item.product.id !== id)`. */
  function WithoutId(items: seq<CartItem>, id: string): (r: seq<CartItem>)
    ensures |r| <= |items|
    ensures forall l :: l in r <==> l in items && l.product.id != id
    ensures IsSubsequence(r, items)
  {
    FilterSpec(items, LineLacksId(id));
    Filter(items, LineLacksId(id))
  }

  /** `addItem`: bump the product's line, or append a new line with quantity 1. */
  function AddedItems(items: seq<CartItem>, p: Product): (r: seq<CartItem>)
    ensures InCart(items, p.id) ==> |r| == |items|
    ensures !InCart(items, p.id) ==> r == items + [CartItem(p, 1)]
  {
    match LineIndex(items, p.id)
    case Some(_) => Bumped(items, p.id, 1)
    case None => items + [CartItem(p, 1)]
  }

  /** `removeItem`: decrement the product's line when its quantity exceeds 1, otherwise drop it. */
  function RemovedItems(items: seq<CartItem>, id: string): (r: seq<CartItem>)
    ensures |r| <= |items|
    ensures forall l :: l in r && l.product.id != id ==> l in items
  {
    match LineIndex(items, id)
    case Some(i) =>
      if items[i].quantity > 1 then Bumped(items, id, -1) else WithoutId(items, id)
    case None => WithoutId(items, id)
  }

  /** `cartCount`: the sum of the quantities. */
  function Count(items: seq<CartItem>): int
    decreases |items|
  {
    if items == [] then 0 else items[0].quantity + Count(items[1..])
  }

  /** What one line contributes to the total. */
  function LineTotal(l: CartItem): int
  {
    l.product.priceCents * l.quantity
  }

  /** `cartTotal`: the sum of price times quantity, in cents. */
  function Total(items: seq<CartItem>): int
    decreases |items|
  {
    if items == [] then 0 else LineTotal(items[0]) + Total(items[1..])
  }

  /** At most one line per product id. */
  ghost predicate DistinctLines(items: seq<CartItem>)
  {
    forall i, j :: 0 <= i < j < |items| ==> items[i].product.id != items[j].product.id
  }

  /** The cart's invariant: one line per product, and no line with quantity below 1. */
  ghost predicate WellFormed(items: seq<CartItem>)
  {
    DistinctLines(items) && forall i :: 0 <= i < |items| ==> items[i].quantity >= 1
  }

  // ---------------------------------------------------------------------------
  // Local storage

  /** What the 'cart' key can hold: the JSON text of a line list, or text that does not parse. */
  datatype StoredCart = Serialized(lines: seq<CartItem>) | Corrupt(text: string)

  /** The save effect: the key holds the lines while there are any, and is absent otherwise. */
  function Saved(items: seq<CartItem>): (r: Option<StoredCart>)
    ensures r.None? <==> items == []
  {
    if |items| > 0 then Some(Serialized(items)) else None
  }

  /** The load effect: parsed lines, or an empty cart when the key is absent or does not parse. */
  function Loaded(slot: Option<StoredCart>): (r: seq<CartItem>)
    ensures slot.None? ==> r == []
    ensures slot.Some? && slot.value.Corrupt? ==> r == []
  {
    match slot
    case None => []
    case Some(Corrupt(_)) => []
    case Some(Serialized(lines)) => lines
  }

  /** Reloading what the save effect wrote gives back the same cart. */
  lemma SaveLoadRoundTrip(items: seq<CartItem>)
    ensures Loaded(Saved(items)) == items
  {
  }

  // ---------------------------------------------------------------------------
  // Facts about the sums

  lemma {:induction false} CountTotalConcat(a: seq<CartItem>, b: seq<CartItem>)
    ensures Count(a + b) == Count(a) + Count(b)
    ensures Total(a + b) == Total(a) + Total(b)
    decreases |a|
  {
    if a == [] {
      assert a + b == b;
    } else {
      CountTotalConcat(a[1..], b);
      assert (a + b)[0] == a[0];
      assert (a + b)[1..] == a[1..] + b;
    }
  }

  lemma SingleLineSums(l: CartItem)
    ensures Count([l]) == l.quantity && Total([l]) == LineTotal(l)
  {
    assert [l][1..] == [];
  }

  /** The sums of `pre + [l] + post`, line by line. */
  lemma ThreePartSums(pre: seq<CartItem>, l: CartItem, post: seq<CartItem>)
    ensures Count(pre + [l] + post) == Count(pre) + l.quantity + Count(post)
    ensures Total(pre + [l] + post) == Total(pre) + LineTotal(l) + Total(post)
  {
    CountTotalConcat(pre + [l], post);
    CountTotalConcat(pre, [l]);
    SingleLineSums(l);
  }

  /** Replacing line `i` by `l` changes the sums by the difference of the two lines. */
  lemma ReplaceLineSums(items: seq<CartItem>, i: nat, l: CartItem)
    requires i < |items|
    ensures Count(items[..i] + [l] + items[i+1..]) == Count(items) - items[i].quantity + l.quantity
    ensures Total(items[..i] + [l] + items[i+1..]) == Total(items) - LineTotal(items[i]) + LineTotal(l)
  {
    var pre, post := items[..i], items[i+1..];
    calc {
      Count(pre + [l] + post);
      { ThreePartSums(pre, l, post); }
      Count(pre) + l.quantity + Count(post);
      { assert items == pre + [items[i]] + post;
        ThreePartSums(pre, items[i], post); }
      Count(items) - items[i].quantity + l.quantity;
    }
    calc {
      Total(pre + [l] + post);
      { ThreePartSums(pre, l, post); }
      Total(pre) + LineTotal(l) + Total(post);
      { assert items == pre + [items[i]] + post;
        ThreePartSums(pre, items[i], post); }
      Total(items) - LineTotal(items[i]) + LineTotal(l);
    }
  }

  /** Dropping line `i` takes exactly that line out of the sums. */
  lemma DropLineSums(items: seq<CartItem>, i: nat)
    requires i < |items|
    ensures Count(items[..i] + items[i+1..]) == Count(items) - items[i].quantity
    ensures Total(items[..i] + items[i+1..]) == Total(items) - LineTotal(items[i])
  {
    var pre, post := items[..i], items[i+1..];
    calc {
      Count(pre + post);
      { CountTotalConcat(pre, post); }
      Count(pre) + Count(post);
      { assert items == pre + [items[i]] + post;
        ThreePartSums(pre, items[i], post); }
      Count(items) - items[i].quantity;
    }
    calc {
      Total(pre + post);
      { CountTotalConcat(pre, post); }
      Total(pre) + Total(post);
      { assert items == pre + [items[i]] + post;
        ThreePartSums(pre, items[i], post); }
      Total(items) - LineTotal(items[i]);
    }
  }

  /** One more unit on a line adds its price once. */
  lemma LineTotalInc(l: CartItem, m: CartItem)
    requires m.product == l.product && m.quantity == l.quantity + 1
    ensures LineTotal(m) == LineTotal(l) + l.product.priceCents
  {
  }

  /** One unit fewer on a line takes its price off once. */
  lemma LineTotalDec(l: CartItem, m: CartItem)
    requires m.product == l.product && m.quantity == l.quantity - 1
    ensures LineTotal(m) == LineTotal(l) - l.product.priceCents
  {
  }

  lemma {:induction false} CountAtLeastLength(items: seq<CartItem>)
    requires forall i :: 0 <= i < |items| ==> items[i].quantity >= 1
    ensures Count(items) >= |items|
    decreases |items|
  {
    if items != [] {
      CountAtLeastLength(items[1..]);
    }
  }

  /** In a well-formed cart the count is never negative, and it is zero exactly when the cart is empty. */
  lemma CountOfWellFormed(items: seq<CartItem>)
    requires WellFormed(items)
    ensures Count(items) >= 0
    ensures Count(items) == 0 <==> items == []
  {
    CountAtLeastLength(items);
  }

  // ---------------------------------------------------------------------------
  // The shape of the new line lists

  /** The slices of a list with line `i` replaced. */
  lemma ReplacedSlices(items: seq<CartItem>, i: nat, l: CartItem)
    requires i < |items|
    ensures var r := items[..i] + [l] + items[i+1..];
      |r| == |items| && r[i] == l && r[..i] == items[..i] && r[i+1..] == items[i+1..]
  {
  }

  /** Replacing line `i` twice keeps only the second replacement; replacing it by itself changes nothing. */
  lemma ReplacedTwice(items: seq<CartItem>, i: nat, l: CartItem, m: CartItem)
    requires i < |items|
    ensures var r := items[..i] + [l] + items[i+1..];
      |r| == |items| && r[i] == l && r[..i] + [m] + r[i+1..] == items[..i] + [m] + items[i+1..]
    ensures items[..i] + [items[i]] + items[i+1..] == items
  {
    ReplacedSlices(items, i, l);
  }

  /** With one line per product, bumping changes line `i` alone. */
  lemma BumpedAt(items: seq<CartItem>, id: string, delta: int, i: nat)
    requires DistinctLines(items)
    requires i < |items| && items[i].product.id == id
    ensures Bumped(items, id, delta)
         == items[..i] + [items[i].(quantity := items[i].quantity + delta)] + items[i+1..]
  {
    var r := Bumped(items, id, delta);
    var e := items[..i] + [items[i].(quantity := items[i].quantity + delta)] + items[i+1..];
    assert |r| == |e|;
    forall j | 0 <= j < |r|
      ensures r[j] == e[j]
    {
      if j != i {
        assert items[j].product.id != id;
      }
    }
  }

  lemma WithoutIdConcat(a: seq<CartItem>, b: seq<CartItem>, id: string)
    ensures WithoutId(a + b, id) == WithoutId(a, id) + WithoutId(b, id)
  {
    FilterConcat(a, b, LineLacksId(id));
  }

  lemma {:induction false} WithoutAbsent(items: seq<CartItem>, id: string)
    requires forall j :: 0 <= j < |items| ==> items[j].product.id != id
    ensures WithoutId(items, id) == items
    decreases |items|
  {
    if items != [] {
      WithoutAbsent(items[1..], id);
      assert items == [items[0]] + items[1..];
    }
  }

  /** With one line per product, the filter drops line `i` alone. */
  lemma WithoutAt(items: seq<CartItem>, id: string, i: nat)
    requires DistinctLines(items)
    requires i < |items| && items[i].product.id == id
    ensures WithoutId(items, id) == items[..i] + items[i+1..]
  {
    assert items == items[..i] + ([items[i]] + items[i+1..]);
    WithoutIdConcat(items[..i], [items[i]] + items[i+1..], id);
    WithoutIdConcat([items[i]], items[i+1..], id);
    WithoutAbsent(items[..i], id);
    WithoutAbsent(items[i+1..], id);
    assert WithoutId([items[i]], id) == [];
  }

  /** addItem on a product already in the cart: that line gains exactly 1, nothing else moves. */
  lemma AddExisting(items: seq<CartItem>, p: Product, i: nat)
    requires DistinctLines(items)
    requires i < |items| && items[i].product.id == p.id
    ensures AddedItems(items, p) == items[..i] + [items[i].(quantity := items[i].quantity + 1)] + items[i+1..]
  {
    BumpedAt(items, p.id, 1, i);
  }

  /** removeItem on a line with quantity above 1: that line loses exactly 1, nothing else moves. */
  lemma RemoveDecrements(items: seq<CartItem>, i: nat)
    requires DistinctLines(items)
    requires i < |items| && items[i].quantity > 1
    ensures RemovedItems(items, items[i].product.id)
         == items[..i] + [items[i].(quantity := items[i].quantity - 1)] + items[i+1..]
  {
    var id := items[i].product.id;
    assert LineIndex(items, id) == Some(i);
    BumpedAt(items, id, -1, i);
  }

  /** removeItem on a line with quantity 1 (or less) drops that line and keeps the rest in order. */
  lemma RemoveDropsLine(items: seq<CartItem>, i: nat)
    requires DistinctLines(items)
    requires i < |items| && items[i].quantity <= 1
    ensures RemovedItems(items, items[i].product.id) == items[..i] + items[i+1..]
  {
    var id := items[i].product.id;
    assert LineIndex(items, id) == Some(i);
    WithoutAt(items, id, i);
  }

  /** removeItem for a product that has no line leaves the cart as it was. */
  lemma RemoveAbsent(items: seq<CartItem>, id: string)
    requires !InCart(items, id)
    ensures RemovedItems(items, id) == items
  {
    WithoutAbsent(items, id);
  }

  lemma DropLineWellFormed(items: seq<CartItem>, i: nat)
    requires WellFormed(items) && i < |items|
    ensures WellFormed(items[..i] + items[i+1..])
  {
    var r := items[..i] + items[i+1..];
    assert forall j :: 0 <= j < |r| ==> r[j] == if j < i then items[j] else items[j + 1];
  }

  lemma ReplaceLineWellFormed(items: seq<CartItem>, i: nat, l: CartItem)
    requires WellFormed(items) && i < |items|
    requires l.product.id == items[i].product.id && l.quantity >= 1
    ensures WellFormed(items[..i] + [l] + items[i+1..])
  {
    var r := items[..i] + [l] + items[i+1..];
    assert forall j :: 0 <= j < |r| ==> r[j] == if j == i then l else items[j];
  }

  /** addItem keeps one line per product and every quantity at least 1. */
  lemma AddPreservesWellFormed(items: seq<CartItem>, p: Product)
    requires WellFormed(items)
    ensures WellFormed(AddedItems(items, p))
  {
    match LineIndex(items, p.id)
    case Some(i) =>
      AddExisting(items, p, i);
      ReplaceLineWellFormed(items, i, items[i].(quantity := items[i].quantity + 1));
    case None =>
  }

  /** removeItem keeps one line per product and every quantity at least 1. */
  lemma RemovePreservesWellFormed(items: seq<CartItem>, id: string)
    requires WellFormed(items)
    ensures WellFormed(RemovedItems(items, id))
  {
    match LineIndex(items, id)
    case Some(i) =>
      if items[i].quantity > 1 {
        RemoveDecrements(items, i);
        ReplaceLineWellFormed(items, i, items[i].(quantity := items[i].quantity - 1));
      } else {
        RemoveDropsLine(items, i);
        DropLineWellFormed(items, i);
      }
    case None =>
      RemoveAbsent(items, id);
  }

  lemma AddThenRemoveExisting(items: seq<CartItem>, p: Product, i: nat)
    requires WellFormed(items)
    requires i < |items| && items[i].product.id == p.id
    ensures RemovedItems(AddedItems(items, p), p.id) == items
  {
    var bumped := items[i].(quantity := items[i].quantity + 1);
    var added := items[..i] + [bumped] + items[i+1..];
    calc {
      RemovedItems(AddedItems(items, p), p.id);
      { AddExisting(items, p, i); }
      RemovedItems(added, p.id);
      { ReplacedSlices(items, i, bumped);
        ReplaceLineWellFormed(items, i, bumped);
        RemoveDecrements(added, i); }
      added[..i] + [added[i].(quantity := added[i].quantity - 1)] + added[i+1..];
      { ReplacedSlices(items, i, bumped); }
      added[..i] + [items[i]] + added[i+1..];
      { ReplacedTwice(items, i, bumped, items[i]); }
      items;
    }
  }

  lemma AddThenRemoveNew(items: seq<CartItem>, p: Product)
    requires !InCart(items, p.id)
    ensures RemovedItems(AddedItems(items, p), p.id) == items
  {
    var added := items + [CartItem(p, 1)];
    assert forall j :: 0 <= j < |items| ==> added[j].product.id != p.id;
    assert added[|items|].product.id == p.id;
    assert LineIndex(added, p.id) == Some(|items|);
    calc {
      RemovedItems(added, p.id);
      WithoutId(added, p.id);
      { WithoutIdConcat(items, [CartItem(p, 1)], p.id); }
      WithoutId(items, p.id) + WithoutId([CartItem(p, 1)], p.id);
      { WithoutAbsent(items, p.id); }
      items + WithoutId([CartItem(p, 1)], p.id);
    }
    assert WithoutId([CartItem(p, 1)], p.id) == [];
  }

  /** Adding a product and then removing it restores the cart exactly. */
  lemma AddThenRemove(items: seq<CartItem>, p: Product)
    requires WellFormed(items)
    ensures RemovedItems(AddedItems(items, p), p.id) == items
  {
    match LineIndex(items, p.id)
    case Some(i) => AddThenRemoveExisting(items, p, i);
    case None => AddThenRemoveNew(items, p);
  }

  /** After addItem on a product already present, the count grows by 1 and the total by that line's price. */
  lemma AddExistingSums(items: seq<CartItem>, p: Product, i: nat)
    requires DistinctLines(items)
    requires i < |items| && items[i].product.id == p.id
    ensures Count(AddedItems(items, p)) == Count(items) + 1
    ensures Total(AddedItems(items, p)) == Total(items) + items[i].product.priceCents
  {
    var bumped := items[i].(quantity := items[i].quantity + 1);
    var e := items[..i] + [bumped] + items[i+1..];
    AddExisting(items, p, i);
    assert AddedItems(items, p) == e;
    ReplaceLineSums(items, i, bumped);
    assert Count(e) == Count(items) + 1;
    LineTotalInc(items[i], bumped);
  }

  /** After addItem on a new product, the count grows by 1 and the total by its price. */
  lemma AddNewSums(items: seq<CartItem>, p: Product)
    requires !InCart(items, p.id)
    ensures Count(AddedItems(items, p)) == Count(items) + 1
    ensures Total(AddedItems(items, p)) == Total(items) + p.priceCents
  {
    CountTotalConcat(items, [CartItem(p, 1)]);
  }

  /** After removeItem on a product in the cart, the count drops by 1 and the total by that line's price. */
  lemma RemovePresentSums(items: seq<CartItem>, i: nat)
    requires WellFormed(items) && i < |items|
    ensures Count(RemovedItems(items, items[i].product.id)) == Count(items) - 1
    ensures Total(RemovedItems(items, items[i].product.id)) == Total(items) - items[i].product.priceCents
  {
    if items[i].quantity > 1 {
      RemoveDecrements(items, i);
      ReplaceLineSums(items, i, items[i].(quantity := items[i].quantity - 1));
      LineTotalDec(items[i], items[i].(quantity := items[i].quantity - 1));
    } else {
      RemoveDropsLine(items, i);
      DropLineSums(items, i);
    }
  }

  /**
    addItem keeps the cart well formed, adds exactly 1 to the count, and adds
    the product's price to the total (when the cart holds this product under
    its id, or none under that id).
   */
  lemma AddSums(items: seq<CartItem>, p: Product)
    requires WellFormed(items)
    ensures WellFormed(AddedItems(items, p))
    ensures Count(AddedItems(items, p)) == Count(items) + 1
    ensures (forall l :: l in items && l.product.id == p.id ==> l.product == p) ==>
      Total(AddedItems(items, p)) == Total(items) + p.priceCents
  {
    AddPreservesWellFormed(items, p);
    match LineIndex(items, p.id)
    case Some(i) =>
      AddExistingSums(items, p, i);
      assert items[i] in items;
    case None =>
      AddNewSums(items, p);
  }

  /**
    removeItem keeps the cart well formed; for a product in the cart it takes
    1 off the count and that line's price off the total, and for any other id
    it changes neither.
   */
  lemma RemoveSums(items: seq<CartItem>, id: string)
    requires WellFormed(items)
    ensures WellFormed(RemovedItems(items, id))
    ensures Count(RemovedItems(items, id)) == Count(items) - if InCart(items, id) then 1 else 0
    ensures forall i :: 0 <= i < |items| && items[i].product.id == id ==>
      Total(RemovedItems(items, id)) == Total(items) - items[i].product.priceCents
    ensures !InCart(items, id) ==> Total(RemovedItems(items, id)) == Total(items)
  {
    RemovePreservesWellFormed(items, id);
    match LineIndex(items, id)
    case Some(j) =>
      RemovePresentSums(items, j);
      assert InCart(items, id) by {
        assert items[j].product.id == id;
      }
      forall i | 0 <= i < |items| && items[i].product.id == id
        ensures items[i] == items[j]
      {
        OneLinePerId(items, i, j);
      }
    case None =>
      RemoveAbsent(items, id);
  }

  lemma OneLinePerId(items: seq<CartItem>, i: nat, j: nat)
    requires DistinctLines(items)
    requires i < |items| && j < |items| && items[i].product.id == items[j].product.id
    ensures i == j
  {
  }

  /** Adding the same product twice to an empty cart gives one line of quantity 2. */
  lemma AddTwiceFromEmpty(p: Product)
    ensures AddedItems(AddedItems([], p), p) == [CartItem(p, 2)]
    ensures Count(AddedItems(AddedItems([], p), p)) == 2
    ensures Total(AddedItems(AddedItems([], p), p)) == 2 * p.priceCents
  {
    var once := AddedItems([], p);
    assert once == [CartItem(p, 1)];
    assert LineIndex(once, p.id) == Some(0);
  }

  // ---------------------------------------------------------------------------
  // The provider's state

  /**
    The cart provider: `items`, the derived `cartCount` and `cartTotal`, and
    `slot`, the value stored under the local-storage key 'cart'.
   */
  class CartStore {
    var items: seq<CartItem>
    var cartCount: int
    var cartTotal: int
    var slot: Option<StoredCart>

    /** The effect on `items` has run: count, total and storage all agree with the lines. */
    ghost predicate Valid()
      reads this
    {
      cartCount == Count(items) && cartTotal == Total(items) && slot == Saved(items)
    }

    /** Mount: read the 'cart' key once; a value that does not parse leaves the cart empty. */
    constructor Load(stored: Option<StoredCart>)
      ensures Valid()
      ensures items == Loaded(stored)
      ensures stored.Some? && stored.value.Corrupt? ==> items == [] && slot.None?
    {
      items := [];
      cartCount := 0;
      cartTotal := 0;
      slot := stored;
      new;
      Commit(Loaded(stored));
    }

    /** `setItems` followed by the effect that watches `items`. */
    method Commit(next: seq<CartItem>)
      modifies this
      ensures Valid()
      ensures items == next
    {
      items := next;
      if |items| > 0 {
        slot := Some(Serialized(items));
      } else {
        slot := None;
      }
      cartCount := Count(items);
      cartTotal := Total(items);
    }

    method AddItem(product: Product)
      requires Valid()
      modifies this
      ensures Valid()
      ensures items == AddedItems(old(items), product)
      ensures WellFormed(old(items)) ==> WellFormed(items) && cartCount == old(cartCount) + 1
      ensures WellFormed(old(items)) && (forall l :: l in old(items) && l.product.id == product.id ==> l.product == product) ==>
        cartTotal == old(cartTotal) + product.priceCents
    {
      if WellFormed(items) {
        AddSums(items, product);
      }
      Commit(AddedItems(items, product));
    }

    method RemoveItem(productId: string)
      requires Valid()
      modifies this
      ensures Valid()
      ensures items == RemovedItems(old(items), productId)
      ensures WellFormed(old(items)) ==>
        WellFormed(items) && cartCount == old(cartCount) - if InCart(old(items), productId) then 1 else 0
      ensures WellFormed(old(items)) ==> forall i :: 0 <= i < |old(items)| && old(items)[i].product.id == productId ==>
        cartTotal == old(cartTotal) - old(items)[i].product.priceCents
      ensures !InCart(old(items), productId) ==>
        items == old(items) && cartCount == old(cartCount) && cartTotal == old(cartTotal)
    {
      if WellFormed(items) {
        RemoveSums(items, productId);
      }
      if !InCart(items, productId) {
        RemoveAbsent(items, productId);
      }
      Commit(RemovedItems(items, productId));
    }

    method ClearCart()
      modifies this
      ensures Valid()
      ensures items == [] && cartCount == 0 && cartTotal == 0 && slot.None?
    {
      Commit([]);
    }

    /** The product page's "already in cart" flag. */
    method IsInCart(productId: string) returns (b: bool)
      ensures b <==> exists i :: 0 <= i < |items| && items[i].product.id == productId
    {
      b := InCart(items, productId);
    }
  }
}
