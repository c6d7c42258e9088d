/**
  The wishlist provider. The signed-in user's wishlist lives in the backend
  table `wishlist_items` as `(user_id, product_id)` rows; the provider keeps a
  local copy, `wishlist`, that only `fetchWishlist` and the sign-out branch of
  the user effect ever assign. Adding and removing send one insert or delete
  and a toast, and leave the local copy to the next fetch.

  The backend is not modelled: each query's reply is an input, and each
  insert or delete appears as the row it would send.
 */
module Wishlist {
  import opened Seqs
  import opened Types
  import Catalog

  /** A `wishlist_items` row as the insert and the delete address it. */
  datatype WishlistRow = WishlistRow(userId: string, productId: string)

  /**
    `productIds.map(getProductById).filter(Boolean)` over `catalog`: each
    fetched id looked up in turn, ids with no product dropped.
   */
  function ResolveIn(catalog: seq<Product>, ids: seq<string>): (r: seq<Product>)
    ensures |r| <= |ids|
    decreases |ids|
  {
    if ids == [] then [] else Lookup(catalog, ids[0]) + ResolveIn(catalog, ids[1..])
  }

  /** One id through `getProductById`, kept by `filter(Boolean)` only when it resolved. */
  function Lookup(catalog: seq<Product>, id: string): seq<Product>
  {
    match Catalog.FindById(catalog, id)
    case Some(p) => [p]
    case None => []
  }

  /**
    The projection keeps at most one product per row, every product it keeps
    is in the catalog and was asked for, and every id that names a product
    brings that product in.
   */
  lemma {:induction false} ResolveMembers(catalog: seq<Product>, ids: seq<string>)
    ensures |ResolveIn(catalog, ids)| <= |ids|
    ensures forall p :: p in ResolveIn(catalog, ids) ==> p in catalog && p.id in ids
    ensures forall id :: id in ids && Catalog.FindById(catalog, id).Some? ==>
      Catalog.FindById(catalog, id).value in ResolveIn(catalog, ids)
    decreases |ids|
  {
    if ids != [] {
      ResolveMembers(catalog, ids[1..]);
      assert ids == [ids[0]] + ids[1..];
    }
  }

  /** The projection respects the order of the rows: resolving two batches is resolving each in turn. */
  lemma {:induction false} ResolveConcat(catalog: seq<Product>, a: seq<string>, b: seq<string>)
    ensures ResolveIn(catalog, a + b) == ResolveIn(catalog, a) + ResolveIn(catalog, b)
    decreases |a|
  {
    if a == [] {
      assert a + b == b;
    } else {
      var head := Lookup(catalog, a[0]);
      calc {
        ResolveIn(catalog, a + b);
        { assert (a + b)[0] == a[0];
          assert (a + b)[1..] == a[1..] + b; }
        head + ResolveIn(catalog, a[1..] + b);
        { ResolveConcat(catalog, a[1..], b); }
        head + (ResolveIn(catalog, a[1..]) + ResolveIn(catalog, b));
        (head + ResolveIn(catalog, a[1..])) + ResolveIn(catalog, b);
      }
    }
  }

  /** When every fetched id names a product, nothing is dropped and the i-th product has the i-th id. */
  lemma {:induction false} ResolveAllFound(catalog: seq<Product>, ids: seq<string>)
    requires forall i :: 0 <= i < |ids| ==> Catalog.FindById(catalog, ids[i]).Some?
    ensures |ResolveIn(catalog, ids)| == |ids|
    ensures forall i :: 0 <= i < |ids| ==> ResolveIn(catalog, ids)[i].id == ids[i]
    decreases |ids|
  {
    if ids != [] {
      ResolveAllFound(catalog, ids[1..]);
      assert Catalog.FindById(catalog, ids[0]).Some?;
      var r := ResolveIn(catalog, ids);
      forall i | 0 < i < |ids|
        ensures r[i].id == ids[i]
      {
        assert ids[1..][i - 1] == ids[i];
      }
    }
  }

  /** Rows whose ids name no product leave nothing behind. */
  lemma {:induction false} ResolveNoneFound(catalog: seq<Product>, ids: seq<string>)
    requires forall i :: 0 <= i < |ids| ==> Catalog.FindById(catalog, ids[i]).None?
    ensures ResolveIn(catalog, ids) == []
    decreases |ids|
  {
    if ids != [] {
      assert Catalog.FindById(catalog, ids[0]).None?;
      ResolveNoneFound(catalog, ids[1..]);
    }
  }

  /**
    The outcome of `fetchWishlist` once a user is signed in: a reply that carries
    an error, or no rows at all (the `map` on null throws), is caught and the
    list kept; otherwise the list becomes the resolved rows.
   */
  function Fetched(catalog: seq<Product>, current: seq<Product>, reply: Response<seq<string>>): (r: seq<Product>)
    ensures reply.error.Some? || reply.data.None? ==> r == current
    ensures reply.error.None? && reply.data.Some? ==> r == ResolveIn(catalog, reply.data.value)
  {
    if reply.error.Some? then current
    else if reply.data.None? then current
    else ResolveIn(catalog, reply.data.value)
  }

  /** `wishlist.some(product => product.id === productId)`. */
  function Contains(wishlist: seq<Product>, productId: string): (r: bool)
    ensures r <==> exists i :: 0 <= i < |wishlist| && wishlist[i].id == productId
  {
    var r := Any(wishlist, Catalog.HasId(productId));
    assert r <==> exists i :: 0 <= i < |wishlist| && wishlist[i].id == productId by {
      if r {
        var x :| x in wishlist && Catalog.HasId(productId)(x);
        var i :| 0 <= i < |wishlist| && wishlist[i] == x;
      }
      if exists i :: 0 <= i < |wishlist| && wishlist[i].id == productId {
        var i :| 0 <= i < |wishlist| && wishlist[i].id == productId;
        assert wishlist[i] in wishlist && Catalog.HasId(productId)(wishlist[i]);
      }
    }
    r
  }

  /** A product the fetch put in the list is reported as being in the wishlist. */
  lemma FetchedIsInWishlist(catalog: seq<Product>, ids: seq<string>, i: nat)
    requires i < |ids| && Catalog.FindById(catalog, ids[i]).Some?
    ensures Contains(ResolveIn(catalog, ids), ids[i])
  {
    var r := ResolveIn(catalog, ids);
    var p := Catalog.FindById(catalog, ids[i]).value;
    ResolveMembers(catalog, ids);
    assert ids[i] in ids;
    assert p in r;
    var k :| 0 <= k < |r| && r[k] == p;
  }

  /**
    The provider's state: the signed-in user's id (`user.id`), if any, and the
    local copy of the wishlist. `catalog` is the product list that
    `getProductById` searches.
   */
  class WishlistStore {
    const catalog: seq<Product>
    var user: Option<string>
    var wishlist: seq<Product>

    /** Before the auth state is known: no user and an empty list. */
    constructor ()
      ensures catalog == Catalog.Products
      ensures user.None? && wishlist == []
    {
      catalog := Catalog.Products;
      user := None;
      wishlist := [];
    }

    /**
      `fetchWishlist`, given the reply to the select on `wishlist_items`: without a
      user it returns at once, otherwise it applies `Fetched`.
     */
    method FetchWishlist(reply: Response<seq<string>>)
      modifies this
      ensures user == old(user)
      ensures old(user).None? ==> wishlist == old(wishlist)
      ensures old(user).Some? ==> wishlist == Fetched(catalog, old(wishlist), reply)
    {
      if user.None? {
        return;
      }
      if reply.error.Some? {
        return;
      }
      match reply.data
      case None =>
        return;
      case Some(rows) =>
        wishlist := ResolveIn(catalog, rows);
    }

    /**
      The effect on `user`: a signed-in user triggers a fetch (answered by
      `reply`); signing out empties the list.
     */
    method UserChanged(newUser: Option<string>, reply: Response<seq<string>>)
      modifies this
      ensures user == newUser
      ensures newUser.None? ==> wishlist == []
      ensures newUser.Some? ==> wishlist == Fetched(catalog, old(wishlist), reply)
    {
      user := newUser;
      if newUser.Some? {
        FetchWishlist(reply);
      } else {
        wishlist := [];
      }
    }

    /**
      `addToWishlist`: with no user, a sign-in toast and no insert; otherwise
      the insert of `(user, product)` and a toast saying how it went. The local
      list is not touched.
     */
    method AddToWishlist(product: Product, insertError: Option<string>) returns (insert: Option<WishlistRow>, toast: Toast)
      ensures user.None? ==> insert.None? && toast.destructive && toast.title == "Please sign in"
      ensures user.Some? ==> insert == Some(WishlistRow(user.value, product.id))
      ensures user.Some? && insertError.None? ==> !toast.destructive && toast.title == "Added to wishlist"
      ensures user.Some? && insertError.Some? ==> toast.destructive && toast.title == "Error"
    {
      if user.None? {
        insert := None;
        toast := Toast("Please sign in", "You need to be signed in to add items to your wishlist", true);
        return;
      }
      insert := Some(WishlistRow(user.value, product.id));
      if insertError.None? {
        toast := Toast("Added to wishlist", product.title + " has been added to your wishlist", false);
      } else {
        toast := Toast("Error", "Failed to add item to wishlist", true);
      }
    }

    /**
      `removeFromWishlist`: with no user, nothing at all; otherwise the delete
      of `(user, productId)` and a toast. The local list is not touched.
     */
    method RemoveFromWishlist(productId: string, deleteError: Option<string>) returns (delete: Option<WishlistRow>, toast: Option<Toast>)
      ensures user.None? ==> delete.None? && toast.None?
      ensures user.Some? ==> delete == Some(WishlistRow(user.value, productId)) && toast.Some?
      ensures user.Some? ==> (toast.value.destructive <==> deleteError.Some?)
    {
      if user.None? {
        return None, None;
      }
      delete := Some(WishlistRow(user.value, productId));
      if deleteError.None? {
        toast := Some(Toast("Removed from wishlist", "Item has been removed from your wishlist", false));
      } else {
        toast := Some(Toast("Error", "Failed to remove item from wishlist", true));
      }
    }

    /** `isInWishlist`: a query over the local list. */
    method IsInWishlist(productId: string) returns (b: bool)
      ensures b <==> exists i :: 0 <= i < |wishlist| && wishlist[i].id == productId
    {
      b := Contains(wishlist, productId);
    }
  }
}
