/**
 * Wishlist membership: the flip shared by the search page and the
 * `useWishlist` hook, and the hook's request-outcome state machine.
 */
module Wishlist {
  import opened Wrappers
  import opened Catalog

  /** Remove `id` if present, add it if absent. */
  function Flip(w: set<string>, id: string): (r: set<string>)
    ensures id in r <==> id !in w
    ensures forall x :: x != id ==> (x in r <==> x in w)
  {
    if id in w then w - {id} else w + {id}
  }

  /** Flipping the same id twice restores the set. */
  lemma FlipTwice(w: set<string>, id: string)
    ensures Flip(Flip(w, id), id) == w
  {
  }

  datatype Action = Added | Removed

  /** The object `toggleWishlist` resolves to. */
  datatype ToggleResult = ToggleResult(success: bool, action: Option<Action>, message: string)

  const RemovedMessage := "Product removed from your wishlist"
  const AddedMessage := "Product added to your wishlist!"
  const FailedMessage := "This product is already in your wishlist!"

  /**
   * The result for a product whose id is or is not in the set when the call
   * starts, given whether the delete or post request succeeded.
   */
  function Outcome(w: set<string>, id: string, requestOk: bool): (r: ToggleResult)
    ensures r.success <==> requestOk
    ensures requestOk && id in w ==> r.action == Some(Removed) && r.message == RemovedMessage
    ensures requestOk && id !in w ==> r.action == Some(Added) && r.message == AddedMessage
    ensures !requestOk ==> r.action == None && r.message == FailedMessage
  {
    if !requestOk then ToggleResult(false, None, FailedMessage)
    else if id in w then ToggleResult(true, Some(Removed), RemovedMessage)
    else ToggleResult(true, Some(Added), AddedMessage)
  }

  /** The wishlist state of the hook. */
  class WishlistHook {
    var wishlist: set<string>

    constructor()
      ensures wishlist == {}
    {
      wishlist := {};
    }

    /**
     * Toggle `product`: the request is a delete when its id is in the set and
     * a post otherwise; `requestOk` is whether that request succeeded.
     */
    method Toggle(product: Product, requestOk: bool) returns (r: ToggleResult)
      modifies this
      ensures r == Outcome(old(wishlist), product.id, requestOk)
      ensures wishlist == if requestOk then Flip(old(wishlist), product.id) else old(wishlist)
    {
      var isInWishlist := product.id in wishlist;
      if !requestOk {
        return ToggleResult(false, None, FailedMessage);
      }
      if isInWishlist {
        wishlist := wishlist - {product.id};
        r := ToggleResult(true, Some(Removed), RemovedMessage);
      } else {
        wishlist := wishlist + {product.id};
        r := ToggleResult(true, Some(Added), AddedMessage);
      }
    }
  }

  /** A removal is reported exactly when the id was present and the request succeeded. */
  lemma OutcomeReportsMembership(w: set<string>, id: string, requestOk: bool)
    ensures Outcome(w, id, requestOk).action == Some(Removed) <==> requestOk && id in w
    ensures Outcome(w, id, requestOk).action == Some(Added) <==> requestOk && id !in w
  {
  }

  /** Two successful toggles of the same product restore the original set. */
  lemma TwoTogglesRestore(w: set<string>, id: string)
    ensures (var w1 := Flip(w, id); Flip(w1, id)) == w
    ensures Outcome(w, id, true).action != Outcome(Flip(w, id), id, true).action
  {
    FlipTwice(w, id);
  }
}
