/**
 * The cart page's state: the items it shows (component state), the copy kept
 * under the "cart" key of local storage, and the `loading` flag raised while
 * an order request is outstanding.  Loading copies storage into the page.
 * The quantity update and removal compute the new list with a pure function
 * of module Cart and write it to both places.  A placed order clears both
 * places; a failed one changes neither.
 */
module CartPage {
  import opened Wrappers
  import opened Cart

  /** The checkout button is enabled only when nothing is loading and the cart has a line. */
  function CheckoutEnabled(loading: bool, items: seq<CartItem>): (enabled: bool)
    ensures enabled <==> !loading && |items| > 0
    ensures enabled ==> |Payload(items)| > 0
  {
    !(loading || |items| == 0)
  }

  class CartStore {
    /** The `cartItems` state the page renders. */
    var items: seq<CartItem>
    /** The "cart" key of local storage; None when the key is absent. */
    var stored: Option<seq<CartItem>>
    /** True while an order request is outstanding. */
    var loading: bool

    /** The page and the storage agree: what is shown is what a load would read. */
    ghost predicate Synced()
      reads this
    {
      items == Load(stored)
    }

    /** A freshly mounted page: empty state, not loading, storage as found. */
    constructor (storage: Option<seq<CartItem>>)
      ensures items == [] && stored == storage && !loading
    {
      items := [];
      stored := storage;
      loading := false;
    }

    /** Reads the stored cart into the page; an absent key gives the empty cart. */
    method LoadCart()
      modifies this`items
      ensures items == Load(stored) && Synced()
      ensures stored.None? ==> items == []
    {
      items := Load(stored);
    }

    /**
     * A quantity below one is ignored: neither the page nor the storage changes.
     * Otherwise every line of `p` gets quantity `q`, and the storage holds the
     * new list.
     */
    method UpdateQuantity(p: ProductId, q: int)
      modifies this`items, this`stored
      ensures q < 1 ==> items == old(items) && stored == old(stored)
      ensures q >= 1 ==> items == SetQuantity(old(items), p, q) && stored == Some(items)
      ensures q >= 1 ==> Synced()
      ensures old(Synced()) ==> Synced()
      ensures old(QuantitiesPositive(items)) ==> QuantitiesPositive(items)
      ensures old(UniqueIds(items)) ==> UniqueIds(items)
      ensures Ids(items) == Ids(old(items))
    {
      if q < 1 {
        return;
      }
      if QuantitiesPositive(items) {
        SetQuantityKeepsPositive(items, p, q);
      }
      if UniqueIds(items) {
        SetQuantityKeepsUnique(items, p, q);
      }
      SetQuantityIds(items, p, q);
      var updated := SetQuantity(items, p, q);
      items := updated;
      stored := Some(updated);
    }

    /** Drops every line of `p` from the page, and the storage holds the new list. */
    method RemoveItem(p: ProductId)
      modifies this`items, this`stored
      ensures items == Remove(old(items), p) && stored == Some(items)
      ensures Synced()
      ensures p !in Ids(items) && Ids(items) == Ids(old(items)) - {p}
      ensures Total(old(items)) == Total(items) + Total(WithId(old(items), p))
      ensures old(QuantitiesPositive(items)) ==> QuantitiesPositive(items)
      ensures old(UniqueIds(items)) ==> UniqueIds(items)
    {
      if UniqueIds(items) {
        RemoveKeepsUnique(items, p);
      }
      RemoveMembers(items, p);
      RemoveIds(items, p);
      TotalAfterRemove(items, p);
      var updated := Remove(items, p);
      items := updated;
      stored := Some(updated);
    }

    /**
     * The first half of checkout, up to the order request: raises `loading`
     * and returns the request's items, built from the current cart.
     */
    method BeginCheckout() returns (order: seq<OrderLine>)
      modifies this`loading
      ensures loading
      ensures order == Payload(items)
      ensures OrderTotal(order) == Total(items)
    {
      loading := true;
      order := Payload(items);
      PayloadTotal(items);
    }

    /**
     * The second half of checkout, once the request has settled: on success
     * the storage key is removed and the page shows the empty cart; on failure
     * both are left as they are.  Either way `loading` drops.
     */
    method FinishCheckout(placed: bool)
      modifies this
      ensures !loading
      ensures placed ==> items == [] && stored == None
      ensures !placed ==> items == old(items) && stored == old(stored)
      ensures placed || old(Synced()) ==> Synced()
    {
      if placed {
        stored := None;
        items := [];
      }
      loading := false;
    }

    /**
     * The whole checkout with no other handler running while the request is
     * outstanding; `placed` is whether the order endpoint accepted it.
     */
    method Checkout(placed: bool) returns (order: seq<OrderLine>)
      modifies this
      ensures order == Payload(old(items))
      ensures OrderTotal(order) == Total(old(items))
      ensures !loading
      ensures placed ==> items == [] && stored == None && Load(stored) == []
      ensures !placed ==> items == old(items) && stored == old(stored)
    {
      order := BeginCheckout();
      FinishCheckout(placed);
    }
  }

  /**
   * The quantity buttons stay enabled while the order request is outstanding.
   * A change made then is not part of the request, and a placed order clears
   * the cart anyway, so the change is lost.
   */
  method UpdateDuringCheckout(store: CartStore, p: ProductId, q: int) returns (order: seq<OrderLine>)
    modifies store
    ensures order == Payload(old(store.items))
    ensures store.items == [] && store.stored == None && !store.loading
  {
    order := store.BeginCheckout();
    store.UpdateQuantity(p, q);
    store.FinishCheckout(true);
  }
}
