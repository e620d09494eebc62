/**
 * The navigation bar: the cart badge count, derived from the stored cart, and
 * which links are shown for the current user.
 */
module Navbar {
  import opened Wrappers
  import opened Cart

  /** The logged-in user as the bar sees it. */
  datatype User = User(name: string, role: string)

  /** One element of the link group, in the order the bar lays them out. */
  datatype NavEntry =
    | ProductsLink
    | CartLink(badge: Option<int>)
    | OrdersLink
    | ReportsLink
    | Greeting(name: string)
    | LogoutButton
    | LoginLink
    | RegisterLink

  /**
   * Sum of the quantities, accumulated from the first line to the last; 0 for
   * the empty cart.
   */
  function QuantitySum(items: seq<CartItem>): (n: int)
    ensures items == [] ==> n == 0
  {
    if items == [] then 0
    else QuantitySum(items[..|items| - 1]) + items[|items| - 1].quantity
  }

  /** When every quantity is positive, the count is at least the number of lines. */
  lemma {:induction false} QuantitySumAtLeastLength(items: seq<CartItem>)
    requires QuantitiesPositive(items)
    ensures QuantitySum(items) >= |items|
  {
    if items != [] {
      var init := items[..|items| - 1];
      assert items[|items| - 1] in items;
      assert forall x :: x in init ==> x in items;
      QuantitySumAtLeastLength(init);
    }
  }

  /** The badge count: the quantities of the stored cart, 0 when the key is absent. */
  function CartCount(stored: Option<seq<CartItem>>): (n: int)
    ensures stored.None? ==> n == 0
    ensures stored.Some? && QuantitiesPositive(stored.value) ==> (n > 0 <==> stored.value != [])
  {
    assert stored.Some? && QuantitiesPositive(stored.value) ==> QuantitySum(stored.value) >= |stored.value| by {
      if stored.Some? && QuantitiesPositive(stored.value) {
        QuantitySumAtLeastLength(stored.value);
      }
    }
    QuantitySum(Load(stored))
  }

  /** The badge on the Cart link: shown, with the count, only when the count is positive. */
  function Badge(count: int): (b: Option<int>)
    ensures b.Some? <==> count > 0
    ensures b.Some? ==> b.value == count
  {
    if count > 0 then Some(count) else None
  }

  predicate IsAdmin(user: Option<User>)
  {
    user.Some? && user.value.role == "admin"
  }

  /** True when the entries carry a Cart link with a visible badge. */
  predicate ShowsBadge(entries: seq<NavEntry>)
  {
    exists i :: 0 <= i < |entries| && entries[i].CartLink? && entries[i].badge.Some?
  }

  /**
   * The link group for `user` and badge count `count`.  Logged out: exactly
   * Products, Login, Register.  Logged in: Products, Cart, My Orders, Reports
   * for admins only, the greeting and Logout.
   */
  function NavEntries(user: Option<User>, count: int): (r: seq<NavEntry>)
    ensures user.None? ==> r == [ProductsLink, LoginLink, RegisterLink]
    ensures user.Some? ==>
      |r| >= 5 && r[..3] == [ProductsLink, CartLink(Badge(count)), OrdersLink] &&
      r[|r| - 2..] == [Greeting(user.value.name), LogoutButton]
    ensures user.Some? ==> |r| == (if IsAdmin(user) then 6 else 5)
    ensures ReportsLink in r <==> IsAdmin(user)
    ensures ShowsBadge(r) <==> user.Some? && count > 0
    ensures LoginLink in r <==> user.None?
  {
    match user
    case None => [ProductsLink, LoginLink, RegisterLink]
    case Some(u) =>
      var r := [ProductsLink, CartLink(Badge(count)), OrdersLink]
        + (if u.role == "admin" then [ReportsLink] else [])
        + [Greeting(u.name), LogoutButton];
      assert r[1].CartLink? && r[1].badge == Badge(count);
      r
  }

  // ---------------------------------------------------------------------------
  // The count and the cart operations

  lemma {:induction false} QuantitySumAppend(a: seq<CartItem>, b: seq<CartItem>)
    ensures QuantitySum(a + b) == QuantitySum(a) + QuantitySum(b)
    decreases |b|
  {
    if b == [] {
      assert a + b == a;
    } else {
      var ab := a + b;
      assert ab[..|ab| - 1] == a + b[..|b| - 1];
      assert ab[|ab| - 1] == b[|b| - 1];
      QuantitySumAppend(a, b[..|b| - 1]);
    }
  }

  /** Removing `p` lowers the count by exactly the quantities of its lines. */
  lemma {:induction false} CountAfterRemove(items: seq<CartItem>, p: ProductId)
    ensures QuantitySum(items) == QuantitySum(Remove(items, p)) + QuantitySum(WithId(items, p))
  {
    if items != [] {
      var x, rest := items[0], items[1..];
      assert items == [x] + rest;
      CountAfterRemove(rest, p);
      QuantitySumAppend([x], rest);
      if x.productId == p {
        QuantitySumAppend([x], WithId(rest, p));
      } else {
        QuantitySumAppend([x], Remove(rest, p));
      }
    }
  }

  /** After setting the quantity of `p` to `q`, each line of `p` contributes exactly `q`. */
  lemma {:induction false} CountAfterSetQuantity(items: seq<CartItem>, p: ProductId, q: int)
    ensures QuantitySum(SetQuantity(items, p, q)) == QuantitySum(Remove(items, p)) + q * |WithId(items, p)|
  {
    if items != [] {
      var x, rest := items[0], items[1..];
      var head := if x.productId == p then x.(quantity := q) else x;
      assert SetQuantity(items, p, q) == [head] + SetQuantity(rest, p, q);
      CountAfterSetQuantity(rest, p, q);
      QuantitySumAppend([head], SetQuantity(rest, p, q));
      if x.productId == p {
        var n := |WithId(rest, p)|;
        assert WithId(items, p) == [x] + WithId(rest, p);
        assert Remove(items, p) == Remove(rest, p);
        Distribute(q, |WithId(items, p)|, 1, n);
      } else {
        assert Remove(items, p) == [x] + Remove(rest, p);
        assert WithId(items, p) == WithId(rest, p);
        QuantitySumAppend([x], Remove(rest, p));
      }
    } else {
      assert q * 0 == 0;
    }
  }

  /** A placed order removes the key, so the badge count read next is 0 and no badge is shown. */
  lemma CountAfterCheckout(user: Option<User>)
    ensures CartCount(None) == 0
    ensures !ShowsBadge(NavEntries(user, CartCount(None)))
  {
  }

  /**
   * With positive quantities, a logged-in user sees the badge exactly when the
   * stored cart has a line.
   */
  lemma BadgeIffNonEmpty(u: User, stored: Option<seq<CartItem>>)
    requires QuantitiesPositive(Load(stored))
    ensures ShowsBadge(NavEntries(Some(u), CartCount(stored))) <==> Load(stored) != []
  {
    QuantitySumAtLeastLength(Load(stored));
  }
}
