/**
 * The shopping cart as values: the line items held by the cart page, the
 * list transforms its handlers apply (quantity update, removal), the order
 * total and the checkout payload.  Money is an integer number of cents.
 *
 * Nothing on the cart page forces product ids to be distinct, so no function
 * here assumes it; `UniqueIds` is stated as an invariant the transforms keep.
 */
module Cart {
  import opened Wrappers

  /** Stands for the product's `_id` value; ids are only ever compared for equality. */
  type ProductId = int

  /** One line of the cart, as stored under the "cart" key. */
  datatype CartItem = CartItem(productId: ProductId, name: string, price: int, quantity: int)

  /** One entry of the order request: the fields of a line that checkout sends. */
  datatype OrderLine = OrderLine(productId: ProductId, quantity: int, price: int)

  /** The product ids that occur on some line. */
  function Ids(items: seq<CartItem>): (r: set<ProductId>)
  {
    set x | x in items :: x.productId
  }

  /** No product occurs on two lines. */
  predicate UniqueIds(items: seq<CartItem>)
  {
    forall i, j :: 0 <= i < j < |items| ==> items[i].productId != items[j].productId
  }

  /** Every line has a quantity of at least one. */
  predicate QuantitiesPositive(items: seq<CartItem>)
  {
    forall x :: x in items ==> x.quantity >= 1
  }

  /** No line has a negative price. */
  predicate PricesNonNegative(items: seq<CartItem>)
  {
    forall x :: x in items ==> x.price >= 0
  }

  /**
   * The cart read back from storage.  An absent key reads as the empty cart
   * (the `|| "[]"` fallback); otherwise what was stored is what is read.
   */
  function Load(stored: Option<seq<CartItem>>): (r: seq<CartItem>)
    ensures stored.None? ==> r == []
    ensures stored.Some? ==> r == stored.value
  {
    match stored
    case None => []
    case Some(s) => s
  }

  /**
   * The cart after every line of product `p` gets quantity `q`: same length,
   * same order, same ids, names and prices; matching lines carry `q` and
   * every other line keeps its quantity.
   */
  function SetQuantity(items: seq<CartItem>, p: ProductId, q: int): (r: seq<CartItem>)
    ensures |r| == |items|
    ensures forall i :: 0 <= i < |items| ==>
      r[i].productId == items[i].productId && r[i].name == items[i].name && r[i].price == items[i].price
    ensures forall i :: 0 <= i < |items| ==>
      r[i].quantity == (if items[i].productId == p then q else items[i].quantity)
  {
    if items == [] then []
    else
      var head := if items[0].productId == p then items[0].(quantity := q) else items[0];
      [head] + SetQuantity(items[1..], p, q)
  }

  /**
   * The cart without the lines of product `p`: the length never grows and no
   * line of `p` remains.  `RemoveMembers`, `RemoveAppend` and `RemoveLength`
   * say which lines are kept and in what order.
   */
  function Remove(items: seq<CartItem>, p: ProductId): (r: seq<CartItem>)
    ensures |r| <= |items|
    ensures forall i :: 0 <= i < |r| ==> r[i].productId != p
  {
    if items == [] then []
    else if items[0].productId == p then Remove(items[1..], p)
    else [items[0]] + Remove(items[1..], p)
  }

  /** The lines of product `p`, in order: what `Remove` drops. */
  function WithId(items: seq<CartItem>, p: ProductId): (r: seq<CartItem>)
    ensures |r| <= |items|
    ensures forall i :: 0 <= i < |r| ==> r[i].productId == p
  {
    if items == [] then []
    else if items[0].productId == p then [items[0]] + WithId(items[1..], p)
    else WithId(items[1..], p)
  }

  function LineTotal(item: CartItem): (r: int)
  {
    item.price * item.quantity
  }

  /**
   * Sum of price × quantity over the cart, accumulated from the first line to
   * the last; 0 for the empty cart.
   */
  function Total(items: seq<CartItem>): (t: int)
    ensures items == [] ==> t == 0
  {
    if items == [] then 0
    else Total(items[..|items| - 1]) + LineTotal(items[|items| - 1])
  }

  /** Sum of the prices of the given lines. */
  function PriceSum(items: seq<CartItem>): (r: int)
  {
    if items == [] then 0 else items[0].price + PriceSum(items[1..])
  }

  /**
   * The `items` of the order request: one entry per line, in cart order,
   * carrying that line's id, quantity and price and nothing else.
   */
  function Payload(items: seq<CartItem>): (r: seq<OrderLine>)
    ensures |r| == |items|
    ensures forall i :: 0 <= i < |items| ==>
      r[i].productId == items[i].productId && r[i].quantity == items[i].quantity && r[i].price == items[i].price
  {
    if items == [] then []
    else [OrderLine(items[0].productId, items[0].quantity, items[0].price)] + Payload(items[1..])
  }

  /** What an order request is worth: sum of price × quantity over its entries. */
  function OrderTotal(lines: seq<OrderLine>): (r: int)
  {
    if lines == [] then 0 else lines[0].price * lines[0].quantity + OrderTotal(lines[1..])
  }

  // ---------------------------------------------------------------------------
  // Sums

  lemma {:induction false} TotalAppend(a: seq<CartItem>, b: seq<CartItem>)
    ensures Total(a + b) == Total(a) + Total(b)
    decreases |b|
  {
    if b == [] {
      assert a + b == a;
    } else {
      var ab := a + b;
      assert ab[..|ab| - 1] == a + b[..|b| - 1];
      assert ab[|ab| - 1] == b[|b| - 1];
      TotalAppend(a, b[..|b| - 1]);
    }
  }

  /** The total is never negative when prices are non-negative and quantities positive. */
  lemma {:induction false} TotalNonNegative(items: seq<CartItem>)
    requires PricesNonNegative(items) && QuantitiesPositive(items)
    ensures Total(items) >= 0
  {
    if items != [] {
      var init, last := items[..|items| - 1], items[|items| - 1];
      assert last in items;
      assert forall x :: x in init ==> x in items;
      TotalNonNegative(init);
      assert LineTotal(last) >= 0;
    }
  }

  /** The left-to-right accumulation equals summing from the front. */
  lemma TotalCons(x: CartItem, s: seq<CartItem>)
    ensures Total([x] + s) == LineTotal(x) + Total(s)
  {
    TotalAppend([x], s);
    assert [x][..0] == [];
  }

  /** Removing `p` lowers the total by exactly the total of the lines of `p`. */
  lemma {:induction false} TotalAfterRemove(items: seq<CartItem>, p: ProductId)
    ensures Total(items) == Total(Remove(items, p)) + Total(WithId(items, p))
  {
    if items != [] {
      var x, rest := items[0], items[1..];
      assert items == [x] + rest;
      TotalAfterRemove(rest, p);
      TotalCons(x, rest);
      if x.productId == p {
        TotalCons(x, WithId(rest, p));
      } else {
        TotalCons(x, Remove(rest, p));
      }
    }
  }

  /**
   * After setting the quantity of `p` to `q`, the total is the total of the
   * other lines plus `q` times the prices of the lines of `p`.
   */
  lemma {:induction false} TotalAfterSetQuantity(items: seq<CartItem>, p: ProductId, q: int)
    ensures Total(SetQuantity(items, p, q)) == Total(Remove(items, p)) + q * PriceSum(WithId(items, p))
  {
    if items != [] {
      var x, rest := items[0], items[1..];
      var head := if x.productId == p then x.(quantity := q) else x;
      assert SetQuantity(items, p, q) == [head] + SetQuantity(rest, p, q);
      TotalAfterSetQuantity(rest, p, q);
      TotalCons(head, SetQuantity(rest, p, q));
      if x.productId == p {
        var w := PriceSum(WithId(rest, p));
        var ps := PriceSum(WithId(items, p));
        assert WithId(items, p) == [x] + WithId(rest, p);
        assert ps == x.price + w;
        assert Remove(items, p) == Remove(rest, p);
        Distribute(q, ps, x.price, w);
      } else {
        assert Remove(items, p) == [x] + Remove(rest, p);
        assert WithId(items, p) == WithId(rest, p);
        TotalCons(x, Remove(rest, p));
      }
    } else {
      assert PriceSum(WithId(items, p)) == 0;
      assert q * 0 == 0;
    }
  }

  lemma Distribute(q: int, s: int, a: int, b: int)
    requires s == a + b
    ensures q * s == q * a + q * b
  {
  }

  /** The order request is worth exactly the cart total shown to the user. */
  lemma {:induction false} PayloadTotal(items: seq<CartItem>)
    ensures OrderTotal(Payload(items)) == Total(items)
  {
    if items != [] {
      assert items == [items[0]] + items[1..];
      PayloadTotal(items[1..]);
      TotalCons(items[0], items[1..]);
    }
  }

  // ---------------------------------------------------------------------------
  // Removal

  /** A line survives removal exactly when it was in the cart and is not a line of `p`. */
  lemma {:induction false} RemoveMembers(items: seq<CartItem>, p: ProductId)
    ensures forall x :: x in Remove(items, p) <==> x in items && x.productId != p
  {
    if items != [] {
      RemoveMembers(items[1..], p);
      assert items == [items[0]] + items[1..];
    }
  }

  /** After removal the cart holds the same product ids, less `p`. */
  lemma RemoveIds(items: seq<CartItem>, p: ProductId)
    ensures Ids(Remove(items, p)) == Ids(items) - {p}
  {
    RemoveMembers(items, p);
  }

  /** Removing a product that is not in the cart changes nothing. */
  lemma {:induction false} RemoveAbsent(items: seq<CartItem>, p: ProductId)
    requires p !in Ids(items)
    ensures Remove(items, p) == items
  {
    if items != [] {
      assert items[0] in items;
      assert Ids(items[1..]) <= Ids(items);
      RemoveAbsent(items[1..], p);
      assert items == [items[0]] + items[1..];
    }
  }

  /** Removing the same product twice is the same as removing it once. */
  lemma {:induction false} RemoveIdempotent(items: seq<CartItem>, p: ProductId)
    ensures Remove(Remove(items, p), p) == Remove(items, p)
  {
    RemoveAbsent(Remove(items, p), p);
  }

  /** Removal works line by line: it keeps the order of what it keeps. */
  lemma {:induction false} RemoveAppend(a: seq<CartItem>, b: seq<CartItem>, p: ProductId)
    ensures Remove(a + b, p) == Remove(a, p) + Remove(b, p)
  {
    if a != [] {
      assert (a + b)[0] == a[0];
      assert (a + b)[1..] == a[1..] + b;
      RemoveAppend(a[1..], b, p);
    } else {
      assert a + b == b;
    }
  }

  /**
   * Removal splits the cart: the lines it keeps and the lines of `p` together
   * are exactly the cart's lines, so `WithId` holds the cart's own lines of `p`.
   */
  lemma {:induction false} RemovePartition(items: seq<CartItem>, p: ProductId)
    ensures multiset(Remove(items, p)) + multiset(WithId(items, p)) == multiset(items)
  {
    if items != [] {
      RemovePartition(items[1..], p);
      assert items == [items[0]] + items[1..];
    }
  }

  /** A cart splits into the lines removal keeps and the lines it drops. */
  lemma {:induction false} RemoveLength(items: seq<CartItem>, p: ProductId)
    ensures |Remove(items, p)| + |WithId(items, p)| == |items|
  {
    if items != [] {
      RemoveLength(items[1..], p);
    }
  }

  /** Removal keeps distinct product ids distinct. */
  lemma {:induction false} RemoveKeepsUnique(items: seq<CartItem>, p: ProductId)
    requires UniqueIds(items)
    ensures UniqueIds(Remove(items, p))
  {
    if items != [] {
      var x, rest := items[0], items[1..];
      assert UniqueIds(rest) by {
        forall i, j | 0 <= i < j < |rest|
          ensures rest[i].productId != rest[j].productId
        {
          assert rest[i] == items[i + 1] && rest[j] == items[j + 1];
        }
      }
      RemoveKeepsUnique(rest, p);
      if x.productId != p {
        var r := Remove(rest, p);
        RemoveMembers(rest, p);
        forall y | y in r ensures y.productId != x.productId {
          assert y in rest;
          var k :| 0 <= k < |rest| && rest[k] == y;
          assert items[k + 1] == y;
        }
        assert [x] + r == Remove(items, p);
        forall i, j | 0 <= i < j < |[x] + r|
          ensures ([x] + r)[i].productId != ([x] + r)[j].productId
        {
          if i == 0 {
            assert ([x] + r)[j] == r[j - 1];
            assert r[j - 1] in r;
          } else {
            assert ([x] + r)[i] == r[i - 1] && ([x] + r)[j] == r[j - 1];
          }
        }
      }
    }
  }

  // ---------------------------------------------------------------------------
  // Quantity update

  /** Updating the quantity never adds or drops a product id. */
  lemma SetQuantityIds(items: seq<CartItem>, p: ProductId, q: int)
    ensures Ids(SetQuantity(items, p, q)) == Ids(items)
  {
  }


  /** Updating the quantity keeps distinct product ids distinct. */
  lemma SetQuantityKeepsUnique(items: seq<CartItem>, p: ProductId, q: int)
    requires UniqueIds(items)
    ensures UniqueIds(SetQuantity(items, p, q))
  {
  }

  /** An update with a quantity of at least one keeps every quantity positive. */
  lemma SetQuantityKeepsPositive(items: seq<CartItem>, p: ProductId, q: int)
    requires QuantitiesPositive(items) && q >= 1
    ensures QuantitiesPositive(SetQuantity(items, p, q))
  {
    var r := SetQuantity(items, p, q);
    forall y | y in r ensures y.quantity >= 1 {
      var k :| 0 <= k < |r| && r[k] == y;
      assert items[k] in items;
    }
  }

  /** Setting the same quantity twice is the same as setting it once. */
  lemma SetQuantityIdempotent(items: seq<CartItem>, p: ProductId, q: int)
    ensures SetQuantity(SetQuantity(items, p, q), p, q) == SetQuantity(items, p, q)
  {
  }

  /** Updating a product that is not in the cart changes nothing. */
  lemma SetQuantityAbsent(items: seq<CartItem>, p: ProductId, q: int)
    requires p !in Ids(items)
    ensures SetQuantity(items, p, q) == items
  {
    forall i | 0 <= i < |items| ensures SetQuantity(items, p, q)[i] == items[i] {
      assert items[i] in items;
    }
  }

  /** Removing a product after updating its quantity is the same as removing it. */
  lemma {:induction false} RemoveAfterSetQuantity(items: seq<CartItem>, p: ProductId, q: int)
    ensures Remove(SetQuantity(items, p, q), p) == Remove(items, p)
  {
    if items != [] {
      var x, rest := items[0], items[1..];
      var head := if x.productId == p then x.(quantity := q) else x;
      assert SetQuantity(items, p, q) == [head] + SetQuantity(rest, p, q);
      RemoveAfterSetQuantity(rest, p, q);
      RemoveAppend([head], SetQuantity(rest, p, q), p);
    }
  }

  /** The worked example: one line of price 10 and quantity 2. */
  lemma WorkedExample()
    ensures var cart := [CartItem(1, "A", 10, 2)];
      Total(SetQuantity(cart, 1, 3)) == 30 &&
      Remove(SetQuantity(cart, 1, 3), 1) == [] &&
      Total(Remove(SetQuantity(cart, 1, 3), 1)) == 0
  {
    var cart := [CartItem(1, "A", 10, 2)];
    var updated := SetQuantity(cart, 1, 3);
    assert updated == [CartItem(1, "A", 10, 3)];
    assert Total(updated) == Total([]) + 30;
  }
}
