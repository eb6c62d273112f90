/**
 * The shopping cart: a list of line items, one per product id, changed in place by
 * add, remove and quantity update, with totals computed as left folds.
 */
module Cart {
  import opened Wrappers
  import opened Storage

  /** The storage key the cart is kept under. */
  const CartKey: string := "cartItems"

  /** One line of the cart; prices are whole cents. */
  datatype CartItem = CartItem(id: int, name: string, price: int, quantity: int, image: string)

  /** What `addToCart` is given: a missing or zero `quantity` means one. */
  datatype Product = Product(id: int, name: string, price: int, quantity: Option<int>, image: string)

  /** `product.quantity || 1`. */
  function AddedQuantity(p: Product): (q: int)
    ensures q != 0
    ensures p.quantity.Some? && p.quantity.value != 0 ==> q == p.quantity.value
    ensures p.quantity.None? || p.quantity.value == 0 ==> q == 1
  {
    match p.quantity
    case Some(q) => if q != 0 then q else 1
    case None => 1
  }

  /** The line `addToCart` pushes for a product not yet in the cart. */
  function NewLine(p: Product): CartItem {
    CartItem(p.id, p.name, p.price, AddedQuantity(p), p.image)
  }

  /** `findIndex`: the first position holding `id`, or -1. */
  function IndexOf(items: seq<CartItem>, id: int): (i: int)
    ensures -1 <= i < |items|
    ensures 0 <= i ==> items[i].id == id && forall j | 0 <= j < i :: items[j].id != id
    ensures i == -1 <==> forall j | 0 <= j < |items| :: items[j].id != id
  {
    if items == [] then -1
    else if items[0].id == id then 0
    else
      var k := IndexOf(items[1..], id);
      if k == -1 then -1 else k + 1
  }

  /** `isInCart(id)`: `some` item carries the id. */
  predicate Contains(items: seq<CartItem>, id: int) {
    exists j | 0 <= j < |items| :: items[j].id == id
  }

  /** No two lines share an id. */
  predicate IdsDistinct(items: seq<CartItem>) {
    forall i, j | 0 <= i < j < |items| :: items[i].id != items[j].id
  }

  /** The cart after `addToCart(p)`. */
  function AddedTo(items: seq<CartItem>, p: Product): seq<CartItem> {
    var i := IndexOf(items, p.id);
    if i >= 0 then items[i := items[i].(quantity := items[i].quantity + AddedQuantity(p))]
    else items + [NewLine(p)]
  }

  /** The cart after `removeFromCart(id)`. */
  function RemovedFrom(items: seq<CartItem>, id: int): seq<CartItem> {
    var i := IndexOf(items, id);
    if i >= 0 then items[..i] + items[i + 1..] else items
  }

  /** The cart after `updateQuantity(id, q)`. */
  function QuantityUpdated(items: seq<CartItem>, id: int, q: int): seq<CartItem> {
    var i := IndexOf(items, id);
    if i < 0 then items
    else if q <= 0 then RemovedFrom(items, id)
    else items[i := items[i].(quantity := q)]
  }

  /** `getCartTotal`: the sum of price times quantity, folded from the left. */
  function Total(items: seq<CartItem>): int {
    if items == [] then 0 else Total(items[..|items| - 1]) + items[|items| - 1].price * items[|items| - 1].quantity
  }

  /** `getCartCount` and `getTotalItems`: the sum of the quantities, folded from the left. */
  function Count(items: seq<CartItem>): int {
    if items == [] then 0 else Count(items[..|items| - 1]) + items[|items| - 1].quantity
  }

  /** The count splits over concatenation. */
  lemma {:induction false} CountConcat(a: seq<CartItem>, b: seq<CartItem>)
    ensures Count(a + b) == Count(a) + Count(b)
    decreases |b|
  {
    if b == [] {
      assert a + b == a;
    } else {
      assert (a + b)[..|a + b| - 1] == a + b[..|b| - 1];
      CountConcat(a, b[..|b| - 1]);
    }
  }

  /** Replacing one line's quantity changes the count by the difference. */
  lemma {:induction false} CountAfterSet(items: seq<CartItem>, i: int, q: int)
    requires 0 <= i < |items|
    ensures Count(items[i := items[i].(quantity := q)]) == Count(items) - items[i].quantity + q
  {
    var s := items[i := items[i].(quantity := q)];
    assert items == items[..i] + [items[i]] + items[i + 1..];
    assert s == items[..i] + [s[i]] + items[i + 1..];
    CountConcat(items[..i] + [items[i]], items[i + 1..]);
    CountConcat(items[..i], [items[i]]);
    CountConcat(items[..i] + [s[i]], items[i + 1..]);
    CountConcat(items[..i], [s[i]]);
  }

  /**
   * `addToCart(p)`: a product already present keeps the length and gains
   * `p.quantity || 1` on its first line, every other line unchanged; otherwise one
   * line is appended.
   */
  lemma {:induction false} AddEffect(items: seq<CartItem>, p: Product)
    ensures var r := AddedTo(items, p);
      && (Contains(items, p.id) ==>
            var i := IndexOf(items, p.id);
            |r| == |items| && r[i] == items[i].(quantity := items[i].quantity + AddedQuantity(p))
            && forall j | 0 <= j < |items| && j != i :: r[j] == items[j])
      && (!Contains(items, p.id) ==> r == items + [CartItem(p.id, p.name, p.price, AddedQuantity(p), p.image)])
      && Contains(r, p.id)
  {
    var r := AddedTo(items, p);
    var i := IndexOf(items, p.id);
    if i >= 0 {
      assert r[i].id == p.id;
    } else {
      assert r[|items|].id == p.id;
    }
  }

  /** After `addToCart(p)` the item count has grown by exactly `p.quantity || 1`. */
  lemma {:induction false} AddGrowsCount(items: seq<CartItem>, p: Product)
    ensures Count(AddedTo(items, p)) == Count(items) + AddedQuantity(p)
  {
    var i := IndexOf(items, p.id);
    if i >= 0 {
      CountAfterSet(items, i, items[i].quantity + AddedQuantity(p));
    } else {
      assert (items + [NewLine(p)])[..|items|] == items;
    }
  }

  /** The total splits over concatenation. */
  lemma {:induction false} TotalConcat(a: seq<CartItem>, b: seq<CartItem>)
    ensures Total(a + b) == Total(a) + Total(b)
    decreases |b|
  {
    if b == [] {
      assert a + b == a;
    } else {
      assert (a + b)[..|a + b| - 1] == a + b[..|b| - 1];
      TotalConcat(a, b[..|b| - 1]);
    }
  }

  /** The total is the lines before `i`, line `i`, and the lines after it. */
  lemma {:induction false} TotalAround(items: seq<CartItem>, i: int)
    requires 0 <= i < |items|
    ensures Total(items) == Total(items[..i]) + items[i].price * items[i].quantity + Total(items[i + 1..])
  {
    assert items == items[..i] + [items[i]] + items[i + 1..];
    TotalConcat(items[..i] + [items[i]], items[i + 1..]);
    TotalConcat(items[..i], [items[i]]);
    assert Total([items[i]]) == items[i].price * items[i].quantity by { assert [items[i]][..0] == []; }
  }

  /** Replacing one line's quantity changes the total by its price times the difference. */
  lemma {:induction false} TotalAfterSet(items: seq<CartItem>, i: int, q: int)
    requires 0 <= i < |items|
    ensures Total(items[i := items[i].(quantity := q)]) == Total(items) + items[i].price * (q - items[i].quantity)
  {
    var s := items[i := items[i].(quantity := q)];
    TotalAround(items, i);
    TotalAround(s, i);
    assert s[..i] == items[..i] && s[i + 1..] == items[i + 1..];
    assert items[i].price * q == items[i].price * items[i].quantity + items[i].price * (q - items[i].quantity);
  }

  /**
   * After `addToCart(p)` the total has grown by `p.quantity || 1` units at the line's price:
   * the price already in the cart for a present product, `p.price` for a new line.
   */
  lemma {:induction false} AddGrowsTotal(items: seq<CartItem>, p: Product)
    ensures var i := IndexOf(items, p.id);
      Total(AddedTo(items, p)) == Total(items) + (if i >= 0 then items[i].price else p.price) * AddedQuantity(p)
  {
    var i := IndexOf(items, p.id);
    if i >= 0 {
      TotalAfterSet(items, i, items[i].quantity + AddedQuantity(p));
    } else {
      assert (items + [NewLine(p)])[..|items|] == items;
    }
  }

  /** Adding keeps ids pairwise distinct. */
  lemma {:induction false} AddKeepsIdsDistinct(items: seq<CartItem>, p: Product)
    requires IdsDistinct(items)
    ensures IdsDistinct(AddedTo(items, p))
  {
    var i := IndexOf(items, p.id);
    var r := AddedTo(items, p);
    if i >= 0 {
      assert forall j | 0 <= j < |r| :: r[j].id == items[j].id;
    } else {
      assert forall j | 0 <= j < |items| :: r[j] == items[j];
    }
  }

  /** Removing the line at `i` lowers the count by its quantity. */
  lemma {:induction false} CountWithout(items: seq<CartItem>, i: int)
    requires 0 <= i < |items|
    ensures Count(items[..i] + items[i + 1..]) == Count(items) - items[i].quantity
  {
    var a, x, b := items[..i], items[i], items[i + 1..];
    assert items == (a + [x]) + b;
    CountConcat(a + [x], b);
    CountConcat(a, [x]);
    CountConcat(a, b);
    assert Count([x]) == x.quantity by {
      assert [x][..0] == [];
    }
  }

  /**
   * `removeFromCart(id)`: the first line with the id is gone, every other line kept in
   * order; an absent id changes nothing. With distinct ids the id is no longer in the cart.
   */
  lemma {:induction false} RemoveEffect(items: seq<CartItem>, id: int)
    ensures var r := RemovedFrom(items, id);
      && (!Contains(items, id) ==> r == items)
      && (Contains(items, id) ==>
            var i := IndexOf(items, id);
            |r| == |items| - 1 && r[..i] == items[..i] && r[i..] == items[i + 1..]
            && Count(r) == Count(items) - items[i].quantity)
      && (IdsDistinct(items) ==> !Contains(r, id))
  {
    var i := IndexOf(items, id);
    var r := RemovedFrom(items, id);
    if i >= 0 {
      CountWithout(items, i);
      assert r[..i] == items[..i];
      assert r[i..] == items[i + 1..];
      if IdsDistinct(items) {
        forall j | 0 <= j < |r|
          ensures r[j].id != id
        {
          if j >= i {
            assert r[j] == items[j + 1];
          } else {
            assert r[j] == items[j];
          }
        }
      }
    }
  }

  /** Removing keeps ids pairwise distinct. */
  lemma {:induction false} RemoveKeepsIdsDistinct(items: seq<CartItem>, id: int)
    requires IdsDistinct(items)
    ensures IdsDistinct(RemovedFrom(items, id))
  {
    var i := IndexOf(items, id);
    var r := RemovedFrom(items, id);
    if i >= 0 {
      forall a, b | 0 <= a < b < |r|
        ensures r[a].id != r[b].id
      {
        var a' := if a < i then a else a + 1;
        var b' := if b < i then b else b + 1;
        assert r[a] == items[a'] && r[b] == items[b'];
      }
    }
  }

  /**
   * `updateQuantity(id, q)`: an absent id changes nothing; `q <= 0` is exactly
   * `removeFromCart(id)`; otherwise only that line's quantity becomes `q`, and the
   * count moves by the difference.
   */
  lemma {:induction false} UpdateEffect(items: seq<CartItem>, id: int, q: int)
    ensures var r := QuantityUpdated(items, id, q);
      && (!Contains(items, id) ==> r == items)
      && (q <= 0 ==> r == RemovedFrom(items, id))
      && (Contains(items, id) && q > 0 ==>
            var i := IndexOf(items, id);
            |r| == |items| && r[i] == items[i].(quantity := q)
            && (forall j | 0 <= j < |items| && j != i :: r[j] == items[j])
            && Count(r) == Count(items) - items[i].quantity + q)
  {
    var i := IndexOf(items, id);
    if i >= 0 && q > 0 {
      CountAfterSet(items, i, q);
    }
  }

  /** Updating keeps ids pairwise distinct. */
  lemma {:induction false} UpdateKeepsIdsDistinct(items: seq<CartItem>, id: int, q: int)
    requires IdsDistinct(items)
    ensures IdsDistinct(QuantityUpdated(items, id, q))
  {
    var i := IndexOf(items, id);
    if i >= 0 {
      if q <= 0 {
        RemoveKeepsIdsDistinct(items, id);
      } else {
        var r := QuantityUpdated(items, id, q);
        assert forall j | 0 <= j < |r| :: r[j].id == items[j].id;
      }
    }
  }

  class ShoppingCart {
    var cartItems: seq<CartItem>
    const ls: LocalStorage

    /** The store as created from the list already decoded from storage. */
    constructor (storage: LocalStorage, initial: seq<CartItem>)
      ensures ls == storage && cartItems == initial
    {
      ls := storage;
      cartItems := initial;
    }

    /** `findIndex` over the current lines. */
    method FindIndex(id: int) returns (index: int)
      ensures index == IndexOf(cartItems, id)
    {
      index := 0;
      while index < |cartItems|
        invariant 0 <= index <= |cartItems|
        invariant forall j | 0 <= j < index :: cartItems[j].id != id
      {
        if cartItems[index].id == id {
          return;
        }
        index := index + 1;
      }
      index := -1;
    }

    /** `addToCart(product)`. */
    method AddToCart(p: Product)
      modifies this
      ensures cartItems == AddedTo(old(cartItems), p)
    {
      var i := FindIndex(p.id);
      if i >= 0 {
        cartItems := cartItems[i := cartItems[i].(quantity := cartItems[i].quantity + AddedQuantity(p))];
      } else {
        cartItems := cartItems + [CartItem(p.id, p.name, p.price, AddedQuantity(p), p.image)];
      }
    }

    /** `removeFromCart(productId)`. */
    method RemoveFromCart(id: int)
      modifies this
      ensures cartItems == RemovedFrom(old(cartItems), id)
    {
      var i := FindIndex(id);
      if i > -1 {
        cartItems := cartItems[..i] + cartItems[i + 1..];
      }
    }

    /** `updateQuantity(productId, quantity)`. */
    method UpdateQuantity(id: int, q: int)
      modifies this
      ensures cartItems == QuantityUpdated(old(cartItems), id, q)
    {
      var i := FindIndex(id);
      if i >= 0 {
        if q <= 0 {
          RemoveFromCart(id);
        } else {
          cartItems := cartItems[i := cartItems[i].(quantity := q)];
        }
      }
    }

    /** `clearCart`: an empty list, and the stored copy removed. */
    method ClearCart()
      modifies this, ls
      ensures cartItems == [] && ls.items == old(ls.items) - {CartKey}
    {
      cartItems := [];
      ls.RemoveItem(CartKey);
    }

    /** `getCartTotal`. */
    method GetCartTotal() returns (total: int)
      ensures total == Total(cartItems)
    {
      total := 0;
      var i := 0;
      while i < |cartItems|
        invariant 0 <= i <= |cartItems|
        invariant total == Total(cartItems[..i])
      {
        assert cartItems[..i + 1][..i] == cartItems[..i];
        total := total + cartItems[i].price * cartItems[i].quantity;
        i := i + 1;
      }
      assert cartItems[..i] == cartItems;
    }

    /** `getCartCount`. */
    method GetCartCount() returns (count: int)
      ensures count == Count(cartItems)
    {
      count := 0;
      var i := 0;
      while i < |cartItems|
        invariant 0 <= i <= |cartItems|
        invariant count == Count(cartItems[..i])
      {
        assert cartItems[..i + 1][..i] == cartItems[..i];
        count := count + cartItems[i].quantity;
        i := i + 1;
      }
      assert cartItems[..i] == cartItems;
    }

    /** `getTotalItems`: the same fold as `getCartCount`. */
    method GetTotalItems() returns (total: int)
      ensures total == Count(cartItems)
    {
      total := GetCartCount();
    }

    /** `isInCart(productId)`. */
    method IsInCart(id: int) returns (found: bool)
      ensures found <==> Contains(cartItems, id)
    {
      found := false;
      var i := 0;
      while i < |cartItems|
        invariant 0 <= i <= |cartItems|
        invariant found <==> exists j | 0 <= j < i :: cartItems[j].id == id
      {
        found := found || cartItems[i].id == id;
        i := i + 1;
      }
    }
  }
}
