/**
 * The storefront's cart: the immutable updaters that `addToCart` and `updateQuantity` hand to the cart
 * state, the two totals shown in the cart, and the order-item rows built from the cart at checkout.
 */
module Cart {
  import opened Wrappers
  import opened Seqs
  import opened Supabase

  // ---------------------------------------------------------------- invariants

  /** No two lines of the cart are for the same product id. */
  predicate UniqueIds(cart: seq<CartItem>)
  {
    forall i, j :: 0 <= i < j < |cart| ==> cart[i].product.id != cart[j].product.id
  }

  /** Every line holds at least one unit, as the cart screen's buttons keep it. */
  predicate PositiveQuantities(cart: seq<CartItem>)
  {
    forall i :: 0 <= i < |cart| ==> cart[i].quantity >= 1
  }

  predicate HasLine(cart: seq<CartItem>, id: string)
  {
    exists i :: 0 <= i < |cart| && cart[i].product.id == id
  }

  /** A cart with unique ids, cut around line `k`: no line before or after is for `k`'s product. */
  lemma SplitAt(cart: seq<CartItem>, k: nat, a: seq<CartItem>, b: seq<CartItem>)
    requires UniqueIds(cart) && k < |cart|
    requires a == cart[..k] && b == cart[k + 1..]
    ensures cart == a + [cart[k]] + b
    ensures forall i :: 0 <= i < |a| ==> a[i].product.id != cart[k].product.id
    ensures forall i :: 0 <= i < |b| ==> b[i].product.id != cart[k].product.id
  {
    forall i | 0 <= i < |b| ensures b[i].product.id != cart[k].product.id {
      assert b[i] == cart[k + 1 + i];
    }
  }

  // ---------------------------------------------------------------- addToCart

  /** `cart.find(item => item.product.id === id)`. */
  function FindLine(cart: seq<CartItem>, id: string): (r: Option<CartItem>)
    ensures r.None? <==> !HasLine(cart, id)
    ensures r.Some? ==> r.value in cart && r.value.product.id == id
  {
    if cart == [] then None
    else if cart[0].product.id == id then Some(cart[0])
    else FindLine(cart[1..], id)
  }

  /** The `map` callback of `addToCart`: one more unit on the lines for `id`. */
  function IncrementFn(id: string): CartItem -> CartItem
  {
    (l: CartItem) => if l.product.id == id then l.(quantity := l.quantity + 1) else l
  }

  /**
   * The updater of `addToCart`: one more unit on the product's line if there is one, otherwise a new
   * line with one unit at the end. An existing line keeps the product value it was added with.
   */
  function AddToCart(cart: seq<CartItem>, product: Product): (r: seq<CartItem>)
    ensures UniqueIds(cart) ==> UniqueIds(r)
    ensures PositiveQuantities(cart) ==> PositiveQuantities(r)
    ensures HasLine(r, product.id)
  {
    if FindLine(cart, product.id).Some? then Map(cart, IncrementFn(product.id))
    else
      var r := cart + [CartItem(product, 1)];
      assert r[|cart|].product.id == product.id;
      r
  }

  /** A product not yet in the cart gets exactly one new line, with one unit, at the end. */
  lemma AddToCartNew(cart: seq<CartItem>, product: Product)
    requires !HasLine(cart, product.id)
    ensures AddToCart(cart, product) == cart + [CartItem(product, 1)]
  {
  }

  /** A product already in the cart gets one more unit on its line; nothing else changes. */
  lemma AddToCartExisting(cart: seq<CartItem>, product: Product, k: nat)
    requires UniqueIds(cart)
    requires k < |cart| && cart[k].product.id == product.id
    ensures |AddToCart(cart, product)| == |cart|
    ensures AddToCart(cart, product)[k] == cart[k].(quantity := cart[k].quantity + 1)
    ensures forall i :: 0 <= i < |cart| && i != k ==> AddToCart(cart, product)[i] == cart[i]
  {
  }

  /** Adding the same product twice to an empty cart gives one line with two units. */
  lemma AddTwiceToEmpty(product: Product)
    ensures AddToCart([], product) == [CartItem(product, 1)]
    ensures AddToCart(AddToCart([], product), product) == [CartItem(product, 2)]
  {
    var once := [CartItem(product, 1)];
    assert FindLine(once, product.id).Some?;
  }

  /**
   * Adding a product raises the item count by one and the total by the price of that product: the
   * price on its existing line, or the price of the product added.
   */
  lemma {:induction false} AddToCartTotals(cart: seq<CartItem>, product: Product)
    requires UniqueIds(cart)
    ensures TotalItems(AddToCart(cart, product)) == TotalItems(cart) + 1
    ensures TotalPrice(AddToCart(cart, product)) == TotalPrice(cart) +
      (match FindLine(cart, product.id) case Some(l) => l.product.price case None => product.price)
  {
    match FindLine(cart, product.id)
    case None =>
      SumAppend(cart, [CartItem(product, 1)], Quantity);
      SumAppend(cart, [CartItem(product, 1)], LinePrice);
    case Some(l) =>
      var k :| 0 <= k < |cart| && cart[k] == l;
      IncrementLineTotals(cart, k);
  }

  /** The existing-line case of `AddToCartTotals`, for line `k`. */
  lemma {:induction false} IncrementLineTotals(cart: seq<CartItem>, k: nat)
    requires UniqueIds(cart) && k < |cart|
    ensures TotalItems(Map(cart, IncrementFn(cart[k].product.id))) == TotalItems(cart) + 1
    ensures TotalPrice(Map(cart, IncrementFn(cart[k].product.id))) == TotalPrice(cart) + cart[k].product.price
  {
    SplitAt(cart, k, cart[..k], cart[k + 1..]);
    IncrementAround(cart[..k], cart[k], cart[k + 1..]);
  }

  /** The totals of a cart cut around the only line for `x`'s product, after that line is incremented. */
  lemma {:induction false} IncrementAround(a: seq<CartItem>, x: CartItem, b: seq<CartItem>)
    requires forall i :: 0 <= i < |a| ==> a[i].product.id != x.product.id
    requires forall i :: 0 <= i < |b| ==> b[i].product.id != x.product.id
    ensures TotalItems(Map(a + [x] + b, IncrementFn(x.product.id))) == TotalItems(a + [x] + b) + 1
    ensures TotalPrice(Map(a + [x] + b, IncrementFn(x.product.id))) == TotalPrice(a + [x] + b) + x.product.price
  {
    var line := x.(quantity := x.quantity + 1);
    MapAround(a, x, b, IncrementFn(x.product.id));
    TotalsAround(a, line, b);
    TotalsAround(a, x, b);
    Distribute(x.product.price, x.quantity + 1, x.quantity);
  }

  /** Both totals of a cart cut around a line. */
  lemma TotalsAround(a: seq<CartItem>, x: CartItem, b: seq<CartItem>)
    ensures TotalItems(a + [x] + b) == TotalItems(a) + x.quantity + TotalItems(b)
    ensures TotalPrice(a + [x] + b) == TotalPrice(a) + x.product.price * x.quantity + TotalPrice(b)
  {
    SumAround(a, x, b, Quantity);
    SumAround(a, x, b, LinePrice);
  }

  // ---------------------------------------------------------------- updateQuantity

  /** The `map` callback of `updateQuantity`: the lines for `id` get quantity `n`. */
  function SetQuantityFn(id: string, n: int): CartItem -> CartItem
  {
    (l: CartItem) => if l.product.id == id then l.(quantity := n) else l
  }

  /** The `filter` callback of `updateQuantity`: the lines for other products. */
  function OtherProductFn(id: string): CartItem -> bool
  {
    (l: CartItem) => l.product.id != id
  }

  /**
   * The updaters of `updateQuantity`: quantity 0 removes the product's lines, any other quantity
   * (negative ones included) is written on them.
   */
  function UpdateQuantity(cart: seq<CartItem>, id: string, n: int): (r: seq<CartItem>)
    ensures n != 0 ==> |r| == |cart|
    ensures n == 0 ==> forall l :: l in r <==> l in cart && l.product.id != id
    ensures UniqueIds(cart) ==> UniqueIds(r)
  {
    if n == 0 then
      var r := Filter(cart, OtherProductFn(id));
      RemovalKeepsUnique(cart, id);
      r
    else Map(cart, SetQuantityFn(id, n))
  }

  lemma {:induction false} RemovalKeepsUnique(cart: seq<CartItem>, id: string)
    ensures UniqueIds(cart) ==> UniqueIds(Filter(cart, OtherProductFn(id)))
  {
    if cart != [] && UniqueIds(cart) {
      var t := cart[1..];
      assert UniqueIds(t);
      RemovalKeepsUnique(t, id);
      var ft := Filter(t, OtherProductFn(id));
      var r := Filter(cart, OtherProductFn(id));
      if cart[0].product.id != id {
        assert r == [cart[0]] + ft;
        forall j | 0 < j < |r| ensures r[0].product.id != r[j].product.id {
          assert r[j] == ft[j - 1];
          assert ft[j - 1] in t;
        }
      } else {
        assert r == ft;
      }
    }
  }

  /** Removing a product's line deletes exactly that line and keeps the others in order. */
  lemma {:induction false} RemoveLine(cart: seq<CartItem>, k: nat)
    requires UniqueIds(cart)
    requires k < |cart|
    ensures UpdateQuantity(cart, cart[k].product.id, 0) == cart[..k] + cart[k + 1..]
    ensures |UpdateQuantity(cart, cart[k].product.id, 0)| == |cart| - 1
  {
    SplitAt(cart, k, cart[..k], cart[k + 1..]);
    RemoveAround(cart[..k], cart[k], cart[k + 1..]);
  }

  /** Filtering out `x`'s product from a cart cut around its only line leaves the two other parts. */
  lemma {:induction false} RemoveAround(a: seq<CartItem>, x: CartItem, b: seq<CartItem>)
    requires forall i :: 0 <= i < |a| ==> a[i].product.id != x.product.id
    requires forall i :: 0 <= i < |b| ==> b[i].product.id != x.product.id
    ensures Filter(a + [x] + b, OtherProductFn(x.product.id)) == a + b
  {
    var keep := OtherProductFn(x.product.id);
    assert Filter([x], keep) == [] by {
      assert [x][1..] == [];
    }
    FilterKeepsAll(a, keep);
    FilterKeepsAll(b, keep);
    FilterAppend(a, [x], keep);
    assert Filter(a + [x], keep) == a;
    FilterAppend(a + [x], b, keep);
  }

  /** A non-zero quantity is written on the product's line only. */
  lemma SetQuantity(cart: seq<CartItem>, k: nat, n: int)
    requires UniqueIds(cart)
    requires k < |cart| && n != 0
    ensures |UpdateQuantity(cart, cart[k].product.id, n)| == |cart|
    ensures UpdateQuantity(cart, cart[k].product.id, n)[k] == cart[k].(quantity := n)
    ensures forall i :: 0 <= i < |cart| && i != k ==> UpdateQuantity(cart, cart[k].product.id, n)[i] == cart[i]
  {
  }

  /** A product that is not in the cart leaves it unchanged, whatever the quantity. */
  lemma UpdateAbsent(cart: seq<CartItem>, id: string, n: int)
    requires !HasLine(cart, id)
    ensures UpdateQuantity(cart, id, n) == cart
  {
    if n == 0 {
      FilterKeepsAll(cart, OtherProductFn(id));
    } else {
      MapIdentity(cart, SetQuantityFn(id, n));
    }
  }

  /** Setting a line's quantity to `n`, 0 included, changes the totals by that line's difference. */
  lemma {:induction false} UpdateQuantityTotals(cart: seq<CartItem>, k: nat, n: int)
    requires UniqueIds(cart)
    requires k < |cart|
    ensures TotalItems(UpdateQuantity(cart, cart[k].product.id, n)) == TotalItems(cart) - cart[k].quantity + n
    ensures TotalPrice(UpdateQuantity(cart, cart[k].product.id, n)) ==
      TotalPrice(cart) + cart[k].product.price * (n - cart[k].quantity)
  {
    SplitAt(cart, k, cart[..k], cart[k + 1..]);
    UpdateAround(cart[..k], cart[k], cart[k + 1..], n);
  }

  /** The totals of a cart cut around the only line for `x`'s product, after that line is set to `n`. */
  lemma {:induction false} UpdateAround(a: seq<CartItem>, x: CartItem, b: seq<CartItem>, n: int)
    requires forall i :: 0 <= i < |a| ==> a[i].product.id != x.product.id
    requires forall i :: 0 <= i < |b| ==> b[i].product.id != x.product.id
    ensures TotalItems(UpdateQuantity(a + [x] + b, x.product.id, n)) == TotalItems(a + [x] + b) - x.quantity + n
    ensures TotalPrice(UpdateQuantity(a + [x] + b, x.product.id, n)) ==
      TotalPrice(a + [x] + b) + x.product.price * (n - x.quantity)
  {
    var id := x.product.id;
    var line := x.(quantity := n);
    var r := UpdateQuantity(a + [x] + b, id, n);
    if n == 0 {
      RemoveAround(a, x, b);
      TotalsAdditive(a, b);
    } else {
      MapAround(a, x, b, SetQuantityFn(id, n));
      TotalsAround(a, line, b);
    }
    assert TotalItems(r) == TotalItems(a) + n + TotalItems(b);
    assert TotalPrice(r) == TotalPrice(a) + x.product.price * n + TotalPrice(b);
    TotalsAround(a, x, b);
    Distribute(x.product.price, n, x.quantity);
  }

  lemma Distribute(p: int, n: int, q: int)
    ensures p * (n - q) == p * n - p * q
  {
  }

  /** The cart screen's minus button: one unit fewer, which removes a line holding one unit. */
  function Decrement(cart: seq<CartItem>, line: CartItem): (r: seq<CartItem>)
    ensures line.quantity == 1 ==> !HasLine(r, line.product.id)
    ensures line.quantity == 1 ==> forall l :: l in r <==> l in cart && l.product.id != line.product.id
    ensures line.quantity != 1 ==> |r| == |cart|
    ensures line.quantity != 1 ==> forall i :: 0 <= i < |cart| ==>
      r[i] == if cart[i].product.id == line.product.id then cart[i].(quantity := line.quantity - 1) else cart[i]
  {
    UpdateQuantity(cart, line.product.id, line.quantity - 1)
  }

  /** The cart screen's plus button: one unit more, which removes a line holding -1 units. */
  function Increment(cart: seq<CartItem>, line: CartItem): (r: seq<CartItem>)
    ensures line.quantity == -1 ==> !HasLine(r, line.product.id)
    ensures line.quantity == -1 ==> forall l :: l in r <==> l in cart && l.product.id != line.product.id
    ensures line.quantity != -1 ==> |r| == |cart|
    ensures line.quantity != -1 ==> forall i :: 0 <= i < |cart| ==>
      r[i] == if cart[i].product.id == line.product.id then cart[i].(quantity := line.quantity + 1) else cart[i]
  {
    UpdateQuantity(cart, line.product.id, line.quantity + 1)
  }

  /**
   * Driven only by the add button and the cart's minus and plus buttons, every line keeps at least one
   * unit: updateQuantity's missing guard against negative quantities is never reached this way.
   */
  lemma ButtonsKeepQuantitiesPositive(cart: seq<CartItem>, line: CartItem)
    requires UniqueIds(cart) && PositiveQuantities(cart)
    requires line in cart
    ensures PositiveQuantities(Decrement(cart, line))
    ensures PositiveQuantities(Increment(cart, line))
  {
    var r := Decrement(cart, line);
    if line.quantity - 1 != 0 {
      forall i | 0 <= i < |r| ensures r[i].quantity >= 1 {
        if cart[i].product.id == line.product.id {
          assert cart[i] == line;
        }
      }
    } else {
      forall i | 0 <= i < |r| ensures r[i].quantity >= 1 {
        assert r[i] in cart;
      }
    }
    var s := Increment(cart, line);
    forall i | 0 <= i < |s| ensures s[i].quantity >= 1 {
      if cart[i].product.id == line.product.id {
        assert cart[i] == line;
      }
    }
  }

  // ---------------------------------------------------------------- totals

  function Quantity(l: CartItem): int { l.quantity }

  function LinePrice(l: CartItem): int { l.product.price * l.quantity }

  /** `getTotalItems`: the number of units in the cart; 0 when empty, the line's quantity for one line. */
  function TotalItems(cart: seq<CartItem>): (r: int)
    ensures cart == [] ==> r == 0
    ensures |cart| == 1 ==> r == cart[0].quantity
  {
    assert |cart| == 1 ==> Sum(cart[1..], Quantity) == 0 by { if |cart| == 1 { assert cart[1..] == []; } }
    Sum(cart, Quantity)
  }

  /** `getTotalPrice`: the cart's value in cents; 0 when empty, price times quantity for one line. */
  function TotalPrice(cart: seq<CartItem>): (r: int)
    ensures cart == [] ==> r == 0
    ensures |cart| == 1 ==> r == cart[0].product.price * cart[0].quantity
  {
    assert |cart| == 1 ==> Sum(cart[1..], LinePrice) == 0 by { if |cart| == 1 { assert cart[1..] == []; } }
    Sum(cart, LinePrice)
  }

  /** Both totals are 0 for the empty cart and add up over the parts of a cart, in either order. */
  lemma TotalsAdditive(a: seq<CartItem>, b: seq<CartItem>)
    ensures TotalItems([]) == 0 && TotalPrice([]) == 0
    ensures TotalItems(a + b) == TotalItems(a) + TotalItems(b) == TotalItems(b + a)
    ensures TotalPrice(a + b) == TotalPrice(a) + TotalPrice(b) == TotalPrice(b + a)
  {
    SumAppend(a, b, Quantity);
    SumAppend(b, a, Quantity);
    SumAppend(a, b, LinePrice);
    SumAppend(b, a, LinePrice);
  }

  /** A cart of positive lines holds at least one unit per line, and non-negative prices give a non-negative total. */
  lemma {:induction false} TotalsBounds(cart: seq<CartItem>)
    requires PositiveQuantities(cart)
    ensures TotalItems(cart) >= |cart|
    ensures (forall i :: 0 <= i < |cart| ==> cart[i].product.price >= 0) ==> TotalPrice(cart) >= 0
  {
    if cart != [] {
      TotalsBounds(cart[1..]);
    }
  }

  // ---------------------------------------------------------------- order items

  /** An `order_items` row as the storefront inserts it; the service adds its id and creation time. */
  datatype OrderItemInsert = OrderItemInsert(
    orderId: string,
    productId: string,
    productName: string,
    productPrice: int,
    quantity: int,
    subtotal: int)

  /** The `map` callback building a row from a cart line. */
  function ItemFn(orderId: string): CartItem -> OrderItemInsert
  {
    (l: CartItem) => OrderItemInsert(orderId, l.product.id, l.product.name, l.product.price, l.quantity, l.product.price * l.quantity)
  }

  /**
   * The rows of `orderItems`: one per cart line, in cart order, each naming the new order and carrying
   * a snapshot of the line's product name and price, its quantity, and price times quantity.
   */
  function OrderItemsOf(cart: seq<CartItem>, orderId: string): (items: seq<OrderItemInsert>)
    ensures |items| == |cart|
    ensures forall i :: 0 <= i < |cart| ==>
      items[i].orderId == orderId && items[i].productId == cart[i].product.id &&
      items[i].productName == cart[i].product.name && items[i].productPrice == cart[i].product.price &&
      items[i].quantity == cart[i].quantity
    ensures forall i :: 0 <= i < |items| ==> items[i].subtotal == items[i].productPrice * items[i].quantity
  {
    Map(cart, ItemFn(orderId))
  }

  function Subtotal(item: OrderItemInsert): int { item.subtotal }

  /** The rows' subtotals add up to the cart total that is sent as the order's total amount. */
  lemma SubtotalsSumToTotal(cart: seq<CartItem>, orderId: string)
    ensures Sum(OrderItemsOf(cart, orderId), Subtotal) == TotalPrice(cart)
  {
    SumOfMap(cart, ItemFn(orderId), Subtotal, LinePrice);
  }
}
