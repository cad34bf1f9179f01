/**
 * The storefront page: the category filter over the catalog, and the page component's cart and
 * checkout state with the handlers that change it. Remote inserts are given as the replies the data
 * service returns; the method reports which inserts it issued.
 */
module Storefront {
  import opened Wrappers
  import opened Seqs
  import opened Supabase
  import Cart

  // ---------------------------------------------------------------- category filter

  /** The category selector's value that shows every product. */
  const AllCategories: string := "all"

  /** The `filter` callback: products whose category id is the selected one. */
  function InCategoryFn(selected: string): Product -> bool
  {
    (p: Product) => p.categoryId == Some(selected)
  }

  /** `filteredProducts`: the whole catalog for "all", otherwise the products of the selected category. */
  function FilteredProducts(products: seq<Product>, selected: string): (r: seq<Product>)
    ensures selected == AllCategories ==> r == products
    ensures selected != AllCategories ==> forall p :: p in r <==> p in products && p.categoryId == Some(selected)
  {
    if selected == AllCategories then products else Filter(products, InCategoryFn(selected))
  }

  /**
   * The filter keeps the catalog's order: the filtered list of a catalog made of two parts is the
   * filtered first part followed by the filtered second part.
   */
  lemma FilteredProductsInOrder(a: seq<Product>, b: seq<Product>, selected: string)
    ensures FilteredProducts(a + b, selected) == FilteredProducts(a, selected) + FilteredProducts(b, selected)
  {
    if selected != AllCategories {
      FilterAppend(a, b, InCategoryFn(selected));
    }
  }

  /** When every product is in the selected category the filter shows them all; when none is, it shows nothing. */
  lemma FilteredProductsExtremes(products: seq<Product>, selected: string)
    ensures (forall i :: 0 <= i < |products| ==> products[i].categoryId == Some(selected)) ==>
      FilteredProducts(products, selected) == products
    ensures selected != AllCategories && (forall i :: 0 <= i < |products| ==> products[i].categoryId != Some(selected)) ==>
      FilteredProducts(products, selected) == []
  {
    if forall i :: 0 <= i < |products| ==> products[i].categoryId == Some(selected) {
      FilterKeepsAll(products, InCategoryFn(selected));
    }
    if forall i :: 0 <= i < |products| ==> products[i].categoryId != Some(selected) {
      FilterKeepsNone(products, InCategoryFn(selected));
    }
  }

  // ---------------------------------------------------------------- checkout

  /** The checkout form: name, phone and address are required, notes are free text. */
  datatype CustomerData = CustomerData(name: string, phone: string, address: string, notes: string)

  /** The `orders` row the storefront inserts; the service adds id and timestamps. */
  datatype OrderInsert = OrderInsert(
    customerName: string,
    customerPhone: string,
    customerAddress: string,
    totalAmount: int,
    notes: string,
    status: OrderStatus)

  /** An insert issued to the data service. */
  datatype Request = InsertOrder(order: OrderInsert) | InsertOrderItems(items: seq<Cart.OrderItemInsert>)

  /** How a checkout attempt ended, one case per notice the page shows. */
  datatype SubmitOutcome = NotConfigured | IncompleteData | EmptyCart | Failed | Placed

  /** The guard that rejects a checkout form with a required field left empty. */
  predicate IncompleteCustomer(c: CustomerData)
  {
    c.name == "" || c.phone == "" || c.address == ""
  }

  /** The order row a checkout sends: the customer's data, the cart total, status "pendente". */
  function OrderRow(c: CustomerData, cart: seq<CartItem>): (o: OrderInsert)
    ensures o.totalAmount == Cart.TotalPrice(cart) && o.status == Pendente
    ensures o.customerName == c.name && o.customerPhone == c.phone && o.customerAddress == c.address
    ensures o.notes == c.notes
  {
    OrderInsert(c.name, c.phone, c.address, Cart.TotalPrice(cart), c.notes, Pendente)
  }

  /** The storefront page component's state. */
  class HomePage {
    var cart: seq<CartItem>
    var isCheckoutOpen: bool
    var isOrderConfirmed: bool
    var customerData: CustomerData

    /** The cart never holds two lines for one product. */
    ghost predicate Valid()
      reads this
    {
      Cart.UniqueIds(cart)
    }

    constructor ()
      ensures Valid()
      ensures cart == [] && !isCheckoutOpen && !isOrderConfirmed
      ensures customerData == CustomerData("", "", "", "")
    {
      cart := [];
      isCheckoutOpen := false;
      isOrderConfirmed := false;
      customerData := CustomerData("", "", "", "");
    }

    /** `addToCart`: the cart becomes the updater's result; nothing else changes. */
    method AddToCart(product: Product)
      requires Valid()
      modifies this
      ensures Valid()
      ensures cart == Cart.AddToCart(old(cart), product)
      ensures Cart.TotalItems(cart) == Cart.TotalItems(old(cart)) + 1
      ensures isCheckoutOpen == old(isCheckoutOpen) && isOrderConfirmed == old(isOrderConfirmed)
      ensures customerData == old(customerData)
    {
      Cart.AddToCartTotals(cart, product);
      cart := Cart.AddToCart(cart, product);
    }

    /** `updateQuantity`: the cart becomes the updater's result; nothing else changes. */
    method UpdateQuantity(productId: string, newQuantity: int)
      requires Valid()
      modifies this
      ensures Valid()
      ensures cart == Cart.UpdateQuantity(old(cart), productId, newQuantity)
      ensures isCheckoutOpen == old(isCheckoutOpen) && isOrderConfirmed == old(isOrderConfirmed)
      ensures customerData == old(customerData)
    {
      cart := Cart.UpdateQuantity(cart, productId, newQuantity);
    }

    /**
     * `submitOrder`, with `config` the configuration it checks and `orderReply`/`itemsReply` what the
     * two inserts return (the new order's id, or an error). `sent` lists the inserts issued, in order.
     */
    method SubmitOrder(config: Config, orderReply: Reply<string>, itemsReply: Reply<()>)
      returns (outcome: SubmitOutcome, sent: seq<Request>)
      requires Valid()
      modifies this
      ensures Valid()
      ensures customerData == old(customerData)
      // the three local guards, in order: nothing is sent and nothing changes
      ensures !IsSupabaseConfigured(config) ==> outcome == NotConfigured
      ensures IsSupabaseConfigured(config) && IncompleteCustomer(customerData) ==> outcome == IncompleteData
      ensures IsSupabaseConfigured(config) && !IncompleteCustomer(customerData) && old(cart) == [] ==>
        outcome == EmptyCart
      ensures outcome in {NotConfigured, IncompleteData, EmptyCart} ==> sent == []
      ensures IsSupabaseConfigured(config) && !IncompleteCustomer(customerData) && old(cart) != [] ==>
        outcome in {Failed, Placed}
      // past the guards: the order row first, then one item row per cart line once the order exists
      ensures outcome !in {NotConfigured, IncompleteData, EmptyCart} ==>
        IsSupabaseConfigured(config) && !IncompleteCustomer(customerData) && old(cart) != [] &&
        |sent| >= 1 && sent[0] == InsertOrder(OrderRow(customerData, old(cart)))
      ensures |sent| == 2 <==> outcome !in {NotConfigured, IncompleteData, EmptyCart} && orderReply.Ok?
      ensures |sent| == 2 ==> sent[1] == InsertOrderItems(Cart.OrderItemsOf(old(cart), orderReply.value))
      ensures |sent| <= 2
      // success: the cart is cleared, checkout closes and the confirmation opens
      ensures outcome == Placed <==> |sent| == 2 && itemsReply.Ok?
      ensures outcome == Placed ==> cart == [] && !isCheckoutOpen && isOrderConfirmed
      // any other outcome leaves the page as it was
      ensures outcome != Placed ==>
        cart == old(cart) && isCheckoutOpen == old(isCheckoutOpen) && isOrderConfirmed == old(isOrderConfirmed)
    {
      sent := [];
      if !IsSupabaseConfigured(config) {
        return NotConfigured, sent;
      }
      if customerData.name == "" || customerData.phone == "" || customerData.address == "" {
        return IncompleteData, sent;
      }
      if |cart| == 0 {
        return EmptyCart, sent;
      }
      sent := sent + [InsertOrder(OrderRow(customerData, cart))];
      if orderReply.Err? {
        return Failed, sent;
      }
      var orderItems := Cart.OrderItemsOf(cart, orderReply.value);
      sent := sent + [InsertOrderItems(orderItems)];
      if itemsReply.Err? {
        return Failed, sent;
      }
      cart := [];
      isCheckoutOpen := false;
      isOrderConfirmed := true;
      outcome := Placed;
    }
  }

  /**
   * Whatever the inserts return, an order that is sent carries the cart total, and its item rows
   * add up to exactly that amount.
   */
  lemma SentOrderIsConsistent(c: CustomerData, cart: seq<CartItem>, orderId: string)
    ensures Sum(Cart.OrderItemsOf(cart, orderId), Cart.Subtotal) == OrderRow(c, cart).totalAmount
  {
    Cart.SubtotalsSumToTotal(cart, orderId);
  }
}
