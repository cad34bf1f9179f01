/**
 * The admin panel's logic: the status badge's label and colour, the client-side join of products
 * with their categories, the product form and the record it is saved as, the order-status update,
 * and the dashboard's statistics.
 */
module Admin {
  import opened Wrappers
  import opened Seqs
  import opened Supabase

  // ---------------------------------------------------------------- status badge

  /** `getStatusLabel`: the display name of a stored status; any other string is shown as it is. */
  function StatusLabel(status: string): (r: string)
    ensures ParseStatus(status).Some? ==> r == LabelOf(ParseStatus(status).value)
    ensures ParseStatus(status).None? ==> r == status
  {
    if status == "pendente" then "Pendente"
    else if status == "em_preparo" then "Em Preparo"
    else if status == "entregue" then "Entregue"
    else if status == "cancelado" then "Cancelado"
    else status
  }

  const GrayBadge: string := "bg-gray-100 text-gray-800"

  /** `getStatusColor`: the badge classes of a stored status, gray for any other string. */
  function StatusColor(status: string): (r: string)
    ensures r == GrayBadge <==> ParseStatus(status).None?
  {
    if status == "pendente" then "bg-yellow-100 text-yellow-800"
    else if status == "em_preparo" then "bg-blue-100 text-blue-800"
    else if status == "entregue" then "bg-green-100 text-green-800"
    else if status == "cancelado" then "bg-red-100 text-red-800"
    else GrayBadge
  }

  /** The label a status is displayed with. */
  function LabelOf(s: OrderStatus): string
  {
    match s
    case Pendente => "Pendente"
    case EmPreparo => "Em Preparo"
    case Entregue => "Entregue"
    case Cancelado => "Cancelado"
  }

  /**
   * Each of the four statuses is shown with its own label, and they differ from one another; a
   * string that is no status is shown unchanged.
   */
  lemma StatusLabelMeaning(s: OrderStatus, t: OrderStatus, other: string)
    ensures StatusLabel(StatusName(s)) == LabelOf(s)
    ensures StatusLabel(StatusName(s)) == StatusLabel(StatusName(t)) ==> s == t
    ensures StatusLabel(StatusName(s)) != StatusName(s)
    ensures ParseStatus(other).None? ==> StatusLabel(other) == other
  {
  }

  /**
   * Each of the four statuses gets its own badge colour, none of them gray; every other string
   * gets the gray badge.
   */
  lemma StatusColorMeaning(s: OrderStatus, t: OrderStatus, other: string)
    ensures StatusColor(StatusName(s)) != GrayBadge
    ensures StatusColor(StatusName(s)) == StatusColor(StatusName(t)) ==> s == t
    ensures StatusColor(other) == GrayBadge <==> ParseStatus(other).None?
  {
  }

  // ---------------------------------------------------------------- product and category join

  /** `categoriesData.find(cat => cat.id === id)`: the first category with that id. */
  function FindCategory(categories: seq<Category>, id: string): (r: Option<Category>)
    ensures r.Some? ==> r.value in categories && r.value.id == id
    ensures r.Some? ==>
      (exists k :: 0 <= k < |categories| && categories[k] == r.value && (forall j :: 0 <= j < k ==> categories[j].id != id))
    ensures r.None? <==> forall c :: c in categories ==> c.id != id
  {
    if categories == [] then None
    else if categories[0].id == id then Some(categories[0])
    else FindCategory(categories[1..], id)
  }

  /** The `map` callback: the product with its category attached, none when its category id is empty. */
  function AttachFn(categoriesData: Option<seq<Category>>): Product -> Product
  {
    (p: Product) => p.(categories :=
      if p.categoryId.None? || p.categoryId == Some("") || categoriesData.None? then None
      else FindCategory(categoriesData.value, p.categoryId.value))
  }

  /**
   * `productsWithCategories`, from the two fetches' data (`null` when a fetch gave none): every
   * product in order, its other fields untouched, each with the category its id names.
   */
  function ProductsWithCategories(productsData: Option<seq<Product>>, categoriesData: Option<seq<Category>>)
    : (r: seq<Product>)
    ensures productsData.None? ==> r == []
    ensures productsData.Some? ==> |r| == |productsData.value|
    ensures productsData.Some? ==> forall i :: 0 <= i < |r| ==>
      r[i].(categories := None) == productsData.value[i].(categories := None)
    ensures productsData.Some? ==> forall i :: 0 <= i < |r| ==>
      (r[i].categories.Some? ==>
        categoriesData.Some? && r[i].categories.value in categoriesData.value &&
        r[i].categoryId == Some(r[i].categories.value.id))
    ensures productsData.Some? ==> forall i :: 0 <= i < |r| ==>
      (r[i].categoryId.None? || r[i].categoryId == Some("") ==> r[i].categories.None?)
    ensures productsData.Some? && categoriesData.Some? ==> forall i :: 0 <= i < |r| ==>
      (r[i].categoryId.Some? && r[i].categoryId.value != "" ==>
        r[i].categories == FindCategory(categoriesData.value, r[i].categoryId.value))
  {
    match productsData
    case None => []
    case Some(products) => Map(products, AttachFn(categoriesData))
  }

  /** A product with a category id that some fetched category has always gets a category attached. */
  lemma JoinFindsCategory(products: seq<Product>, categories: seq<Category>, i: nat, c: Category)
    requires i < |products|
    requires c in categories && products[i].categoryId == Some(c.id) && c.id != ""
    ensures ProductsWithCategories(Some(products), Some(categories))[i].categories.Some?
  {
  }

  // ---------------------------------------------------------------- product form

  /** The product dialog's text fields. */
  datatype ProductForm = ProductForm(
    name: string,
    description: string,
    price: string,
    costPrice: string,
    categoryId: string,
    stockQuantity: string,
    imageUrl: string)

  /** A JavaScript number as `parseFloat` produces it: a price in cents, or NaN. */
  datatype Num = NaN | Cents(cents: int)

  /**
   * The number formatting and parsing the dialog relies on (`toString`, `parseFloat`, `parseInt`),
   * left abstract: prices are shown and parsed as decimal strings, stocks as integers.
   */
  datatype NumberText = NumberText(
    showPrice: int -> string,
    showInt: int -> string,
    parsePrice: string -> Num,
    parseInt: string -> Option<int>)

  /** Formatting that parsing reads back, and that never yields the empty string. */
  ghost predicate ReadsBack(fmt: NumberText)
  {
    (forall c :: fmt.parsePrice(fmt.showPrice(c)) == Cents(c)) &&
    (forall c :: fmt.showPrice(c) != "") &&
    (forall n :: fmt.parseInt(fmt.showInt(n)) == Some(n))
  }

  /** The state `openProductDialog` leaves: the product being edited (if any), the form, and the dialog open. */
  datatype DialogState = DialogState(editingProduct: Option<Product>, form: ProductForm, isOpen: bool)

  const EmptyForm: ProductForm := ProductForm("", "", "", "", "", "", "")

  /** `s || null`: the empty string becomes null. */
  function NullIfEmpty(s: string): (r: Option<string>)
    ensures r.None? <==> s == ""
    ensures r.Some? ==> r.value == s
  {
    if s == "" then None else Some(s)
  }

  /** The form filled from a product, as the edit button opens it. */
  function FormOf(p: Product, fmt: NumberText): (f: ProductForm)
    ensures f.name == p.name
    ensures p.description.None? ==> f.description == ""
    ensures p.description.Some? ==> f.description == p.description.value
    ensures f.price == fmt.showPrice(p.price)
    ensures p.costPrice.None? ==> f.costPrice == ""
    ensures p.costPrice.Some? ==> f.costPrice == fmt.showPrice(p.costPrice.value)
    ensures p.categoryId.None? ==> f.categoryId == ""
    ensures p.categoryId.Some? ==> f.categoryId == p.categoryId.value
    ensures f.stockQuantity == fmt.showInt(p.stockQuantity)
    ensures p.imageUrl.None? ==> f.imageUrl == ""
    ensures p.imageUrl.Some? ==> f.imageUrl == p.imageUrl.value
  {
    ProductForm(
      p.name,
      OrEmpty(p.description),
      fmt.showPrice(p.price),
      match p.costPrice case None => "" case Some(c) => fmt.showPrice(c),
      OrEmpty(p.categoryId),
      fmt.showInt(p.stockQuantity),
      OrEmpty(p.imageUrl))
  }

  /** `openProductDialog`: editing a product fills the form from it; a new product starts from an empty form. */
  function OpenProductDialog(product: Option<Product>, fmt: NumberText): (d: DialogState)
    ensures d.isOpen && d.editingProduct == product
    ensures product.None? ==> d.form == EmptyForm
    ensures product.Some? ==> d.form == FormOf(product.value, fmt)
  {
    match product
    case None => DialogState(None, EmptyForm, true)
    case Some(p) => DialogState(Some(p), FormOf(p, fmt), true)
  }

  /** The record `saveProduct` writes: the form's fields coerced to the table's types. */
  datatype ProductData = ProductData(
    name: string,
    description: Option<string>,
    price: Num,
    costPrice: Option<Num>,
    categoryId: Option<string>,
    stockQuantity: int,
    imageUrl: Option<string>,
    updatedAt: string)

  /**
   * `productData`, with `now` the time of the save: empty optional texts become null, an empty cost
   * becomes null, and a stock that is not an integer becomes 0. A price or a non-empty cost that does
   * not parse is held in the record as NaN.
   */
  function ProductDataOf(form: ProductForm, fmt: NumberText, now: string): (d: ProductData)
    ensures d.name == form.name && d.updatedAt == now
    ensures d.description.None? <==> form.description == ""
    ensures d.categoryId.None? <==> form.categoryId == ""
    ensures d.imageUrl.None? <==> form.imageUrl == ""
    ensures d.costPrice.None? <==> form.costPrice == ""
    ensures d.description.Some? ==> d.description.value == form.description
    ensures d.categoryId.Some? ==> d.categoryId.value == form.categoryId
    ensures d.imageUrl.Some? ==> d.imageUrl.value == form.imageUrl
    ensures d.price == fmt.parsePrice(form.price)
    ensures form.costPrice != "" ==> d.costPrice == Some(fmt.parsePrice(form.costPrice))
    ensures fmt.parseInt(form.stockQuantity).None? ==> d.stockQuantity == 0
    ensures fmt.parseInt(form.stockQuantity).Some? ==> d.stockQuantity == fmt.parseInt(form.stockQuantity).value
  {
    ProductData(
      form.name,
      NullIfEmpty(form.description),
      fmt.parsePrice(form.price),
      if form.costPrice != "" then Some(fmt.parsePrice(form.costPrice)) else None,
      NullIfEmpty(form.categoryId),
      match fmt.parseInt(form.stockQuantity) case None => 0 case Some(n) => n,
      NullIfEmpty(form.imageUrl),
      now)
  }

  /** The write `saveProduct` issues. */
  datatype ProductWrite = UpdateProduct(id: string, data: ProductData) | InsertProduct(data: ProductData)

  /** `saveProduct`: an update of the edited product by its id, or an insert of a new one. */
  function SaveProduct(dialog: DialogState, fmt: NumberText, now: string): (w: ProductWrite)
    ensures dialog.editingProduct.Some? <==> w.UpdateProduct?
    ensures w.UpdateProduct? ==> w.id == dialog.editingProduct.value.id
    ensures w.data == ProductDataOf(dialog.form, fmt, now)
  {
    match dialog.editingProduct
    case Some(p) => UpdateProduct(p.id, ProductDataOf(dialog.form, fmt, now))
    case None => InsertProduct(ProductDataOf(dialog.form, fmt, now))
  }

  /** No optional text of the product is an empty string (which the form cannot tell from null). */
  predicate NoEmptyTexts(p: Product)
  {
    p.description != Some("") && p.categoryId != Some("") && p.imageUrl != Some("")
  }

  /**
   * Opening a product and saving it unchanged writes back its name, description, category and image;
   * with formatting that parsing reads back, also its price, cost and stock.
   */
  lemma EditRoundTrip(p: Product, fmt: NumberText, now: string)
    requires NoEmptyTexts(p)
    ensures var w := SaveProduct(OpenProductDialog(Some(p), fmt), fmt, now);
      w == UpdateProduct(p.id, w.data) &&
      w.data.name == p.name && w.data.description == p.description &&
      w.data.categoryId == p.categoryId && w.data.imageUrl == p.imageUrl
    ensures ReadsBack(fmt) ==>
      var d := SaveProduct(OpenProductDialog(Some(p), fmt), fmt, now).data;
      d.price == Cents(p.price) && d.stockQuantity == p.stockQuantity &&
      d.costPrice == (match p.costPrice case None => None case Some(c) => Some(Cents(c)))
  {
  }

  /** An optional text stored as the empty string is written back as null. */
  lemma EmptyTextBecomesNull(p: Product, fmt: NumberText, now: string)
    requires p.description == Some("")
    ensures SaveProduct(OpenProductDialog(Some(p), fmt), fmt, now).data.description == None
  {
  }

  /** Saving the empty form of a new product inserts a record with every optional field null. */
  lemma NewProductFromEmptyForm(fmt: NumberText, now: string)
    ensures var w := SaveProduct(OpenProductDialog(None, fmt), fmt, now);
      w.InsertProduct? && w.data.name == "" && w.data.description.None? && w.data.costPrice.None? &&
      w.data.categoryId.None? && w.data.imageUrl.None? &&
      w.data.stockQuantity == (match fmt.parseInt("") case None => 0 case Some(n) => n)
  {
  }

  // ---------------------------------------------------------------- order status

  /** The `update` callback `updateOrderStatus` has the order table apply: status and time, on that id only. */
  function StatusPatchFn(orderId: string, status: OrderStatus, now: string): Order -> Order
  {
    (o: Order) => if o.id == orderId then o.(status := status, updatedAt := now) else o
  }

  /** The order table after `updateOrderStatus(orderId, status)` at time `now`. */
  function UpdateOrderStatus(orders: seq<Order>, orderId: string, status: OrderStatus, now: string): (r: seq<Order>)
    ensures |r| == |orders|
    ensures forall i :: 0 <= i < |orders| && orders[i].id != orderId ==> r[i] == orders[i]
    ensures forall i :: 0 <= i < |orders| && orders[i].id == orderId ==>
      r[i].status == status && r[i].updatedAt == now &&
      r[i].(status := orders[i].status, updatedAt := orders[i].updatedAt) == orders[i]
  {
    Map(orders, StatusPatchFn(orderId, status, now))
  }

  /** No transition is refused: from any current status, any new status is written. */
  lemma AnyTransitionAllowed(o: Order, status: OrderStatus, now: string)
    ensures UpdateOrderStatus([o], o.id, status, now) == [o.(status := status, updatedAt := now)]
  {
  }

  // ---------------------------------------------------------------- dashboard statistics

  /** Products with fewer units than this are counted as low on stock. */
  const LowStockThreshold: int := 10

  /** The dashboard's four numbers. */
  datatype Stats = Stats(todayOrders: nat, todayRevenue: int, totalProducts: nat, lowStock: nat)

  function TotalAmount(o: Order): int { o.totalAmount }

  /** The count query's filter: stock strictly below the threshold. */
  function LowStockFn(): Product -> bool
  {
    (p: Product) => p.stockQuantity < LowStockThreshold
  }

  /**
   * `fetchStats`, from today's orders as fetched (`null` when none came back) and the products each
   * of the two count queries saw (`null` when that query gave no count). The two queries are read
   * independently, so one can fail while the other succeeds. The range query for "today" is not
   * modelled: `todayRows` are its rows.
   */
  function FetchStats(todayRows: Option<seq<Order>>, totalTable: Option<seq<Product>>,
                      lowTable: Option<seq<Product>>): (s: Stats)
    ensures todayRows.None? ==> s.todayOrders == 0 && s.todayRevenue == 0
    ensures todayRows.Some? ==> s.todayOrders == |todayRows.value|
    ensures todayRows.Some? ==> s.todayRevenue == Sum(todayRows.value, TotalAmount)
    ensures totalTable.None? ==> s.totalProducts == 0
    ensures totalTable.Some? ==> s.totalProducts == |totalTable.value|
    ensures lowTable.None? ==> s.lowStock == 0
    ensures lowTable.Some? ==> s.lowStock <= |lowTable.value|
    ensures totalTable.Some? && totalTable == lowTable ==> s.lowStock <= s.totalProducts
  {
    Stats(
      match todayRows case None => 0 case Some(rows) => |rows|,
      match todayRows case None => 0 case Some(rows) => Sum(rows, TotalAmount),
      match totalTable case None => 0 case Some(ps) => |ps|,
      match lowTable case None => 0 case Some(ps) => |Filter(ps, LowStockFn())|)
  }

  /**
   * When only the low-stock query succeeds, the dashboard shows no products in total but a positive
   * low-stock count.
   */
  lemma OneCountFails(p: Product)
    requires p.stockQuantity < LowStockThreshold
    ensures FetchStats(None, None, Some([p])).totalProducts == 0
    ensures FetchStats(None, None, Some([p])).lowStock == 1
  {
    LowStockCounts([p], []);
  }

  /** Today's revenue is the sum of the orders' totals: 0 for none, additive over any split of the rows. */
  lemma TodayRevenueAdditive(a: seq<Order>, b: seq<Order>, o: Order)
    ensures FetchStats(Some([]), None, None).todayRevenue == 0
    ensures FetchStats(Some([o]), None, None).todayRevenue == o.totalAmount
    ensures FetchStats(Some(a + b), None, None).todayRevenue ==
      FetchStats(Some(a), None, None).todayRevenue + FetchStats(Some(b), None, None).todayRevenue
    ensures FetchStats(Some(a + b), None, None).todayOrders ==
      FetchStats(Some(a), None, None).todayOrders + FetchStats(Some(b), None, None).todayOrders
  {
    assert [o][1..] == [];
    SumAppend(a, b, TotalAmount);
  }

  /** Revenue from orders with non-negative totals is non-negative. */
  lemma TodayRevenueNonNegative(rows: seq<Order>)
    requires forall i :: 0 <= i < |rows| ==> rows[i].totalAmount >= 0
    ensures FetchStats(Some(rows), None, None).todayRevenue >= 0
  {
    SumNonNegative(rows, TotalAmount);
  }

  /**
   * The low-stock count counts exactly the products below the threshold: every product, when all are
   * below it; none, when none is; and it adds up over any split of the table.
   */
  lemma LowStockCounts(a: seq<Product>, b: seq<Product>)
    ensures (forall i :: 0 <= i < |a| ==> a[i].stockQuantity < LowStockThreshold) ==>
      FetchStats(None, None, Some(a)).lowStock == |a|
    ensures (forall i :: 0 <= i < |a| ==> a[i].stockQuantity >= LowStockThreshold) ==>
      FetchStats(None, None, Some(a)).lowStock == 0
    ensures FetchStats(None, None, Some(a + b)).lowStock ==
      FetchStats(None, None, Some(a)).lowStock + FetchStats(None, None, Some(b)).lowStock
  {
    if forall i :: 0 <= i < |a| ==> a[i].stockQuantity < LowStockThreshold {
      FilterKeepsAll(a, LowStockFn());
    }
    if forall i :: 0 <= i < |a| ==> a[i].stockQuantity >= LowStockThreshold {
      FilterKeepsNone(a, LowStockFn());
    }
    FilterAppend(a, b, LowStockFn());
  }
}
