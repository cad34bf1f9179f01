# Grocery storefront: cart, checkout and admin helpers in Dafny

This project models the client-side logic of a small grocery-delivery storefront built on a hosted
data service (Supabase). There are three parts:

- **Storefront** (`app/page.tsx`): the category filter, and the cart updaters behind the add, minus
  and plus buttons. Each updater merges a product into the cart, or sets or removes a line. It also
  has the two cart totals, and the checkout handler `submitOrder`. That handler runs three local
  guards, then inserts an order row with status `pendente`, then one item row per cart line. On
  success it clears the cart, closes checkout and shows the confirmation.
- **Admin panel** (`app/admin/page.tsx`): the status badge's label and colour, and the client-side
  join of products with their categories. It also has the product dialog's form, with the record
  `saveProduct` writes from it, the order-status update, and the dashboard's statistics.
- **Data-service configuration and records** (`lib/supabase.ts`): the environment defaults, the
  `isSupabaseConfigured` check, the build-time dummy client, and the record types.

Modelling choices:

- Money is in integer cents, so totals and subtotals are exact. In the source they are floating-point
  numbers.
- Cart quantities are unbounded integers. `updateQuantity` accepts any value, negative ones included,
  as the source does.
- Remote calls are replaced by the replies they return. `Storefront.HomePage.SubmitOrder` takes the
  two insert replies as parameters and returns the inserts it issued, in order. Its contract says that
  nothing is sent when a guard fails, and that the order row is sent whenever all three guards pass.
  It also says that the order row can be left without items when the second insert fails.
- `toString`, `parseFloat` and `parseInt` are abstract function values (`Admin.NumberText`). The
  round trip of the numeric form fields is proved under the hypothesis `Admin.ReadsBack`: parsing
  reads back what formatting wrote, and formatting never yields `""`.
- Function arguments of `map`/`filter`/`reduce` are named functions returning lambdas (for example
  `Cart.IncrementFn`). Body and lemmas therefore speak of the same function value. The generic
  combinators and their laws are in module `Seqs`.

Behaviour of the code worth noting:

- For an unparseable but non-empty cost price, the product record holds `parseFloat`'s NaN, not null.
  Only the empty string becomes null (app/admin/page.tsx:222). How the client library encodes NaN is
  not modelled.
- The product record has exactly the fields of lib/supabase.ts:46-59.
- `updateQuantity(id, 0)` shortens the cart by exactly one line when exactly one line has that id.
  `Cart.RemoveLine` states it for carts with unique ids, which is the invariant the handlers keep.
- `updateOrderStatus` receives a string that always comes from the four-item status selector. The
  model takes an `OrderStatus`.

Two edge cases follow from JavaScript truthiness:

- A product's optional text stored as `""` comes back as null after an edit is saved
  (`Admin.EmptyTextBecomesNull`).
- An empty category id attaches no category, like null.

`addToCart` keeps the product value an existing line was first added with. So the total increases by
that line's price (`Cart.AddToCartTotals`).

The storefront's category join (app/page.tsx:103-107) is the same expression as the admin panel's
join. It is modelled once, as `Admin.ProductsWithCategories`.

## Model

| member | source | states |
|---|---|---|
| `Supabase.IsSupabaseConfigured` | lib/supabase.ts:29-37 | unconfigured exactly when the URL is empty or the placeholder URL, or the key is empty or the placeholder key |
| `Supabase.GetSupabaseConfig` | lib/supabase.ts:4-9 | each environment variable is used as set, and an unset one becomes `""` |
| `Supabase.UnconfiguredCases` | lib/supabase.ts:29-37 | an empty URL or key, or the dummy URL or dummy key, makes the store unconfigured |
| `Supabase.ConfiguredExactly` | lib/supabase.ts:29-37 | configured exactly when both variables are set, non-empty and not the placeholders; an unset variable means unconfigured |
| `Supabase.ClientArgs` | lib/supabase.ts:12-24 | on the server with a value missing the client gets the dummy pair; in the browser, or with both values present, it gets the configuration as given |
| `Supabase.DummyClientOnlyWhenUnconfigured` | lib/supabase.ts:12-37 | the dummy client implies unconfigured, and (unless the config literally is the dummy pair) it arises only on the server with a value missing; a configured store always gets its own URL and key |
| `Supabase.StatusName` | lib/supabase.ts:67 | every status is stored as one of the four names `pendente`, `em_preparo`, `entregue`, `cancelado` |
| `Supabase.ParseStatus` | lib/supabase.ts:67 | a string denotes a status only if it is that status's stored name |
| `Supabase.StatusNameRoundTrip` | lib/supabase.ts:67 | each status parses back from its name, and exactly the four names are statuses |
| `Cart.FindLine` | app/page.tsx:142 | finds a line exactly when the cart has one for the id, and the line found is in the cart with that id |
| `Cart.AddToCart` | app/page.tsx:140-147 | preserves unique product ids and positive quantities, and the product always has a line afterwards |
| `Cart.AddToCartNew` | app/page.tsx:142-146 | a product not in the cart gets exactly one new line `{product, 1}` appended, all other lines unchanged |
| `Cart.AddToCartExisting` | app/page.tsx:142-145 | a product in the cart gets only its line's quantity raised by one; length and every other line unchanged |
| `Cart.AddTwiceToEmpty` | app/page.tsx:140-147 | one add to an empty cart gives one line with quantity 1; two adds give one line with quantity 2, never two lines |
| `Cart.AddToCartTotals` | app/page.tsx:141-146 | an add raises the item count by one, and the total by the price on the product's line (or the new product's price) |
| `Cart.IncrementLineTotals` | app/page.tsx:143-144 | incrementing line k raises the item count by one and the total by line k's price |
| `Cart.UpdateQuantity` | app/page.tsx:154-160 | a non-zero quantity keeps the length; quantity 0 keeps exactly the lines of other products; unique ids are preserved |
| `Cart.RemovalKeepsUnique` | app/page.tsx:156 | removing a product's lines keeps product ids unique |
| `Cart.RemoveLine` | app/page.tsx:155-156 | quantity 0 deletes exactly the product's line, the others stay in their order, and the cart is one line shorter |
| `Cart.SetQuantity` | app/page.tsx:157-158 | a non-zero quantity is written on the product's line only; length and other lines unchanged |
| `Cart.UpdateAbsent` | app/page.tsx:154-160 | an id with no line leaves the cart unchanged, for any quantity |
| `Cart.UpdateQuantityTotals` | app/page.tsx:154-163 | setting line k to n (0 included) changes the item count by n minus the old quantity, and the total by price times that difference |
| `Cart.ButtonsKeepQuantitiesPositive` | app/page.tsx:383-395 | the minus and plus buttons (quantity ∓ 1) keep every line at one unit or more |
| `Cart.Decrement` | app/page.tsx:385 | the minus button on a line of one unit removes the product's line and keeps exactly the other lines; otherwise the product's line holds quantity − 1 and every other line is unchanged |
| `Cart.Increment` | app/page.tsx:393 | the plus button sets the product's line to quantity + 1, keeps the length and leaves every other line unchanged; on a line of -1 units, +1 gives 0, which removes the product's line and keeps exactly the other lines |
| `Cart.TotalItems` | app/page.tsx:162 | 0 for the empty cart, and a line's quantity for a one-line cart |
| `Cart.TotalPrice` | app/page.tsx:163 | 0 for the empty cart, and price times quantity for a one-line cart |
| `Cart.TotalsAround` | app/page.tsx:162-163 | a line contributes its quantity to the item count and price times quantity to the total, wherever it sits in the cart |
| `Cart.TotalsAdditive` | app/page.tsx:162-163 | both totals are 0 for the empty cart, add up over concatenation, and do not depend on the order of the parts |
| `Cart.TotalsBounds` | app/page.tsx:162-163 | with positive quantities the item count is at least the number of lines; non-negative prices give a non-negative total |
| `Cart.OrderItemsOf` | app/page.tsx:211-218 | one item per cart line, in order, with the order id, the product's id, name and price, the quantity, and subtotal = price × quantity |
| `Cart.SubtotalsSumToTotal` | app/page.tsx:201-218 | the items' subtotals add up to the cart total |
| `Storefront.FilteredProducts` | app/page.tsx:137-138 | "all" gives the whole catalog; any other selection gives exactly the products with that category id |
| `Storefront.FilteredProductsInOrder` | app/page.tsx:137-138 | filtering distributes over concatenation, so the catalog's order is kept |
| `Storefront.FilteredProductsExtremes` | app/page.tsx:137-138 | all products in the category are all shown; none in it gives an empty list |
| `Storefront.OrderRow` | app/page.tsx:197-204 | the order row carries the customer's fields and notes, the cart total, and status `pendente` |
| `Storefront.HomePage.constructor` | app/page.tsx:18-31 | the page starts with an empty cart, closed checkout, no confirmation and an empty form |
| `Storefront.HomePage.AddToCart` | app/page.tsx:140-152 | the cart becomes the updater's result and holds one more unit; the rest of the state is unchanged |
| `Storefront.HomePage.UpdateQuantity` | app/page.tsx:154-160 | the cart becomes the updater's result; the rest of the state is unchanged |
| `Storefront.HomePage.SubmitOrder` | app/page.tsx:165-241 | the three guards in order send nothing and change nothing; once all three pass the order row is sent, and the outcome is failure or success; the item rows follow once the order exists; exactly when both inserts succeed is the cart cleared, checkout closed and the order confirmed |
| `Storefront.SentOrderIsConsistent` | app/page.tsx:195-222 | the item rows sent add up to the total sent in the order row |
| `Admin.StatusLabel` | app/admin/page.tsx:310-323 | a status name gets that status's display label; any other string is returned as it is |
| `Admin.StatusColor` | app/admin/page.tsx:295-308 | the gray class is returned exactly for strings that are no status |
| `Admin.StatusLabelMeaning` | app/admin/page.tsx:310-323 | the four statuses get `Pendente`/`Em Preparo`/`Entregue`/`Cancelado`, pairwise different and never the raw name; any other string is returned unchanged |
| `Admin.StatusColorMeaning` | app/admin/page.tsx:295-308 | each status gets its own non-gray class; a string gets the gray class exactly when it is no status |
| `Admin.FindCategory` | app/admin/page.tsx:108 | finds the first category in the list with that id, and finds none only when no category has it |
| `Admin.ProductsWithCategories` | app/admin/page.tsx:105-109 | same length and order, each product otherwise unchanged; an attached category is a fetched one, with the product's category id; an empty or null category id gets none; any other id gets the first fetched category with that id |
| `Admin.JoinFindsCategory` | app/admin/page.tsx:105-109 | a product whose non-empty category id names a fetched category always gets a category attached |
| `Admin.FormOf` | app/admin/page.tsx:192-200 | the form copies the name; null description, category, image and cost become `""`, set ones are copied; price, cost and stock are formatted |
| `Admin.OpenProductDialog` | app/admin/page.tsx:189-214 | the dialog opens on the given product (cleared for a new one); a new product gets the all-empty form, and an edit gets the form filled from the product |
| `Admin.ProductDataOf` | app/admin/page.tsx:218-227 | empty description, category, image and cost become null, and only empty ones do; non-empty texts are copied; price and a non-empty cost are parsed; the stock is the parsed integer, or 0 when it does not parse; name and timestamp are carried over |
| `Admin.SaveProduct` | app/admin/page.tsx:216-239 | an edit is an update of the edited product's id, and a new product is an insert; the record written is the form's coerced record |
| `Admin.EditRoundTrip` | app/admin/page.tsx:192-225 | opening then saving a product writes back its name, description, category and image; with formatting that reads back, also its price, cost and stock |
| `Admin.EmptyTextBecomesNull` | app/admin/page.tsx:192-225 | a description stored as `""` is written back as null |
| `Admin.NewProductFromEmptyForm` | app/admin/page.tsx:201-227 | saving the empty form inserts a record whose optional fields are all null |
| `Admin.UpdateOrderStatus` | app/admin/page.tsx:272-280 | only orders with the given id change, and of them only status and update time |
| `Admin.AnyTransitionAllowed` | app/admin/page.tsx:272-280 | any status can be written whatever the current one |
| `Admin.FetchStats` | app/admin/page.tsx:149-178 | today's count is the number of rows and today's revenue the sum of their totals; each missing reply gives 0 on its own; the product count is the size of the table its query saw; the low-stock count is at most the size of its query's table, and at most the product count when both queries saw the same table |
| `Admin.OneCountFails` | app/admin/page.tsx:164-177 | when only the low-stock query answers, the dashboard shows 0 products in total and a positive low-stock count |
| `Admin.TodayRevenueAdditive` | app/admin/page.tsx:161-162 | revenue is 0 for no orders and an order's total for one order, and revenue and count add up over any split of today's rows |
| `Admin.TodayRevenueNonNegative` | app/admin/page.tsx:161-162 | non-negative order totals give non-negative revenue |
| `Admin.LowStockCounts` | app/admin/page.tsx:167-177 | low stock counts exactly the products below 10: all of them, none of them, and additively over any split |

## Left out

- Rendering, dialogs, tabs, badges, toasts, navigation and `confirm()` are user interface. The
  toasts survive only as `Storefront.SubmitOutcome`.
- The storefront's sample catalog for an unconfigured store (app/page.tsx:33-74) is static example data.
- Product and category fetches, and their error handling (app/page.tsx:82-135,
  app/admin/page.tsx:91-147), are remote calls. Only the join of their results is modelled.
- `deleteProduct` (app/admin/page.tsx:253-270) is a confirmation prompt followed by one remote delete.
- Authentication: `checkAuth`, `handleLogout` and the login page call the auth service and have no
  logic of their own.
- `fetchData` runs four fetches with `Promise.all`, and responses can arrive out of order. That is
  concurrency, which is not modelled.
- `Admin.FetchStats`: the "today" date range is built from the clock, so it is not modelled. Its
  argument is the rows the range query returns. Each count query's argument is the product table it
  saw, or none when it gave no count. The count itself is computed from that table, not by the
  service.
- `Admin.NumberText`: floating-point arithmetic, `toFixed(2)`, `toString`, `parseFloat` and `parseInt`
  are abstract functions. Prices are integer cents.
- `Supabase.ClientArgs`: `createClient` itself belongs to the data-service library. What it does with
  empty values in the browser is not modelled.
- Timestamps from `new Date().toISOString()` are parameters (`now`).
- Settings persistence: no code for it exists in the modelled files.
