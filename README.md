# Shopping-cart line items of the e-commerce API

This project models the cart controller of an Express/Mongoose e-commerce backend. Each
user document embeds a cart: an ordered sequence of entries, each a product id and a
quantity. Four handlers read or change it:

- `getCart` returns the cart.
- `addItemToCart` checks the requested quantity against the product's stock. It then raises
  the first entry of that product, or appends a new entry.
- `updateCartItem` overwrites the quantity of the first entry of the product.
- `removeItemFromCart` filters out every entry of the product.

The model has two modules.

- `CartLines` (`cart_lines.dfy`) holds the pure line-item algebra. It defines the entry,
  product, error and result types. It has the search `FirstIndex`, the find-or-append
  `Merge` and the filter `Without`. It also has the handler outcomes `AddItem` and
  `UpdateItem` once the user is found. A reference definition, `QuantityOf`, gives the
  total a cart holds of one product. The lemmas relate the add, update and remove
  operations to `QuantityOf`, to the invariant "at most one entry per product"
  (`NoDuplicates`) and to each other.
- `CartController` (`cart_controller.dfy`) holds the handlers in the source's imperative
  form. A `User` class has a `cart` field that the handlers change in place by indexed
  update and by appending. `FindIndex` is the search loop that `findIndex` performs. The
  user lookup becomes a possibly-null `User`: null means the user was not found. The
  product lookup becomes an `Option<Product>`. Each of the three cart-changing handlers is
  proved against the `CartLines` function for the same operation, and also states that a
  failed call leaves the cart as it was. `GetCart` states only its not-found error and
  that it returns the stored cart.

Product ids are compared as plain strings, which stands for `item.product.toString() ===
productId`. Stock is a `nat`, following the schema's `min: 0` at
`src/api/models/Product.js:24-29`. Quantities are unbounded `int`s, because the source
never validates them: a negative or zero quantity passes the stock check and is merged as
given. The two error kinds are `NotFound` (status 404) and `BadRequest` (status 400).

The stock check is kept exactly as written: it compares only the requested quantity with
the stock, never the merged total (`cartController.js` lines 33 and 44).
`AddItemIgnoresCartTotal` states this as a property. For example, with stock 5 and 5
held, adding 1 passes the check at line 33, and line 44 raises the entry to 6
(`OversellExample`). `ExampleSession` calls the handlers on one user: add 2, add 3, a
refused add of 6, then add 1. Its assertions about each result are proved.

## Model

| member | source | states |
|---|---|---|
| `CartLines.FirstIndex` | src/api/controllers/cartController.js:38-40 | The result is -1 exactly when no entry has the product id. Otherwise it is a position whose entry has that id, and no earlier entry has it. |
| `CartController.FindIndex` | src/api/controllers/cartController.js:69-71 | The search loop returns exactly the first matching position, or -1. |
| `CartLines.Merge` | src/api/controllers/cartController.js:42-48 | If an entry for the product exists, the first one's quantity is raised by `quantity`. The length stays the same and every other position is untouched. Otherwise exactly one entry `(productId, quantity)` is appended, after the old entries in their old order. |
| `CartLines.AddItem` | src/api/controllers/cartController.js:28-48 | It fails exactly when the product is absent (NotFound) or its stock is below the requested quantity (BadRequest). On success the cart holds the product, its total rises by `quantity`, and every other product's total is unchanged. |
| `CartController.AddItemToCart` | src/api/controllers/cartController.js:22-53 | A null user gives NotFound. Otherwise the result is `AddItem` of the old cart. The cart becomes the returned cart on success and stays unchanged on any failure. |
| `CartLines.UpdateItem` | src/api/controllers/cartController.js:69-81 | It fails with NotFound exactly when no entry has the product id. Otherwise the first matching position holds exactly `(productId, quantity)`, the length is the same and every other position is untouched. |
| `CartController.UpdateCartItem` | src/api/controllers/cartController.js:58-82 | A null user gives NotFound. Otherwise the result is `UpdateItem` of the old cart, and the cart changes only on success. |
| `CartLines.Without` | src/api/controllers/cartController.js:96 | The result has no entry for the product and is no longer than the cart. Every entry in it comes from the cart, and every entry of another product is kept. |
| `CartController.RemoveItemFromCart` | src/api/controllers/cartController.js:87-101 | A null user gives NotFound. Otherwise it never fails, and the cart becomes the filtered cart. |
| `CartController.GetCart` | src/api/controllers/cartController.js:8-17 | A null user gives NotFound. Otherwise it returns the stored cart unchanged. |
| `CartLines.MergeQuantities` | src/api/controllers/cartController.js:42-48 | Merging raises the merged product's total by `quantity` and leaves every other product's total unchanged. |
| `CartLines.WithoutQuantities` | src/api/controllers/cartController.js:96 | After filtering, the removed product's total is 0 and every other product's total is unchanged. |
| `CartLines.UpdateQuantities` | src/api/controllers/cartController.js:69-74 | In a duplicate-free cart that holds the product, updating succeeds and sets the product's total to exactly `quantity`. Every other product's total is unchanged. |
| `CartLines.QuantityOfUnique` | src/api/controllers/cartController.js:69-74 | In a duplicate-free cart, a product's total is the quantity of the entry that the search finds. |
| `CartLines.MergePreservesNoDuplicates` | src/api/controllers/cartController.js:38-48 | Merging keeps a duplicate-free cart duplicate-free. |
| `CartLines.AddItemPreservesNoDuplicates` | src/api/controllers/cartController.js:33-48 | A successful add keeps the one-entry-per-product invariant. |
| `CartLines.UpdatePreservesNoDuplicates` | src/api/controllers/cartController.js:69-74 | A successful update keeps the one-entry-per-product invariant. |
| `CartLines.WithoutPreservesNoDuplicates` | src/api/controllers/cartController.js:96 | Filtering keeps the one-entry-per-product invariant. |
| `CartLines.WithoutAppend` | src/api/controllers/cartController.js:96 | Filtering a concatenation is the concatenation of the filtered parts, so the kept entries stay in their original order. |
| `CartLines.WithoutAbsent` | src/api/controllers/cartController.js:96 | Removing a product the cart does not hold returns the cart unchanged. |
| `CartLines.WithoutIdempotent` | src/api/controllers/cartController.js:96 | Removing a product twice is the same as removing it once. |
| `CartLines.WithoutKeepsOthers` | src/api/controllers/cartController.js:96 | For any other product id, the filtered cart holds that product exactly when the original cart does. |
| `CartLines.AddItemIgnoresCartTotal` | src/api/controllers/cartController.js:33-44 | Whenever `quantity <= stock`, adding succeeds, whatever the cart already holds. The product's total then grows by `quantity`, so it may exceed the stock. |
| `CartLines.OversellExample` | src/api/controllers/cartController.js:33-44 | With 5 held and stock 5, adding 1 succeeds and leaves 6 held, more than the stock. Adding 6 fails with BadRequest. |
| `CartLines.MergeIntoSingle` | src/api/controllers/cartController.js:42-44 | Merging into a one-entry cart of the same product leaves one entry that holds the sum. |
| `CartLines.AddTwice` | src/api/controllers/cartController.js:33-48 | For any product, stock and quantities `q1`, `q2` within the stock, adding `q1` and then `q2` to an empty cart gives `[(p, q1)]` and then the single entry `[(p, q1 + q2)]`. |
| `CartLines.AddTwiceExample` | src/api/controllers/cartController.js:38-48 | An instance of `AddTwice`: adding 2 and then 3 of a product to an empty cart gives `[(P1, 2)]` and then `[(P1, 5)]`. |

## Left out

- Persistence and population: `User.findById`, `Product.findById`, `user.save()` and
  `populate('cart.product')` are database library calls. The lookups are inputs. The
  populated view is the stored cart itself, so the resolved product fields are not
  modelled.
- HTTP details: `asyncHandler`, `res.status`, `res.json`, and extracting the body and the
  route parameters. Only the error kind (NotFound, BadRequest) and the returned cart remain.
- Unvalidated `quantity`: the source takes it from the request body unchecked. A string
  would be concatenated at line 44, and a missing value would pass the stock check. The
  model takes `quantity` as an `int`, so JavaScript coercion is not captured.
- Numbers: quantities and stock are JavaScript `Number`s (`src/api/models/Product.js:25`).
  The model's `int` and `nat` exclude fractional quantities and stock (such as 1.5), and
  ignore the double-precision rounding of `+=` at line 44 above 2^53.
- Product id spelling: `productId` is assumed to be the canonical string form of the stored
  product id. A non-canonical spelling can still be found by `Product.findById` (line 26),
  yet it never equals `item.product.toString()` (lines 39, 70 and 96). In the source such
  a spelling can create a second entry for the same product, and update or remove then
  miss the entry. The model does not capture this, so the one-entry-per-product lemmas
  hold only for canonical ids.
- Product fields other than `stock` (name, description, floating-point price, category,
  image) play no part in the cart handlers.
- Concurrent requests: last-write-wins races on the user document and overselling of stock
  come from the database, not from the code modelled here.
- Server bootstrapping, route wiring, the `protect`/`admin` middlewares, and the order and
  user controllers. The middlewares and those controllers are not part of this model, so
  neither access control nor order logic is modelled.
