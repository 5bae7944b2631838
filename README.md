# Shoparro core rules in Dafny

Shoparro is a small marketplace. It has a Next.js storefront and a Spring Boot
back end. This project models the four parts of it that hold business rules and
proves properties of them:

- **The client cart** (`frontend/lib/cart.ts`, module `Cart`). The cart is an
  ordered list of rows kept under one browser storage key. Every mutation reads
  the whole list, changes it and writes it back. The queries are reductions over
  the list. `Cart.CartStore` holds one storage slot: absent, corrupt (text that
  does not parse) or a stored list. Its methods follow the TypeScript step by
  step. Pure functions on `seq<CartItem>` state what each method computes.
- **Accounts** (`UserService.java`, module `UserService`). This covers
  registration with its uniqueness checks, login with its ordered checks, role
  queries, partial profile update, deletion and the enabled switch.
- **Catalogue** (`ProductService.java`, module `ProductService`). This covers
  creation defaults, owner-checked revision and deletion, stock adjustment in
  Java `int` arithmetic, the automatic switch to out-of-stock, the enabled
  switch, and the view counter.
- **Orders** (`OrderService.java`, module `OrderService`). This covers placing
  an order (item checks, stock taken item by item, pricing), the order and
  payment status changes, cancellation with restocking, and deletion.

The services share a database, `Database.Db`. It holds one map per repository
(users, products, orders) and one id counter per table. `Db.Valid()` states
two things: every stored id was drawn from its counter, and emails and
usernames are unique (the unique indexes of `User.java`). Every service
method keeps `Valid()`.

Each service class is `@Transactional`, so a call that throws rolls back. In
the model, every error result leaves the database `unchanged`. Exceptions are
the constructors of `Common.Exception`. `Common.Wrap32` is Java's 32-bit `int`
arithmetic, used for stock, sales and view counters. In the back end, money
is integer cents, which is exact like `BigDecimal` for the amounts involved.
The front-end cart computes with JavaScript numbers; the model takes its
prices and quantities as integer cents and whole units as well. Timestamps are
integers.

The cart's own comments (`frontend/lib/cart.ts:44`, `:71` and `:74`) suggest
that a row's quantity always stays within `[1, stock]`. The code does not keep
that, and the model follows the code. Three things break it:

- The first add of a product is not clamped to the stock.
- `q || 1` keeps a negative requested quantity.
- A repeat add whose sum is 0 or less keeps the row.

`Cart.FirstAddUnclamped` and `Cart.RepeatAddKeepsNegativeRow` state this.

## Model

| member | source | states |
|---|---|---|
| Cart.FindIndex | frontend/lib/cart.ts:39-41 | the result is the first position whose row carries the id; it is -1 exactly when no row does |
| Cart.Without | frontend/lib/cart.ts:61 | the filtered list is never longer than the cart (its contents: `Cart.WithoutMembers`) |
| Cart.CartStore.constructor | frontend/lib/cart.ts:17-21 | a fresh browser has nothing stored under the cart key |
| Cart.CartStore.SaveCart | frontend/lib/cart.ts:28-35 | the slot holds exactly the list given, and reading the cart back yields it |
| Cart.CartStore.AddToCart | frontend/lib/cart.ts:37-57 | the slot is rewritten with the merged-or-appended list for the cart read before the call |
| Cart.CartStore.RemoveFromCart | frontend/lib/cart.ts:59-63 | the slot is rewritten with the rows of every other product |
| Cart.CartStore.UpdateCartItemQuantity | frontend/lib/cart.ts:65-80 | an absent product leaves the slot as it was, not even rewritten; otherwise the slot holds the updated list |
| Cart.CartStore.ClearCart | frontend/lib/cart.ts:82-85 | the key is removed and the next read returns the empty cart |
| Cart.EmptyStoreQueries | frontend/lib/cart.ts:17-26 | an absent or unparsable value reads as `[]`, which counts 0 items worth 0 and holds no product |
| Cart.SubtotalIsTotal | frontend/lib/cart.ts:97-99 | whatever the store holds, the subtotal equals the total |
| Cart.AddExistingRow | frontend/lib/cart.ts:39-47 | a repeat add sets only that row's quantity, to `min(old + (q or 1), item.stock)`; every other row is unchanged |
| Cart.AddNewRow | frontend/lib/cart.ts:48-54 | a first add appends one row at the end with quantity `q or 1`, unclamped, and keeps the earlier rows in order |
| Cart.AddKeepsUnique | frontend/lib/cart.ts:38-54 | distinct product ids stay distinct, the product is then in the cart, and the cart grows by at most one row |
| Cart.AddedCount | frontend/lib/cart.ts:43-54 | the item count moves by the clamped increase on a repeat add and by the requested quantity on a first add |
| Cart.RepeatAddUsesIncomingStock | frontend/lib/cart.ts:46 | the clamp uses the stock passed with the call, not the stock stored in the row |
| Cart.AddTwiceClampsToStock | frontend/lib/cart.ts:43-47 | adds of 3 and then 4 units with stock 5 leave one row of 5 |
| Cart.FirstAddUnclamped | frontend/lib/cart.ts:48-54 | a first add of 10 with stock 4 stores 10; -3 stores -3; 0 and a missing quantity store 1 |
| Cart.RepeatAddKeepsNegativeRow | frontend/lib/cart.ts:43-47 | a repeat add of -5 to a row of 1 keeps the row with quantity -4 |
| Cart.WithoutAppend | frontend/lib/cart.ts:61 | filtering distributes over concatenation, so the kept rows stay in their original order |
| Cart.WithoutMembers | frontend/lib/cart.ts:61 | a row is kept exactly when it was in the cart and carries another product id |
| Cart.WithoutAbsent | frontend/lib/cart.ts:59-63 | removing a product that is not in the cart gives back the same cart |
| Cart.WithoutUnique | frontend/lib/cart.ts:59-63 | with distinct ids, removal drops exactly the product's row and keeps the rows before and after it |
| Cart.WithoutSums | frontend/lib/cart.ts:59-63 | with distinct ids, removal lowers the item count and the total by exactly that row's share |
| Cart.WithoutIdempotent | frontend/lib/cart.ts:59-63 | removing twice is removing once; the product is gone; distinct ids stay distinct |
| Cart.WithoutKeepsUnique | frontend/lib/cart.ts:61 | filtering a cart with distinct ids leaves distinct ids |
| Cart.UpdatedRow | frontend/lib/cart.ts:65-80 | a quantity of 0 or less removes the row; a positive one sets only that row's quantity, to `min(q, stored stock)`, which is at least 1 when that stock is |
| Cart.UpdatedKeepsUnique | frontend/lib/cart.ts:65-80 | an update never introduces a duplicate product id |
| Cart.FindAtFindIndex | frontend/lib/cart.ts:106-109 | `find` returns the row at the position `findIndex` reports, or nothing |
| Cart.InCartIffFound | frontend/lib/cart.ts:101-109 | `isProductInCart` holds exactly when `getCartItem` finds a row, and that row is in the cart with the id asked for |
| Cart.SumsExample | frontend/lib/cart.ts:87-95 | rows 10 x 2 and 5 x 3 count 5 items worth 35 |
| Cart.SumsBounds | frontend/lib/cart.ts:87-95 | with quantities at least 1 the count is at least the number of rows; with non-negative prices and quantities the total is non-negative |
| Common.Wrap32IsModulo | backend/src/main/java/com/example/backend/product/ProductService.java:250 | wrapping is the exact result reduced modulo 2^32 into the `int` range |
| Common.Wrap32Add | backend/src/main/java/com/example/backend/order/OrderService.java:98-99 | wrapping an intermediate result and then adding is the same as adding exactly and wrapping once |
| UserService.Register | backend/src/main/java/com/example/backend/user/UserService.java:35-70 | a taken email is refused first and a taken username second, each with no change; otherwise exactly one new account is stored under a fresh id |
| UserService.ValidateLogin | backend/src/main/java/com/example/backend/user/UserService.java:75-92 | an unknown email and a wrong password fail alike; a disabled account is reported only after the password matched; success stamps only the last login |
| UserService.UsersByRole | backend/src/main/java/com/example/backend/user/UserService.java:128-133 | exactly the users whose role is the one asked for, each as stored |
| UserService.UpdateUser | backend/src/main/java/com/example/backend/user/UserService.java:138-208 | missing user, then username clash, then email clash are refused with no change; otherwise only that user is replaced by its patched form |
| UserService.ApplyUpdate | backend/src/main/java/com/example/backend/user/UserService.java:161-204 | the setter chain produces the patched user |
| UserService.SetSignIn | backend/src/main/java/com/example/backend/user/UserService.java:143-163 | username, email and password change only when non-null and non-empty, the password encoded |
| UserService.SetContact | backend/src/main/java/com/example/backend/user/UserService.java:165-191 | each non-null name, phone and address field replaces the stored one |
| UserService.SetName | backend/src/main/java/com/example/backend/user/UserService.java:165-175 | each non-null name and phone field replaces the stored one |
| UserService.SetAddress | backend/src/main/java/com/example/backend/user/UserService.java:177-191 | each non-null address field replaces the stored one |
| UserService.SetBusiness | backend/src/main/java/com/example/backend/user/UserService.java:193-204 | business fields change only for a stored merchant |
| UserService.DeleteUser | backend/src/main/java/com/example/backend/user/UserService.java:213-218 | a missing id is refused with no change; otherwise only that user is gone |
| UserService.ToggleUserStatus | backend/src/main/java/com/example/backend/user/UserService.java:223-229 | a missing id is refused; otherwise only that user's enabled flag is negated |
| UserService.AddAccountKeepsUnique | backend/src/main/java/com/example/backend/user/UserService.java:37-44 | an account whose email and username are both free keeps every email and username unique |
| UserService.SameIdentityKeepsUnique | backend/src/main/java/com/example/backend/user/UserService.java:226 | rewriting a user without touching email or username keeps them unique |
| UserService.PatchKeepsUnique | backend/src/main/java/com/example/backend/user/UserService.java:143-159 | an update that passes both checks keeps every email and username unique |
| UserService.ClashMeansAnotherHolder | backend/src/main/java/com/example/backend/user/UserService.java:143-159 | a clash means another user holds the value; re-submitting one's own value is never a clash (both directions) |
| UserService.NewAccountDefaults | backend/src/main/java/com/example/backend/user/UserService.java:47-66 | a new account is enabled, has the encoded password, defaults to customer, and has business fields only when the merchant role was asked for |
| UserService.PatchedKeeps | backend/src/main/java/com/example/backend/user/UserService.java:161-204 | an update keeps role, enabled flag and last login; null or empty credentials are kept; each null name, phone, address or business field is kept; a non-merchant's business fields are kept; an all-null update changes nothing |
| UserService.RolesPartitionUsers | backend/src/main/java/com/example/backend/user/UserService.java:128-133 | the three role queries split the users into disjoint parts that cover them all |
| UserService.ToggleUserTwice | backend/src/main/java/com/example/backend/user/UserService.java:226 | switching an account twice restores the user table |
| ProductService.CreateProduct | backend/src/main/java/com/example/backend/product/ProductService.java:37-71 | an unknown merchant and a non-merchant are refused with no change; otherwise exactly one new product is stored under a fresh id |
| ProductService.GetProductById | backend/src/main/java/com/example/backend/product/ProductService.java:76-86 | corrected form: the stored view count goes up by one and the product is returned as stored |
| ProductService.GetProductByIdReadOnly | backend/src/main/java/com/example/backend/product/ProductService.java:76-86 | as written: the raised view count reaches only the result, and the database cannot change |
| ProductService.ViewCountLost | backend/src/main/java/com/example/backend/product/ProductService.java:76-83 | after the read-only call, the product returned counts one more view than the stored product |
| ProductService.UpdateProduct | backend/src/main/java/com/example/backend/product/ProductService.java:155-222 | a product the merchant does not own is refused with no change; otherwise only it is replaced by its revised form |
| ProductService.ReviseListing | backend/src/main/java/com/example/backend/product/ProductService.java:160-178 | name (non-empty only), description, price and stock setters, with the zero-stock rule |
| ProductService.ReviseDisplay | backend/src/main/java/com/example/backend/product/ProductService.java:180-198 | category, image, status and enabled setters |
| ProductService.ReviseCatalogue | backend/src/main/java/com/example/backend/product/ProductService.java:200-218 | original price, SKU, brand, unit and specification setters |
| ProductService.DeleteProduct | backend/src/main/java/com/example/backend/product/ProductService.java:227-231 | a product the merchant does not own is refused; otherwise only it is gone |
| ProductService.DeleteProductByAdmin | backend/src/main/java/com/example/backend/product/ProductService.java:236-241 | a missing product is refused; otherwise only it is gone |
| ProductService.UpdateStock | backend/src/main/java/com/example/backend/product/ProductService.java:246-264 | a missing product is refused; a negative `int` result is refused with no change; otherwise the product is restocked |
| ProductService.ToggleProductStatus | backend/src/main/java/com/example/backend/product/ProductService.java:269-276 | a product the merchant does not own is refused; otherwise only its enabled flag is negated |
| ProductService.NewProductDefaults | backend/src/main/java/com/example/backend/product/ProductService.java:48-67 | a new product has the merchant as owner, is enabled, has zero counters and rating, stock from the request or 0, and status from the request or active |
| ProductService.RevisedFields | backend/src/main/java/com/example/backend/product/ProductService.java:159-218 | owner and counters never change; an explicit status wins over the stock rule; without one the status changes only when stock 0 meets an active product; a non-empty name replaces the stored one and a null or empty name is kept; a given price or enabled flag replaces the stored one |
| ProductService.RevisedKeepsNullFields | backend/src/main/java/com/example/backend/product/ProductService.java:159-218 | each null description, price, category, image, original price, SKU, brand, unit or specifications field keeps the stored value |
| ProductService.RevisedSetsGivenFields | backend/src/main/java/com/example/backend/product/ProductService.java:159-218 | each given description, category, image, original price, SKU, brand, unit or specifications field replaces the stored value |
| ProductService.EmptyRevision | backend/src/main/java/com/example/backend/product/ProductService.java:159-218 | an all-null revision changes nothing |
| ProductService.StockMovesByDelta | backend/src/main/java/com/example/backend/product/ProductService.java:250-255 | when the exact sum fits in an `int`, the update is refused exactly when `stock + delta < 0`, and otherwise the stock is exactly `stock + delta` |
| ProductService.OverflowingRestockRefused | backend/src/main/java/com/example/backend/product/ProductService.java:250-253 | a sum past the `int` maximum wraps negative and is refused as insufficient stock |
| ProductService.UnderflowingUpdateAccepted | backend/src/main/java/com/example/backend/product/ProductService.java:250-255 | a sum below the `int` minimum wraps to a non-negative number, passes the guard and is stored as `stock + delta + 2^32` |
| ProductService.UnderflowExample | backend/src/main/java/com/example/backend/product/ProductService.java:250-255 | a stock of -10 lowered by `2^31` becomes `2^31 - 10` |
| ProductService.RestockNeverActivates | backend/src/main/java/com/example/backend/product/ProductService.java:257-260 | a stock update never makes a product active; an active product whose stock becomes 0 goes out of stock, and a new stock other than 0 keeps the status |
| ProductService.SellOutThenRestock | backend/src/main/java/com/example/backend/product/ProductService.java:250-260 | selling 5 of 5 and restocking 5 brings the stock back but leaves the product out of stock |
| ProductService.ToggleProductTwice | backend/src/main/java/com/example/backend/product/ProductService.java:273 | switching a product twice restores the product table |
| OrderService.DefaultIfNull | backend/src/main/java/com/example/backend/order/OrderService.java:282-284 | a missing amount is 0, a given one is kept |
| OrderService.ClampDiscount | backend/src/main/java/com/example/backend/order/OrderService.java:286-291 | the discount kept is at most both the discount and the subtotal, and is one of them |
| OrderService.TotalAmount | backend/src/main/java/com/example/backend/order/OrderService.java:109-112 | the total is never negative, at least the raw sum, and either 0 or that sum |
| OrderService.ReserveAll | backend/src/main/java/com/example/backend/order/OrderService.java:69-103 | the item loop never adds or drops a product |
| OrderService.RestockAll | backend/src/main/java/com/example/backend/order/OrderService.java:260-266 | the restocking loop never adds or drops a product |
| OrderService.ReserveItem | backend/src/main/java/com/example/backend/order/OrderService.java:70-102 | one pass of the item loop: missing product, unavailable product and short stock are refused in that order; otherwise stock is taken and a line added |
| OrderService.CreateOrder | backend/src/main/java/com/example/backend/order/OrderService.java:46-122 | no items, then unknown user, then the first failing item are refused with no change; otherwise one new order is stored and the product table is the one after the loop |
| OrderService.UpdateOrderStatus | backend/src/main/java/com/example/backend/order/OrderService.java:193-214 | a missing or cancelled order is refused with no change; otherwise only that order advances |
| OrderService.UpdatePaymentStatus | backend/src/main/java/com/example/backend/order/OrderService.java:219-236 | a missing order is refused; any other order, whatever its status, takes the payment update |
| OrderService.ReturnStock | backend/src/main/java/com/example/backend/order/OrderService.java:260-266 | the loop puts each line back on its product and changes nothing else |
| OrderService.ReturnLine | backend/src/main/java/com/example/backend/order/OrderService.java:261-265 | one line's quantity back on the stock; an out-of-stock product with stock again is active |
| OrderService.CancelOrder | backend/src/main/java/com/example/backend/order/OrderService.java:241-270 | corrected form: a missing order, another customer, or a shipped, delivered, completed or already cancelled order is refused with no change; otherwise the order is cancelled and its lines restocked |
| OrderService.CancelOrderAsWritten | backend/src/main/java/com/example/backend/order/OrderService.java:241-270 | as written: the same, except that an already cancelled order passes the check |
| OrderService.DeleteOrder | backend/src/main/java/com/example/backend/order/OrderService.java:275-280 | a missing order is refused; otherwise only it is gone |
| OrderService.ReserveAllNext | backend/src/main/java/com/example/backend/order/OrderService.java:69-103 | the loop over one more item is one more pass |
| OrderService.ReserveAllStopsAtError | backend/src/main/java/com/example/backend/order/OrderService.java:69-79 | once an item fails, later items are never looked at and that error is the result |
| OrderService.ReservedLines | backend/src/main/java/com/example/backend/order/OrderService.java:81-95 | one line per item, in order, each totalling unit price times quantity, and the subtotal is the sum of line totals |
| OrderService.ReserveStep | backend/src/main/java/com/example/backend/order/OrderService.java:98-99 | one pass moves only the ordered product's stock and sales |
| OrderService.ReservedKeepsOtherFields | backend/src/main/java/com/example/backend/order/OrderService.java:69-103 | the item loop changes only a product's stock, sales count and status; every other field is kept |
| OrderService.ReserveAllLeavesUnnamed | backend/src/main/java/com/example/backend/order/OrderService.java:69-103 | a product that no item names is left exactly as it was |
| OrderService.RestockedKeepsOtherFields | backend/src/main/java/com/example/backend/order/OrderService.java:260-266 | restocking changes only a product's stock and status; its sales count and every other field are kept |
| OrderService.RestockAllLeavesUnnamed | backend/src/main/java/com/example/backend/order/OrderService.java:260-266 | a product that no line names is left exactly as it was |
| OrderService.ReservedStock | backend/src/main/java/com/example/backend/order/OrderService.java:98 | after the loop each product's stock is down by the total quantity ordered of it |
| OrderService.ReservedSales | backend/src/main/java/com/example/backend/order/OrderService.java:99 | after the loop each product's sales count is up by the total quantity ordered of it |
| OrderService.LinesCarryItems | backend/src/main/java/com/example/backend/order/OrderService.java:92 | the lines carry the same quantity of each product as the items |
| OrderService.SoldOutMarked | backend/src/main/java/com/example/backend/order/OrderService.java:100-102 | after the loop an ordered product with no stock left is out of stock, whatever its status was |
| OrderService.RestockedCounts | backend/src/main/java/com/example/backend/order/OrderService.java:260-266 | restocking puts each product's total line quantity back and leaves its sales count alone |
| OrderService.RestockedStatus | backend/src/main/java/com/example/backend/order/OrderService.java:263-265 | a product that is not out of stock keeps its status; an out-of-stock product ends out of stock or active, and active when the order has a line for it and its stock ends positive |
| OrderService.CancelRestoresStockOf | backend/src/main/java/com/example/backend/order/OrderService.java:260-262 | cancelling a freshly placed order gives a product its stock back; its sales stay counted |
| OrderService.CancelRestoresStock | backend/src/main/java/com/example/backend/order/OrderService.java:259-266 | the same for every product at once |
| OrderService.PlaceThenCancel | backend/src/main/java/com/example/backend/order/OrderService.java:259-266 | placing an order and cancelling it at once leaves every stock as it was |
| OrderService.EarlierItemsTakeStock | backend/src/main/java/com/example/backend/order/OrderService.java:69-79 | the stock check sees earlier items: two lines of 2 against stock 3 are refused |
| OrderService.DiscontinuedRevivedByCancel | backend/src/main/java/com/example/backend/order/OrderService.java:263-265 | a discontinued product sold out by an order comes back active when the order is cancelled |
| OrderService.DoubleCancelInflatesStock | backend/src/main/java/com/example/backend/order/OrderService.java:249-252 | as written, a cancelled order passes the check and a second restock raises stock 3 to 7 |
| OrderService.CancelTwice | backend/src/main/java/com/example/backend/order/OrderService.java:249-252 | with the corrected check, a second cancel is refused and the stock comes back once |
| OrderService.TotalWithValidFees | backend/src/main/java/com/example/backend/order/OrderService.java:105-112 | the discount is `min(discount, subtotal)`; with non-negative fees the floor never applies and the total is at least shipping plus tax |
| OrderService.NewOrderShape | backend/src/main/java/com/example/backend/order/OrderService.java:105-118 | a placed order awaits payment, belongs to the customer, records a line per item, and charges the sum of line totals with a clamped discount and a non-negative total |
| OrderService.AdvancedDates | backend/src/main/java/com/example/backend/order/OrderService.java:201-206 | the requested status is set; shipped stamps only the shipped date; delivered or completed stamps only the delivered date; items, total and payment are kept |
| OrderService.PaymentTransitions | backend/src/main/java/com/example/backend/order/OrderService.java:223-232 | paid leads to processing with the payment date; refunded to refunded; failed to pending payment; pending and partially paid keep the order status |
| OrderService.PaidReopensCancelled | backend/src/main/java/com/example/backend/order/OrderService.java:225-227 | a payment marked paid moves a cancelled order back to processing |

## Left out

- JSON parsing and serialisation in `cart.ts` are not modelled. Unparsable text is the `Corrupt` slot. The server-side guard (`typeof window`) and storage quota errors are left out as browser I/O.
- Concurrency is left out: races between browser tabs and database isolation levels. Only all-or-nothing on an exception is modelled.
- Spring Data repositories become maps. Paginated, sorted and searched listings are not modelled. Of the read-only getters, only `getProductById` and `getUsersByRole` are modelled.
- DTO conversion (`fromEntity`, `fromProduct`, `fromUser`) is not modelled. Services return ids or records.
- Bean validation on request DTOs (`@Min(1)` quantities, non-negative fees) is not enforced. Callers may pass any value, and `OrderService.TotalWithValidFees` states what the non-negative fees give.
- The password encoder, the clock and the generated order number are foreign or non-deterministic. They are parameters.
- Foreign keys are not modelled. Deleting a user or a product referenced by an order is not blocked. Products also reference their merchant, and `UserService.DeleteUser` removes a merchant who still owns products, which the database's foreign key would refuse. Restocking skips a line whose product is gone.
- A null item list in `createOrder` is represented as the empty list. The source refuses both alike.
- The unused stub classes under `com/shoparro` are not part of this model.
- UI pages, controllers, the exception handler and JWT handling are not part of this model.
- ProductService.StockMovesByDelta: states the exact `stock + delta` only when the sum fits in an `int`. The overflowing case is stated separately by `ProductService.OverflowingRestockRefused`, the underflowing one by `ProductService.UnderflowingUpdateAccepted`.
- Cart.Total: the front end multiplies and adds JavaScript floating-point numbers; the model takes prices as integer cents and quantities as whole numbers, so rounding in `getCartTotal` and fractional quantities are not modelled.
- OrderService.ReserveAll: its own contract states only that the product table keeps its keys. Its lines, subtotal, stock and sales are stated by the lemmas `ReservedLines`, `ReservedStock`, `ReservedSales` and `SoldOutMarked`, and what it leaves alone by `ReservedKeepsOtherFields` and `ReserveAllLeavesUnnamed`.
- Cart.Without: its own contract states only the length. Its contents and order are stated by `Cart.WithoutMembers`, `Cart.WithoutAppend` and `Cart.WithoutUnique`.

## Findings

| source | as written | input that shows it | evidently intended | confidence | as-written member | corrected member |
|---|---|---|---|---|---|---|
| backend/src/main/java/com/example/backend/product/ProductService.java:76-83 | `getProductById` raises the view count and saves it, but inside a read-only transaction, so the change is never flushed | any stored product: the response shows `viewCount + 1`, and the row keeps `viewCount` | each view is counted in the database | not executed; relies on the JPA provider skipping the flush of a read-only transaction | ProductService.GetProductByIdReadOnly, ProductService.ViewCountLost | ProductService.GetProductById |
| backend/src/main/java/com/example/backend/order/OrderService.java:249-252 | `cancelOrder` refuses only shipped, delivered and completed orders, so an already cancelled order is cancelled again and its items are restocked again | a cancelled order with one line of 2 units whose product has stock 3: cancelling it again restocks to 5, and once more to 7 | a cancelled order cannot be cancelled again, and its stock comes back once | not executed | OrderService.CancelOrderAsWritten, OrderService.DoubleCancelInflatesStock | OrderService.CancelOrder, OrderService.CancelTwice |
