# WbraStore core, modelled in Dafny

This project models the core of the WbraStore e-commerce application: card payments through the Cielo gateway and the order lifecycle they drive. It covers:

- **Payment handlers:** the `/api/payment/authorize`, `/capture` and `/cancel` request handlers and the Cielo notification webhook.
- **Order status:** the order-status state machine of the order service, and the two status mappers (gateway status to stored payment status, stored payment status to order status).
- **Gateway client:** the Cielo client (URLs, payloads, headers, status decoding, error mapping).
- **Services and repositories:** the order, cart, product, category and user services, and the order, cart and product repositories.
- **API helpers:** error classes, error responses, session guards and pagination.
- **Browser code:** the client-side cart store, the checkout payment-form formatting and the route-guard middleware.

## How the model is built

The database is the class `Store.Database`, with one `map` field per table. Repositories and handlers are methods that modify it. Each handler is also given as a function from the tables (and the gateway's answer) to the outcome and the new tables. The method's postcondition ties it to that function, and the lemmas are proved about the function. Calls to the gateway, the clock and bcrypt are function parameters. Money is integer cents.

Files:

| file | module | models |
|---|---|---|
| `common.dfy` | `Common` | Option/Result, JavaScript truthiness and `\|\|` defaults, number-to-text |
| `enums.dfy` | `Enums` | the order, payment, gateway and role enumerations with their literals |
| `store.dfy` | `Store` | the tables, their keys and references, the shared database object |
| `api_utils.dfy` | `ApiUtils` | `src/lib/api-utils.ts` |
| `payment_utils.dfy` | `PaymentUtils` | `src/lib/payment-utils.ts` |
| `payment_service.dfy` | `CieloGateway` | `src/services/payment.service.ts` |
| `product_repository.dfy`, `cart_repository.dfy`, `order_repository.dfy` | `ProductRepository`, `CartRepository`, `OrderRepository` | the repositories under `src/infrastructure/repositories/` |
| `order_service.dfy`, `cart_service.dfy`, `product_service.dfy`, `category_service.dfy`, `user_service.dfy` | same names | the services under `src/application/services/` |
| `handler_outcome.dfy` | `HandlerOutcome` | what the payment handlers share: thrown values, the catch block, single-row writes |
| `authorize_route.dfy`, `capture_route.dfy`, `cancel_route.dfy` | `AuthorizeRoute`, `CaptureRoute`, `CancelRoute` | `src/app/api/payment/*/route.ts` |
| `cielo_webhook.dfy` | `CieloWebhook` | `src/app/api/webhooks/cielo/route.ts` |
| `cart_store.dfy` | `ClientCart` | `src/stores/cart-store.ts` |
| `payment_form.dfy` | `PaymentForm` | `src/components/checkout/payment-form.tsx` |
| `middleware.dfy` | `Middleware` | `src/middleware.ts` |

### Notable behaviour of the payment handlers

- **No check for an existing payment.** The authorize handler does not check whether the order already has a payment. Only the unique payment id stops a repeated insert.
- **Authorize surfaces transition errors.** The authorize handler runs the order transition through the strict state machine after the payment row is written. A refused transition reaches the caller as a 500.
  - Consequence: authorizing with `capture=true` on a PENDING order is refused by the state machine (PENDING to PAID is not allowed) after the card was charged and the payment stored (`AuthorizeRoute.StrictTransitionAfterInsert`).
  - Consequence: re-authorizing a PAYMENT_PENDING order is refused after the payment is stored.
- **Capture, cancel and webhook bypass the state machine.** They write the order status directly. The webhook writes the payment status unconditionally and the order status whenever it differs. A notification can move a DELIVERED order to CANCELLED (`CieloWebhook.WebhookConverges`), and a confirmed capture sets PAID from any status (`CaptureRoute.ConfirmedCaptureForcesPaid`).

## Model

| member | source | states |
|---|---|---|
| `ApiUtils.NewApiError` | src/lib/api-utils.ts:7-16 | keeps the message; the status defaults to 500 and there is no code |
| `ApiUtils.Unauthorized` | src/lib/api-utils.ts:18-22 | status 401, code UNAUTHORIZED, the default message unless one is given |
| `ApiUtils.Forbidden` | src/lib/api-utils.ts:24-28 | status 403, code FORBIDDEN, the default message unless one is given |
| `ApiUtils.NotFound` | src/lib/api-utils.ts:30-34 | status 404, code NOT_FOUND, the default message unless one is given |
| `ApiUtils.Validation` | src/lib/api-utils.ts:36-43 | status 400, code VALIDATION_ERROR, the field errors carried along |
| `ApiUtils.Success` | src/lib/api-utils.ts:46-48 | the success envelope carries the data with status 200 |
| `ApiUtils.GroupedIsMessagesByPath` | src/lib/api-utils.ts:52-59 | the issue loop yields one key per joined path that occurs, each holding that path's messages in issue order, never empty |
| `ApiUtils.ErrorResponseOf` | src/lib/api-utils.ts:50-95 | schema errors give 400 with the grouped details; API errors keep their status, message and code, with details only for a validation error that has some; anything else gives 500 INTERNAL_ERROR without details |
| `ApiUtils.ErrorResponseFor` | src/lib/api-utils.ts:50-95 | the response built issue by issue equals the reference response |
| `ApiUtils.RequireAuth` | src/lib/api-utils.ts:102-110 | succeeds exactly when there is a session user, returning it; otherwise 401 |
| `ApiUtils.RequireRole` | src/lib/api-utils.ts:112-120 | 401 without a session; succeeds exactly when the role is allowed, 403 otherwise |
| `ApiUtils.RequireAdmin` | src/lib/api-utils.ts:122-124 | succeeds exactly for an ADMIN; any other logged-in role gets 403 |
| `ApiUtils.RequireAdminOrSeller` | src/lib/api-utils.ts:126-128 | succeeds exactly for ADMIN or SELLER; a BUYER gets 403 |
| `ApiUtils.ParseUnsigned` | src/lib/api-utils.ts:132-133 | the digits after the sign: nothing, or a first character that is not a digit, gives NaN; a leading decimal digit gives a number, non-negative without a minus sign |
| `ApiUtils.ParseInt` | src/lib/api-utils.ts:132-133 | parseInt without a radix: blank input is NaN, so is input whose first non-blank character is neither a digit nor a sign; a leading decimal digit gives a non-negative number |
| `ApiUtils.ParseIntOfNumeral` | src/lib/api-utils.ts:132-133 | a plain decimal numeral parses to its value |
| `ApiUtils.ParseIntOfDefaultPage` | src/lib/api-utils.ts:132 | the default page text parses to 1 |
| `ApiUtils.ParseIntOfDefaultLimit` | src/lib/api-utils.ts:133 | the default limit text parses to 12 |
| `ApiUtils.MaxWith` | src/lib/api-utils.ts:132 | Math.max with NaN is NaN, otherwise the larger value |
| `ApiUtils.MinWith` | src/lib/api-utils.ts:133 | Math.min with NaN is NaN, otherwise the smaller value |
| `ApiUtils.Clamp` | src/lib/api-utils.ts:132-135 | page at least 1, limit between 1 and 100, skip the rows before the page; NaN in gives NaN out |
| `ApiUtils.GetPaginationParams` | src/lib/api-utils.ts:131-136 | page NaN exactly when its text does not parse, likewise the limit; numeric results are within bounds and skip is their offset |
| `ApiUtils.PaginationDefaults` | src/lib/api-utils.ts:131-136 | with no page and no limit the result is page 1, limit 12, skip 0 |
| `ApiUtils.ParseIntOfNonNumeric` | src/lib/api-utils.ts:132-133 | text whose first character is neither blank, a digit nor a sign parses to NaN |
| `ApiUtils.NonNumericPageIsNaN` | src/lib/api-utils.ts:132-135 | a page parameter that does not start like a number (such as "abc") yields a NaN page and a NaN skip |
| `ApiUtils.ClampSafe` | src/lib/api-utils.ts:132-135 | the corrected clamp always yields numbers within bounds and agrees with the one as written on parsed values |
| `ApiUtils.GetPaginationParamsSafe` | src/lib/api-utils.ts:131-136 | the corrected helper always yields a page of at least 1, a limit of 1 to 100 and their offset |
| `ApiUtils.ClampSafeAgrees` | src/lib/api-utils.ts:134-136 | the corrected clamping keeps every page, limit and skip the clamping as written yields as a number, and its skip is never negative |
| `ApiUtils.SafePaginationAgrees` | src/lib/api-utils.ts:131-136 | the corrected helper equals the one as written whenever that one yields numbers, and its skip is never negative |
| `ApiUtils.CeilDiv` | src/lib/api-utils.ts:150 | the smallest number of pages of `limit` rows that covers `total` |
| `ApiUtils.PaginationResponse` | src/lib/api-utils.ts:138-155 | items passed through; a NaN limit gives a NaN page count, otherwise the page count is the ceiling of total over limit; hasNext iff page and limit are numbers with page*limit < total; hasPrev iff the page is a number above 1 |
| `ApiUtils.NonNumericPageLosesNavigation` | src/lib/api-utils.ts:132-155 | a listing whose page parameter does not start like a number answers with a NaN page, no next page and no previous page |
| `ApiUtils.NonNumericLimitLosesPageCount` | src/lib/api-utils.ts:132-155 | a listing whose limit parameter does not start like a number answers with a NaN limit, a NaN page count and no next page |
| `ApiUtils.HasNextIffBeforeLastPage` | src/lib/api-utils.ts:150-152 | for a page of at least 1, hasNext holds exactly when the page is before the last page |
| `Enums.StoredLiteralsAreNotGatewayLiterals` | src/lib/payment-utils.ts:10-20 | no stored payment literal is spelled like a gateway status literal |
| `Enums.PaymentStatusLiteralInjective` | src/lib/payment-utils.ts:10-20 | distinct stored payment statuses have distinct literals |
| `PaymentUtils.MapCieloStatusToPrisma` | src/lib/payment-utils.ts:7-23 | each gateway status maps to its stored counterpart (both NotFinished and Pending to PENDING); PENDING_REFUND is never produced |
| `PaymentUtils.MapPaymentStatusToOrderStatus` | src/lib/payment-utils.ts:28-46 | AUTHORIZED gives PAYMENT_PENDING, PAID gives PAID, DENIED/VOIDED/ABORTED give CANCELLED, REFUNDED/PENDING_REFUND give REFUNDED, the rest PENDING; never PROCESSING, SHIPPED or DELIVERED |
| `PaymentUtils.OrderStatusForGateway` | src/lib/payment-utils.ts:7-46 | the composition: PAID iff confirmed, PAYMENT_PENDING iff authorized, CANCELLED iff denied/voided/aborted, REFUNDED iff refunded, PENDING otherwise |
| `CieloGateway.MapStatus` | src/services/payment.service.ts:230-244 | each of the nine known numeric codes decodes to its status; any other code, or none, decodes to NotFinished |
| `CieloGateway.MapCieloResponse` | src/services/payment.service.ts:207-225 | fields are read from `Payment` when present, else from the top level, and the status code is decoded |
| `CieloGateway.HandleError` | src/services/payment.service.ts:249-257 | the first error item's code and message when truthy, else UNKNOWN_ERROR and the default message; the whole reply kept as details |
| `CieloGateway.Interpret` | src/services/payment.service.ts:108-117 | answered exactly for an OK reply with a JSON body; a non-OK reply fails with the mapped error, a body that is not JSON or a failed fetch fail likewise |
| `CieloGateway.SalePayloadOf` | src/services/payment.service.ts:73-100 | fixed type CreditCard and country BRA; currency defaults to BRL, installments to 1 when falsy, capture to false |
| `CieloGateway.AmountQuery` | src/services/payment.service.ts:128-130 | the amount query suffix is present exactly when the amount is truthy |
| `CieloGateway.CaptureUrl` | src/services/payment.service.ts:128-130 | the capture path under the transaction host, with the amount suffix only for a truthy amount |
| `CieloGateway.CancelUrl` | src/services/payment.service.ts:157-159 | the void path under the transaction host, with the amount suffix only for a truthy amount |
| `CieloGateway.UnknownCodeIsStoredPending` | src/services/payment.service.ts:243 | an unknown status code reads as NotFinished and is stored as a PENDING payment of a PENDING order |
| `CieloGateway.PaymentService.constructor` | src/services/payment.service.ts:25-44 | credentials default to empty; sandbox exactly when the variable is "true", which selects the sandbox hosts |
| `CieloGateway.PaymentService.RequestHeaders` | src/services/payment.service.ts:58-64 | JSON content type and the two credentials |
| `CieloGateway.PaymentService.Authorize` | src/services/payment.service.ts:69-119 | missing credentials fail before anything is sent; otherwise one POST of the sale payload to /1/sales and the interpreted reply |
| `CieloGateway.PaymentService.Capture` | src/services/payment.service.ts:124-148 | missing credentials fail before anything is sent; otherwise one PUT to the capture URL and the interpreted reply |
| `CieloGateway.PaymentService.Cancel` | src/services/payment.service.ts:153-177 | missing credentials fail before anything is sent; otherwise one PUT to the void URL and the interpreted reply |
| `CieloGateway.PaymentService.GetPaymentStatus` | src/services/payment.service.ts:182-202 | missing credentials fail before anything is sent; otherwise one GET on the query host and the interpreted reply |
| `ProductRepository.CheckStock` | src/infrastructure/repositories/ProductRepository.ts:139-146 | false for a missing product; otherwise true exactly when the stock covers the quantity |
| `ProductRepository.UpdateStock` | src/infrastructure/repositories/ProductRepository.ts:126-137 | a missing product is a not-found error with no write; otherwise the stock drops by the quantity, with no lower bound, and nothing else changes |
| `ProductRepository.NewProduct` | src/infrastructure/repositories/ProductRepository.ts:97-106 | the new row carries every given column under the new id |
| `ProductRepository.Create` | src/infrastructure/repositories/ProductRepository.ts:97-106 | a taken slug is a unique-key violation with no write; otherwise exactly the new row is inserted |
| `ProductRepository.ApplyPatch` | src/infrastructure/repositories/ProductRepository.ts:108-118 | absent fields stay; a zero or absent price keeps the old price |
| `ProductRepository.Update` | src/infrastructure/repositories/ProductRepository.ts:108-118 | missing product: not found; a slug used by another product: unique-key violation; otherwise only that row is replaced by the patched row |
| `ProductRepository.Delete` | src/infrastructure/repositories/ProductRepository.ts:120-124 | succeeds exactly when the product exists and no cart row refers to it, removing only that row |
| `ProductRepository.FindAllQuery` | src/infrastructure/repositories/ProductRepository.ts:11-37 | page and limit default to 1 and 12 when falsy; skip is the offset; category and search filters only when truthy |
| `ProductRepository.ListingShowsActiveOnly` | src/infrastructure/repositories/ProductRepository.ts:22-37 | no inactive product matches the listing query; without parameters every active product matches, page 1 of 12 |
| `CartRepository.IndexOfProduct` | src/infrastructure/repositories/CartRepository.ts:58-65 | the row of the cart for the product when there is one (the cartId/productId key lookup), -1 exactly when no row holds the product |
| `CartRepository.SetQuantity` | src/infrastructure/repositories/CartRepository.ts:100-105 | rows with the id get the new quantity, every other row and the row order stay |
| `CartRepository.WithoutItem` | src/infrastructure/repositories/CartRepository.ts:126-128 | exactly the rows whose id differs remain |
| `CartRepository.SetQuantityInCarts` | src/infrastructure/repositories/CartRepository.ts:100-105 | every cart keeps its owner key and has the row's quantity replaced |
| `CartRepository.RemoveFromCarts` | src/infrastructure/repositories/CartRepository.ts:126-128 | every cart keeps its owner key and loses the row with the id |
| `CartRepository.WithoutItemKeepsKey` | src/infrastructure/repositories/CartRepository.ts:126-128 | deleting rows keeps at most one row per product |
| `CartRepository.WithoutItemKeepsIds` | src/infrastructure/repositories/CartRepository.ts:117-138 | a delete adds no row id and keeps the remaining ids distinct |
| `CartRepository.SetQuantityKeepsKeys` | src/infrastructure/repositories/CartRepository.ts:100-105 | a quantity change keeps one row per product and the product references |
| `CartRepository.SetQuantityKeepsIds` | src/infrastructure/repositories/CartRepository.ts:99-115 | a quantity change keeps exactly the row ids and keeps them distinct |
| `CartRepository.SetQuantityKeepsItem` | src/infrastructure/repositories/CartRepository.ts:100-105 | the updated row is still in the cart |
| `CartRepository.WithoutItemRemoves` | src/infrastructure/repositories/CartRepository.ts:126-128 | after the delete no row has the id |
| `CartRepository.SetQuantityInCartsConsistent` | src/infrastructure/repositories/CartRepository.ts:99-115 | the quantity update keeps every table invariant |
| `CartRepository.RemoveFromCartsConsistent` | src/infrastructure/repositories/CartRepository.ts:117-138 | the delete keeps every table invariant |
| `CartRepository.GetCartTotal` | src/infrastructure/repositories/CartRepository.ts:152-175 | 0 for a user without a cart or with an empty cart; otherwise the sum of price times quantity over the rows |
| `CartRepository.CartTotalAppend` | src/infrastructure/repositories/CartRepository.ts:170-172 | the reduce is additive over a split of the rows |
| `CartRepository.CartTotalNonNegative` | src/infrastructure/repositories/CartRepository.ts:170-172 | with non-negative prices and quantities the total is never negative |
| `CartRepository.CreateCart` | src/infrastructure/repositories/CartRepository.ts:30-41 | a user who has a cart gets a unique-key violation and no write; otherwise exactly one empty cart is added for the user |
| `CartRepository.AddedItems` | src/infrastructure/repositories/CartRepository.ts:57-86 | an existing row for the product grows by the quantity in place; otherwise one row is appended; the product of every row is kept |
| `CartRepository.AddedItemsKeepsKeys` | src/infrastructure/repositories/CartRepository.ts:57-86 | the increment-or-insert keeps one row per product and refers only to existing products |
| `CartRepository.AddedItemsKeepsIds` | src/infrastructure/repositories/CartRepository.ts:57-86 | with a fresh id for the new row, the increment-or-insert keeps row ids distinct and uses no id but the cart's own and the new one |
| `CartRepository.FoundOrNewCart` | src/infrastructure/repositories/CartRepository.ts:45-55 | the user's cart when there is one, otherwise a new empty cart owned by the user |
| `CartRepository.AddedToCart` | src/infrastructure/repositories/CartRepository.ts:57-96 | the cart keeps its id and owner; its rows are the increment-or-insert result |
| `CartRepository.AddItemConsistent` | src/infrastructure/repositories/CartRepository.ts:43-97 | creating the cart keeps the tables consistent; an unknown product has no row; adding an existing product keeps them consistent |
| `CartRepository.FindOrCreateCart` | src/infrastructure/repositories/CartRepository.ts:45-55 | returns the found or new cart; only the user's cart entry may change |
| `CartRepository.AddItem` | src/infrastructure/repositories/CartRepository.ts:43-97 | given a new row id that no cart row holds (the database generates it), only the carts table changes and every table invariant, the row-id key included, is kept; an unknown product fails with a foreign-key violation after the cart was created; otherwise the cart after the increment-or-insert is stored and returned |
| `CartRepository.PutCart` | src/infrastructure/repositories/CartRepository.ts:66-85 | the row update or insert stores the user's cart and changes no other table |
| `CartRepository.UpdateItem` | src/infrastructure/repositories/CartRepository.ts:99-115 | a missing row is a record-not-found error with no write; otherwise the row's quantity is set (not incremented) and the owning cart, holding the row, is returned |
| `CartRepository.RemoveItem` | src/infrastructure/repositories/CartRepository.ts:117-138 | a missing row fails with the repository's not-found message and no write; otherwise the row is deleted and the owning cart, now without it, is returned |
| `CartRepository.ItemWriteTouchesOneCart` | src/infrastructure/repositories/CartRepository.ts:99-138 | since a row id is a primary key across all carts, updating or deleting a row by its id leaves every other user's cart unchanged |
| `CartRepository.ClearCart` | src/infrastructure/repositories/CartRepository.ts:140-150 | a user without a cart is left as is; otherwise the cart stays and all its rows are deleted |
| `Store.CartEmptied` | src/infrastructure/repositories/CartRepository.ts:140-150 | emptying a user's cart keeps every table invariant, the row-id key included |
| `OrderRepository.FirstImage` | src/infrastructure/repositories/OrderRepository.ts:179 | present exactly when there is a first image and it is not the empty string, and then it is that image |
| `OrderRepository.Snapshot` | src/infrastructure/repositories/OrderRepository.ts:172-181 | the stored line keeps the input's product, quantity and unit price and copies the product's name and first image |
| `OrderRepository.Snapshots` | src/infrastructure/repositories/OrderRepository.ts:172-181 | one stored line per input line, in order, each its snapshot |
| `OrderRepository.NewOrder` | src/infrastructure/repositories/OrderRepository.ts:165-187 | the inserted order has the given id and number, the caller's user and total, status PENDING and the snapshotted lines |
| `OrderRepository.Create` | src/infrastructure/repositories/OrderRepository.ts:152-190 | a repeated order number is a unique-key violation with no write; otherwise exactly the new order is inserted and returned |
| `OrderRepository.UpdateStatus` | src/infrastructure/repositories/OrderRepository.ts:192-204 | a missing order is a record-not-found error with no write; otherwise only that order's status changes, whatever it was, and the updated order is returned |
| `OrderRepository.FindAllQuery` | src/infrastructure/repositories/OrderRepository.ts:6-24 | take is the limit or 10 when falsy; skip is (page or 1, minus 1) times take; the user and status filters are set exactly when truthy, to the given values |
| `OrderRepository.ListingFilters` | src/infrastructure/repositories/OrderRepository.ts:12-24 | without filters every order matches; with a user filter only that user's orders match; no parameters give skip 0, take 10 |
| `OrderService.TransitionRaisesRank` | src/application/services/OrderService.ts:95-104 | every allowed transition moves strictly forward in the lifecycle |
| `OrderService.StateMachineShape` | src/application/services/OrderService.ts:95-104 | CANCELLED and REFUNDED are terminal, nothing leads back to PENDING, no status moves to itself, every other status has a way out |
| `OrderService.DeliveredOnlyRefunds` | src/application/services/OrderService.ts:95-104 | from DELIVERED the only allowed move is to REFUNDED |
| `OrderService.PathRaisesRank` | src/application/services/OrderService.ts:95-107 | along a chain of allowed transitions the rank grows by at least one per step |
| `OrderService.NoCycles` | src/application/services/OrderService.ts:95-107 | no chain of one or more allowed transitions returns to its start |
| `OrderService.PathsAreShort` | src/application/services/OrderService.ts:95-107 | a chain of allowed transitions has at most eight statuses |
| `OrderService.EveryStatusReachable` | src/application/services/OrderService.ts:95-104 | every status is reachable from PENDING |
| `OrderService.GetOrderById` | src/application/services/OrderService.ts:18-26 | the stored order exactly when the id is stored; otherwise the not-found message |
| `OrderService.StatusUpdate` | src/application/services/OrderService.ts:87-112 | succeeds exactly when the order exists and the table allows the move, giving the order with the new status; a missing order and a refused move give their messages |
| `OrderService.StatusUpdateRefusals` | src/application/services/OrderService.ts:95-109 | re-applying the current status, leaving a terminal status and moving to PENDING are refused |
| `OrderService.UpdateOrderStatus` | src/application/services/OrderService.ts:87-112 | returns the reference outcome; on success only that order changes, on refusal nothing is written |
| `OrderService.CancelOrder` | src/application/services/OrderService.ts:114-119 | a status change to CANCELLED through the same table, with the same write discipline |
| `OrderService.CancelAllowedFrom` | src/application/services/OrderService.ts:95-119 | cancelling succeeds exactly from PENDING, PAYMENT_PENDING, PROCESSING and SHIPPED |
| `OrderService.FirstShortRow` | src/application/services/OrderService.ts:51-56 | the first row whose stock check fails, or -1 when every row passes |
| `OrderService.CheckCartStock` | src/application/services/OrderService.ts:51-56 | the loop stops at the first row without stock, which is the reference position |
| `OrderService.OrderLines` | src/application/services/OrderService.ts:64-72 | one line per cart row with its product, its quantity and the product's current price |
| `OrderService.DecrementAll` | src/application/services/OrderService.ts:77-79 | taking stock for every row keeps the set of products |
| `OrderService.DecrementAllEffect` | src/application/services/OrderService.ts:77-79 | each product's stock drops by the total its rows ask for and nothing else about it changes |
| `OrderService.QuantityOfSingleRow` | src/application/services/OrderService.ts:77-79 | with one row per product, a product's total is its row's quantity, or 0 without a row |
| `OrderService.DecrementKeepsConsistent` | src/application/services/OrderService.ts:77-79 | taking stock keeps every table invariant |
| `OrderService.DecrementStocks` | src/application/services/OrderService.ts:77-79 | the loop of updateStock calls leaves exactly the reference stock table and changes nothing else |
| `OrderService.AfterCheckout` | src/application/services/OrderService.ts:74-82 | checkout leaves payments, categories and users untouched |
| `OrderService.CreateOrderFromCart` | src/application/services/OrderService.ts:42-85 | returns the reference outcome; every rejection (empty cart, short stock, taken order number) writes nothing; success stores the order, takes the stock and empties the cart |
| `OrderService.CheckoutOrder` | src/application/services/OrderService.ts:42-85 | checkout succeeds exactly when the cart has rows, every row has stock and the order number is free; the order is PENDING, for the user, totals the cart and copies the rows at current prices; the cart ends empty |
| `OrderService.CheckoutTakesStock` | src/application/services/OrderService.ts:51-79 | each product's stock drops by exactly its row's quantity, products without a row are untouched, and stock that was not negative stays not negative |
| `AuthorizeRoute.AuthorizeRefusal` | src/app/api/payment/authorize/route.ts:50-67 | the guards in order: no session 401, a refused body 400 with its issues, an unknown order the service's plain error, a caller neither admin nor owner 403, an order not PENDING or PAYMENT_PENDING 400; none exactly when every guard passes |
| `AuthorizeRoute.GatewayRequest` | src/app/api/payment/authorize/route.ts:69-81 | the order's id and total, the parsed installments, capture flag, card and customer, under the store's soft descriptor |
| `AuthorizeRoute.PaymentRow` | src/app/api/payment/authorize/route.ts:84-101 | the order's id and total, the gateway's payment id, the mapped status, a card payment and the gateway's diagnostics and the card brand |
| `AuthorizeRoute.ReplyOf` | src/app/api/payment/authorize/route.ts:111-122 | the payment id and status literal; authorized iff Authorized or PaymentConfirmed; captured iff PaymentConfirmed; the message by status |
| `AuthorizeRoute.AfterGateway` | src/app/api/payment/authorize/route.ts:73-109 | a failed gateway call throws and writes nothing |
| `AuthorizeRoute.AuthorizeSpec` | src/app/api/payment/authorize/route.ts:50-126 | a refusal is thrown with the tables unchanged |
| `AuthorizeRoute.Handle` | src/app/api/payment/authorize/route.ts:51-122 | the gateway is called exactly when no guard refuses, with the reference request; the outcome and the new tables are the reference ones, which stay consistent |
| `AuthorizeRoute.Record` | src/app/api/payment/authorize/route.ts:84-109 | the insert and the status change leave exactly the reference outcome and tables |
| `AuthorizeRoute.Post` | src/app/api/payment/authorize/route.ts:50-126 | the response is the catch block's rendering of the reference outcome; the tables are the reference tables |
| `AuthorizeRoute.NonOwnerIsForbidden` | src/app/api/payment/authorize/route.ts:59-62 | a caller who is neither admin nor owner gets 403, nothing written or sent |
| `AuthorizeRoute.UnpayableOrderIsRefused` | src/app/api/payment/authorize/route.ts:64-67 | an admin or the owner paying an order that is not PENDING or PAYMENT_PENDING gets exactly 400, nothing written or sent |
| `AuthorizeRoute.UnknownOrderIs500` | src/app/api/payment/authorize/route.ts:57 | an unknown order is answered with 500 INTERNAL_ERROR |
| `AuthorizeRoute.AnswerWritesOnePayment` | src/app/api/payment/authorize/route.ts:84-109 | a gateway answer with a new payment id adds exactly one payment row with the mapped status, the order total and a card method, whether or not the order update then succeeds |
| `AuthorizeRoute.AuthorizeSucceeds` | src/app/api/payment/authorize/route.ts:50-126 | success exactly when the guards pass, the gateway answers with a new payment id and the state machine allows the implied move; the order then holds the implied status |
| `AuthorizeRoute.ReplyMatchesOrder` | src/app/api/payment/authorize/route.ts:103-122 | on success authorized holds iff the order is now PAYMENT_PENDING or PAID, captured iff PAID |
| `AuthorizeRoute.StrictTransitionAfterInsert` | src/app/api/payment/authorize/route.ts:84-109 | re-authorizing a PAYMENT_PENDING order, or confirming a PENDING one at once, throws after the payment row was written and the order keeps its status |
| `CartService.GetCart` | src/application/services/CartService.ts:11-20 | always returns a cart owned by the user: the stored one without a write, or a new empty one that is inserted |
| `CartService.AddRefusal` | src/application/services/CartService.ts:22-43 | the guards in order: unknown product, product not active, stock below the quantity, quantity not positive; none exactly when the product exists, is active and 0 < quantity <= stock |
| `CartService.AddToCart` | src/application/services/CartService.ts:22-46 | a refusal is thrown with its message and no write; otherwise the repository's increment-or-insert on the user's (found or new) cart is stored and returned |
| `CartService.AddedQuantityIsCheckedAlone` | src/application/services/CartService.ts:34-38 | the stock guard checks only the added quantity: a row already holding the whole stock accepts one more unit and then exceeds the stock |
| `CartService.UpdateCartItem` | src/application/services/CartService.ts:48-54 | a quantity that is not positive is refused before any write; otherwise the repository's update, with its not-found error for a missing row |
| `ProductService.GetProductById` | src/application/services/ProductService.ts:17-25 | the stored product exactly when the id is stored; otherwise the not-found message |
| `ProductService.GetProductBySlug` | src/application/services/ProductService.ts:27-35 | found exactly when some product has the slug, and then the stored product with that slug; otherwise the not-found message |
| `ProductService.CreateRefusal` | src/application/services/ProductService.ts:37-55 | a missing name or slug or a zero price is invalid data; no refusal exactly when name and slug are non-empty, price positive, stock not negative and the slug free |
| `ProductService.CreateProduct` | src/application/services/ProductService.ts:37-58 | a refusal is thrown with no write; otherwise exactly the new product is inserted and returned, with a positive price and a non-negative stock |
| `ProductService.UpdateRefusal` | src/application/services/ProductService.ts:60-82 | an unknown product is not found; no refusal exactly when the product exists, a given price is positive, a given stock not negative, and a truthy new slug is not another product's |
| `ProductService.UpdateProduct` | src/application/services/ProductService.ts:60-85 | a refusal is thrown with no write; success only when no guard refuses, and then whenever the slug is not given as empty; the stored product becomes the patched one |
| `ProductService.UpdateKeepsProductValid` | src/application/services/ProductService.ts:67-82 | an accepted update keeps a positive price positive and a non-negative stock non-negative, and its slug (unless given as empty) belongs to no other product |
| `ProductService.DeleteProduct` | src/application/services/ProductService.ts:87-95 | an unknown product is not found; a product in some cart is refused by the foreign key; success exactly otherwise, removing just that product |
| `ProductService.DecrementStock` | src/application/services/ProductService.ts:97-109 | without enough stock the insufficient-stock error and no write; otherwise the stock drops by the quantity; stock that was never negative stays so |
| `CategoryService.GetCategoryById` | src/application/services/CategoryService.ts:11-19 | the stored category exactly when the id is stored; otherwise the not-found message |
| `CategoryService.GetCategoryBySlug` | src/application/services/CategoryService.ts:21-29 | found exactly when some category has the slug, and then the stored category with that slug; otherwise the not-found message |
| `CategoryService.CreateCategory` | src/application/services/CategoryService.ts:31-44 | a missing name or slug is refused, then a taken slug; success exactly when both are given and the slug is free, inserting just the new category |
| `CategoryService.ApplyCategoryPatch` | src/application/services/CategoryService.ts:61 | given fields replace the stored ones; absent fields and the id stay |
| `CategoryService.UpdateCategory` | src/application/services/CategoryService.ts:46-62 | an unknown category is not found; a truthy changed slug already used is refused; refusals write nothing; success replaces just that category with the patched one, and happens whenever the patched slug is no other category's |
| `CategoryService.DeleteCategory` | src/application/services/CategoryService.ts:64-72 | an unknown category is not found with no write; a known one is removed and nothing else changes |
| `UserService.UsersQuery` | src/application/services/UserService.ts:25-46 | take is the limit or 10 when falsy; skip is (page or 1, minus 1) times take; the role filter as given; the text search only when non-empty |
| `UserService.UserListingFilters` | src/application/services/UserService.ts:37-46 | a role filter lists only users of that role; without filters every user matches; no parameters give skip 0, take 10 |
| `UserService.Public` | src/application/services/UserService.ts:80-93 | the returned columns are the user's id, name, email, role and image; never the password |
| `UserService.GetUserById` | src/application/services/UserService.ts:77-101 | the user's public columns exactly when the id is stored; otherwise the not-found message |
| `UserService.ApplyUserPatch` | src/application/services/UserService.ts:123-125 | given fields replace the stored ones, the id and the password stay |
| `UserService.ApplyUpdate` | src/application/services/UserService.ts:103-138 | an unknown user is not found; a truthy changed email already used is refused; refusals write nothing; success stores the patched user and returns its public columns, and happens whenever the patched email is no other user's |
| `UserService.UpdateUser` | src/application/services/UserService.ts:103-138 | the user's own update never changes the role; otherwise as the shared update |
| `UserService.AdminUpdateUser` | src/application/services/UserService.ts:140-175 | the admin update may change the role, which is then the given one; otherwise as the shared update |
| `UserService.UpdatePassword` | src/application/services/UserService.ts:177-199 | a missing user or one without a password is not found; a wrong current password is refused; success exactly when the stored hash matches, storing the hash of the new password at cost 12 and nothing else |
| `UserService.DeleteUser` | src/application/services/UserService.ts:201-213 | an unknown user is not found with no write; a known one is removed and nothing else changes |
| `CaptureRoute.CaptureRefusal` | src/app/api/payment/capture/route.ts:24-43 | the guards in order: not an admin 401/403, a refused body 400, an unknown payment 404, a stored status other than AUTHORIZED 400; none exactly when every guard passes |
| `CaptureRoute.ReplyOf` | src/app/api/payment/capture/route.ts:75-83 | the payment id and status literal; captured iff PaymentConfirmed; a captured amount only when the gateway reports a non-zero one; the fixed message |
| `CaptureRoute.AfterGateway` | src/app/api/payment/capture/route.ts:51-73 | a failed gateway call throws and writes nothing |
| `CaptureRoute.CaptureSpec` | src/app/api/payment/capture/route.ts:24-87 | a refusal is thrown with the tables unchanged |
| `CaptureRoute.Handle` | src/app/api/payment/capture/route.ts:25-83 | the gateway is called exactly when no guard refuses, with the payment id and amount; outcome and tables are the reference ones, which stay consistent |
| `CaptureRoute.Record` | src/app/api/payment/capture/route.ts:57-73 | the payment write and the conditional order write leave exactly the reference outcome and tables |
| `CaptureRoute.AfterGatewayConsistent` | src/app/api/payment/capture/route.ts:57-73 | the writes after the gateway call keep every table invariant |
| `CaptureRoute.Post` | src/app/api/payment/capture/route.ts:24-87 | the response is the catch block's rendering of the reference outcome; the tables are the reference tables |
| `CaptureRoute.CaptureEffect` | src/app/api/payment/capture/route.ts:51-83 | with the guards passed and an answer, success; the payment holds the mapped status; the order becomes PAID exactly when that status is PAID; nothing else changes |
| `CaptureRoute.ConfirmedCaptureForcesPaid` | src/app/api/payment/capture/route.ts:67-73 | a confirmed capture makes the order PAID even from statuses the state machine forbids it from |
| `CaptureRoute.RefusalsLeaveTablesAlone` | src/app/api/payment/capture/route.ts:26-43 | only an admin with a stored AUTHORIZED payment reaches the gateway; refusals write nothing; capturing a PAID payment is 400 |
| `CaptureRoute.GatewayFailureWritesNothing` | src/app/api/payment/capture/route.ts:51-86 | a failed gateway call leaves the tables unchanged and answers 500 |
| `CancelRoute.CancelRefusal` | src/app/api/payment/cancel/route.ts:25-49 | the guards in order: no session 401, a refused body 400, an unknown payment 404, a caller neither admin nor the order's owner 403, a status the guard refuses 400; none exactly when every guard passes |
| `CancelRoute.TargetStatus` | src/app/api/payment/cancel/route.ts:74 | CANCELLED exactly when the payment was AUTHORIZED before the call, REFUNDED otherwise |
| `CancelRoute.ReplyOf` | src/app/api/payment/cancel/route.ts:80-87 | the payment id and status literal, cancelled true, the void or refund message by the earlier status |
| `CancelRoute.AfterGateway` | src/app/api/payment/cancel/route.ts:57-78 | a failed gateway call throws and writes nothing |
| `CancelRoute.CancelSpec` | src/app/api/payment/cancel/route.ts:25-91 | a refusal is thrown with the tables unchanged |
| `CancelRoute.Handle` | src/app/api/payment/cancel/route.ts:26-87 | with the guard as written: the gateway is called exactly when no guard refuses; outcome and tables are the reference ones |
| `CancelRoute.Record` | src/app/api/payment/cancel/route.ts:63-78 | the payment write and the order write leave exactly the reference outcome and tables |
| `CancelRoute.Post` | src/app/api/payment/cancel/route.ts:25-91 | the response is the catch block's rendering of the reference outcome; the tables are the reference tables |
| `CancelRoute.GuardAdmitsNothing` | src/app/api/payment/cancel/route.ts:47-49 | the status guard as written admits no stored status |
| `CancelRoute.CancelGuardNeverPasses` | src/app/api/payment/cancel/route.ts:25-91 | as written every request is refused before the gateway, nothing is written, and a permitted caller naming a stored payment gets 400 |
| `CancelRoute.IntendedCancelBranches` | src/app/api/payment/cancel/route.ts:51-87 | with the guard on AUTHORIZED and PAID, the gateway is reached; the payment holds the mapped status and the order is CANCELLED after a void, REFUNDED after a refund; nothing else changes |
| `CancelRoute.IntendedGuardRefusesOthers` | src/app/api/payment/cancel/route.ts:41-49 | with the intended guard any other stored status is refused (400, or 403 for a stranger) with no write |
| `HandlerOutcome.ThrownOf` | src/lib/api-utils.ts:50-95 | API and schema errors keep their class; service, database and gateway errors are plain errors |
| `HandlerOutcome.ResponseOf` | src/lib/api-utils.ts:46-95 | success is the success envelope; an error is the catch block's error response |
| `HandlerOutcome.UnexpectedErrorsAre500` | src/lib/api-utils.ts:86-94 | service, database and gateway errors always give 500 INTERNAL_ERROR, hiding their message |
| `HandlerOutcome.Respond` | src/lib/api-utils.ts:46-95 | the catch block's response is the reference response |
| `HandlerOutcome.WithPayment` | src/app/api/payment/authorize/route.ts:87-101 | every other table is unchanged; the payment keys gain exactly the gateway id, which holds the new row; every other payment row is unchanged |
| `HandlerOutcome.WithOrderStatus` | src/app/api/payment/capture/route.ts:69-72 | every other table and the order keys are unchanged; the order gets the new status with every other column kept; every other order is unchanged |
| `HandlerOutcome.WithPaymentStatus` | src/app/api/payment/capture/route.ts:60-65 | every other table and the payment keys are unchanged; the payment gets the new status with every other column kept; every other payment is unchanged |
| `HandlerOutcome.WithPaymentConsistent` | src/app/api/payment/authorize/route.ts:87-101 | a payment for an existing order keeps every table invariant |
| `HandlerOutcome.OrderStatusWriteConsistent` | src/app/api/payment/capture/route.ts:69-72 | an order status write keeps every table invariant |
| `HandlerOutcome.PaymentStatusWriteConsistent` | src/app/api/payment/capture/route.ts:60-65 | a payment status write keeps every table invariant |
| `HandlerOutcome.InsertPayment` | src/app/api/payment/authorize/route.ts:87-101 | the insert leaves the tables with exactly the new row added |
| `HandlerOutcome.WriteOrderStatus` | src/app/api/payment/capture/route.ts:69-72 | the update leaves the tables with only that order's status changed |
| `HandlerOutcome.WritePaymentStatus` | src/app/api/payment/capture/route.ts:60-65 | the update leaves the tables with only that payment's status changed |
| `CieloWebhook.NotifiedPayment` | src/app/api/webhooks/cielo/route.ts:29-46 | a payment is found exactly when the notification carries a truthy payment id that is stored, and it is that payment |
| `CieloWebhook.Queried` | src/app/api/webhooks/cielo/route.ts:32-50 | the gateway is queried exactly when the notified payment is stored, and with its id |
| `CieloWebhook.Post` | src/app/api/webhooks/cielo/route.ts:23-102 | a body that is not JSON gets the generic 500 response with no query and no write; any parsed notification is acknowledged with received true; the query made and the new tables are the reference reconciliation's |
| `CieloWebhook.Reconcile` | src/app/api/webhooks/cielo/route.ts:52-83 | the payment write and the conditional order write keep the tables consistent and leave exactly the reference reconciliation |
| `CieloWebhook.ReconciledEffect` | src/app/api/webhooks/cielo/route.ts:52-83 | the tables stay consistent; the payment gets the mapped status, the order the status that implies, and nothing else changes |
| `CieloWebhook.UnknownPaymentWritesNothing` | src/app/api/webhooks/cielo/route.ts:32-46 | no payment id, or an unknown one: no query and no write |
| `CieloWebhook.QueryFailureWritesNothing` | src/app/api/webhooks/cielo/route.ts:49-95 | a failed status query is swallowed with no write |
| `CieloWebhook.ChangeTypeIsIgnored` | src/app/api/webhooks/cielo/route.ts:30 | the change type never influences the outcome |
| `CieloWebhook.WebhookConverges` | src/app/api/webhooks/cielo/route.ts:52-83 | after an answered query the payment holds the mapped status and the order its implied status, even where the state machine forbids the move (DELIVERED to CANCELLED) |
| `CieloWebhook.WebhookIdempotent` | src/app/api/webhooks/cielo/route.ts:23-102 | a repeated notification with the same gateway answer changes nothing more |
| `CieloWebhook.ReconciledFixedPoint` | src/app/api/webhooks/cielo/route.ts:59-83 | a payment and order already holding the implied statuses are left unchanged |
| `CieloWebhook.WebhookAfterAuthorize` | src/app/api/webhooks/cielo/route.ts:23-102 | after a successful authorization, a notification reporting the same status changes nothing |
| `CieloWebhook.WebhookAfterConfirmedCapture` | src/app/api/webhooks/cielo/route.ts:23-102 | after a capture the gateway confirmed, a notification reporting it confirmed changes nothing |
| `ClientCart.Merged` | src/stores/cart-store.ts:39-47 | same length; the item of the product gets min(old + added, stock), every other item is kept |
| `ClientCart.Without` | src/stores/cart-store.ts:65-69 | exactly the items of other products remain, and none of the removed product |
| `ClientCart.WithQuantity` | src/stores/cart-store.ts:71-84 | same length; the product's item gets the quantity clamped to its own stock, never above it; other items kept |
| `ClientCart.Sum` | src/stores/cart-store.ts:102-108 | a fold of non-negative weights is non-negative |
| `ClientCart.CartStore.constructor` | src/stores/cart-store.ts:31-33 | the store starts empty and closed |
| `ClientCart.CartStore.AddItem` | src/stores/cart-store.ts:35-63 | the items become the merged-or-appended list with the new item's id built from the product id and the clock; the drawer opens; one item per product is kept |
| `ClientCart.CartStore.RemoveItem` | src/stores/cart-store.ts:65-69 | the items of the product are filtered out; the drawer state stays; one item per product is kept |
| `ClientCart.CartStore.UpdateQuantity` | src/stores/cart-store.ts:71-84 | a quantity that is not positive removes the product; otherwise the clamped update; the drawer state stays; one item per product is kept |
| `ClientCart.CartStore.ClearCart` | src/stores/cart-store.ts:86-88 | no items left, drawer state kept |
| `ClientCart.CartStore.OpenCart` | src/stores/cart-store.ts:90-92 | open, items kept |
| `ClientCart.CartStore.CloseCart` | src/stores/cart-store.ts:94-96 | closed, items kept |
| `ClientCart.CartStore.ToggleCart` | src/stores/cart-store.ts:98-100 | the drawer state flips, items kept |
| `ClientCart.CartStore.GetItemCount` | src/stores/cart-store.ts:102-104 | the sum of the quantities, non-negative when they are |
| `ClientCart.CartStore.GetTotal` | src/stores/cart-store.ts:106-108 | the sum of price times quantity, non-negative when prices and quantities are |
| `ClientCart.AddItemMergesOrAppends` | src/stores/cart-store.ts:35-59 | a held product keeps every item's id, product, price and stock and raises only its quantity to min(old + added, stock); otherwise the old list is a prefix and one new unclamped item follows |
| `ClientCart.AddKeepsOneItemPerProduct` | src/stores/cart-store.ts:35-59 | adding keeps at most one item per product |
| `ClientCart.WithoutKeepsOneItemPerProduct` | src/stores/cart-store.ts:65-69 | removing keeps at most one item per product |
| `ClientCart.SumConcat` | src/stores/cart-store.ts:102-108 | the count and total folds are additive over concatenation |
| `ClientCart.WithoutAbsent` | src/stores/cart-store.ts:65-69 | removing a product not held leaves the list as it is |
| `ClientCart.RemoveIdempotent` | src/stores/cart-store.ts:65-69 | removing twice is removing once |
| `ClientCart.WithoutConcat` | src/stores/cart-store.ts:65-69 | the filter distributes over concatenation |
| `ClientCart.RemoveDeletesOneItem` | src/stores/cart-store.ts:65-69 | with one item per product, removing deletes exactly that item and lowers the count or total by its weight |
| `ClientCart.AddItemCount` | src/stores/cart-store.ts:35-59 | adding a new product raises the item count by its quantity; adding a held one changes the count by the clamped increase |
| `ClientCart.MergedAt` | src/stores/cart-store.ts:39-47 | with one item per product, the merge replaces exactly that product's item |
| `ClientCart.UpdateKeepsProducts` | src/stores/cart-store.ts:77-83 | a quantity update keeps every item's product and one item per product |
| `PaymentForm.StripSpaces` | src/components/checkout/payment-form.tsx:26 | no whitespace remains and every kept character comes from the input |
| `PaymentForm.Digits` | src/components/checkout/payment-form.tsx:35-42 | only decimal digits remain, never more characters than the input |
| `PaymentForm.TrimStart` | src/components/checkout/payment-form.tsx:28 | the result does not start with whitespace |
| `PaymentForm.TrimEnd` | src/components/checkout/payment-form.tsx:28 | the result does not end with whitespace |
| `PaymentForm.Slice` | src/components/checkout/payment-form.tsx:29-42 | the first min(length, n) characters |
| `PaymentForm.FormatCardNumber` | src/components/checkout/payment-form.tsx:24-30 | the card field never exceeds 19 characters |
| `PaymentForm.FormatExpiry` | src/components/checkout/payment-form.tsx:33-38 | the expiry field never exceeds 7 characters |
| `PaymentForm.FormatSecurityCode` | src/components/checkout/payment-form.tsx:41-43 | at most 4 characters, all digits, a prefix of the input's digits, exactly 4 when the input has 4 or more digits |
| `PaymentForm.ToNumber` | src/components/checkout/payment-form.tsx:45 | Number() of blank text is 0; of non-blank text that is not a decimal numeral it is NaN |
| `PaymentForm.HandleChange` | src/components/checkout/payment-form.tsx:18-46 | only the named field changes; holder and brand are taken as typed; the card, expiry and security code fields keep their length bounds |
| `PaymentForm.Spaced` | src/components/checkout/payment-form.tsx:26-29 | digits laid out in groups of four have one separating space per full group before the last |
| `PaymentForm.SpacedShape` | src/components/checkout/payment-form.tsx:26-29 | in the layout a space sits exactly at every fifth position and every other position is a digit |
| `PaymentForm.StripSpacesConcat` | src/components/checkout/payment-form.tsx:26 | whitespace removal distributes over concatenation |
| `PaymentForm.StripSpacesOfDigits` | src/components/checkout/payment-form.tsx:26 | digits have no whitespace to remove |
| `PaymentForm.StripSpacedIsDigits` | src/components/checkout/payment-form.tsx:26-29 | removing the spaces from the layout gives the digits back |
| `PaymentForm.GroupFoursShort` | src/components/checkout/payment-form.tsx:27 | fewer than four characters are left as they are by the grouping |
| `PaymentForm.TrimEndConcat` | src/components/checkout/payment-form.tsx:28 | trimming the end of a concatenation only touches the second part when it is not all whitespace |
| `PaymentForm.TrimmedGroupsAreSpaced` | src/components/checkout/payment-form.tsx:26-28 | grouping digits and trimming gives the layout |
| `PaymentForm.GroupedDigitsEnd` | src/components/checkout/payment-form.tsx:27-28 | the grouping ends in the layout plus at most trailing spaces and starts with the first digit |
| `PaymentForm.SpacedPrefix` | src/components/checkout/payment-form.tsx:29 | cutting the layout of more than 4k digits before the k-th space gives the layout of the first 4k digits |
| `PaymentForm.CardNumberLayout` | src/components/checkout/payment-form.tsx:24-30 | for digits and whitespace, the card field is the layout of the first sixteen digits, and removing its spaces gives them back |
| `PaymentForm.CardNumberIdempotent` | src/components/checkout/payment-form.tsx:24-30 | formatting an already formatted card number changes nothing |
| `PaymentForm.DigitsConcat` | src/components/checkout/payment-form.tsx:35-42 | digit extraction distributes over concatenation |
| `PaymentForm.DigitsOfDigits` | src/components/checkout/payment-form.tsx:35-42 | extracting digits from digits changes nothing |
| `PaymentForm.ExpiryShape` | src/components/checkout/payment-form.tsx:33-38 | digits and at most one slash, at index 2, present exactly when the input has three digits or more; without the slash, the first six digits |
| `PaymentForm.ExpiryIdempotent` | src/components/checkout/payment-form.tsx:33-38 | formatting an already formatted expiry changes nothing |
| `PaymentForm.SecurityCodeIdempotent` | src/components/checkout/payment-form.tsx:41-43 | formatting an already formatted security code changes nothing |
| `PaymentForm.NoSpacesInNumerals` | src/components/checkout/payment-form.tsx:156-157 | an option value written in decimal has nothing to trim |
| `PaymentForm.NumeralValue` | src/components/checkout/payment-form.tsx:156-157 | a decimal numeral reads back as its value |
| `PaymentForm.InstallmentsRoundTrip` | src/components/checkout/payment-form.tsx:156-157 | every installments option value converts back to the number it was written from |
| `Middleware.Decide` | src/middleware.ts:4-29 | redirect to /login exactly for an admin, cart or checkout path without a session cookie; redirect home exactly for a login or register path with one; pass otherwise |
| `Middleware.VisitorsReachTheirPages` | src/middleware.ts:14-28 | a logged-in visitor reaches every page but the auth pages; an anonymous one every page that needs no login |
| `Middleware.RedirectsSettle` | src/middleware.ts:14-28 | following a redirect with the same cookies is never redirected again |

## Left out

- **Network, database and JSON.** The HTTP transport, JSON encoding and the database engine are not modelled. A gateway call is a function parameter returning `Answered(response)` or `Failed(error)`. A request body arrives already parsed: `Ok(input)`, or `Err(issues)` for a schema refusal. The webhook's body is `None` when it is not JSON; a JSON `null` body, whose `PaymentId` read throws inside the outer `try` and so also ends in the 500 of the catch block, is modelled by the same `None`.
- **Schema validators.** Their rules (field lengths, the cuid and email formats, the enumerations, installments between 1 and 12) are not restated. A handler receives their outcome.
- **Database failures.** Connection errors and other unexpected failures are not modelled, so a statement fails only through the unique keys, foreign keys and missing rows in `Store.Consistent`.
  - Consequence: an order update that fails after the webhook's payment update, whose error the webhook swallows, is not modelled.
  - Consequence: the outer catch of the webhook is reached only for a body that is not JSON.
- **The webhook's health check.** The `GET` handler of the webhook route returns a constant payload and is not modelled.
- **Logging.** Logging and `console` output are left out; they change no state.
- **Concurrency.** Interleavings of concurrent requests and database transactions are not modelled. Every handler runs to completion on one snapshot of the tables.
- **Floating point.** Money is integer cents. `Number()` of a decimal column, the float product `price * quantity`, and `Math.round(x * 100)` are not modelled.
- `AuthorizeRoute.GatewayRequest`: sends the order total as the amount in cents directly, because totals are already cents here (the source rounds the float total times 100).
- `CaptureRoute.ReplyOf`: reports the captured amount in cents, not divided by 100 as a float.
- **Clock.** `Date.now()` is a parameter.
  - The order number of `OrderRepository.Create` and the id of a new client-cart item are chosen by the caller.
  - `OrderService.CreateOrderFromCart` takes the order number and order id as parameters.
- **bcrypt.** `bcrypt.compare` and `bcrypt.hash` are function parameters of `UserService.UpdatePassword`. The cost factor 12 is passed to `hash`.
- **Database text search.** Case-insensitive `contains` matching in the product and user listings is a predicate parameter.
- **Listing reads.** Sort order (`createdAt desc`, `name asc`), the `include`/`select` shapes and the row counts returned beside a page are not modelled. Listing queries are modelled by the filter and paging they send.
- **Lookups that delegate without a check:**
  - `OrderRepository.findById`, `findByOrderNumber` and `findByUserId`;
  - `CartRepository.findByUserId`;
  - `OrderService.getOrders`, `getOrderByNumber` and `getUserOrders`;
  - `ProductService.getProducts` and `checkProductStock`;
  - `CategoryService.getCategories`.

  They are map lookups. Where a service throws on a miss, that is modelled (`GetOrderById`, `GetProductById`, `GetCategoryById`, `GetUserById`).
- **Cart service delegates.** `CartService.removeFromCart`, `clearCart` and `getCartTotal` call the repository directly; the repository members model them.
- **OrderRepository.delete.** A single-row delete that no core operation calls.
- `ApiUtils.GroupedIsMessagesByPath`, `ApiUtils.Validation`: an issue path is a sequence of strings joined with `.`; numeric path elements (array indices), which JavaScript's `join` writes as their decimal text, are not modelled as numbers.
- **Referential actions.** `CategoryService.DeleteCategory` and `UserService.DeleteUser` always succeed for a known row. The database schema, with its referential actions for products of a deleted category and orders of a deleted user, is not part of this model.
- `ProductRepository.Delete`, `ProductService.DeleteProduct`: the refusal with a foreign-key violation while a cart row refers to the product is an assumed restrict rule, not one the repository code shows; it is kept so that deleting a product preserves `Store.Consistent` (every cart row refers to an existing product). Order items, which hold a snapshot of the product, are not checked, so a product named by past orders is deleted; what the schema really does for either reference is not modelled.
- **Cart store persistence and its React bindings.** The cart store's local-storage persistence and its React bindings are left out, and its prices are integers.
- **Payment-form rendering.** The rendering, submit handler and navigation buttons of the payment form are left out.
- **Middleware URLs.** The middleware matcher pattern and the URL object are left out. The guard sees the path, and a redirect is given by its target path.
- **Gateway text.** Gateway messages, and the message text of database and network errors, are not modelled.
- `PaymentForm.ToNumber`: models `Number()` on decimal digits with surrounding whitespace only. Signs, decimals, exponents and hexadecimal forms, which the installments select never produces, are left out.
- `PaymentForm.Slice`: lengths are counted in characters (Unicode scalar values), not the UTF-16 code units JavaScript's `slice` counts; `FormatCardNumber` keeps every non-space character, so for input with characters outside the Basic Multilingual Plane it cuts at a different place than the source (the expiry and security-code formatters slice ASCII digits only, where the two counts agree).
- `ApiUtils.PaginationResponse`: a numeric limit below 1, which JavaScript would divide into an infinite or negative page count, is excluded; its only callers pass the limit of `GetPaginationParams`, which is NaN or between 1 and 100.
- `PaymentForm.FormatExpiry`: proved for length and shape (`PaymentForm.ExpiryShape`), not for a valid month.

## Findings

| source | as written | input that shows it | evidently intended | confidence | as-written member | corrected member |
|---|---|---|---|---|---|---|
| src/app/api/payment/cancel/route.ts:47 | the status guard compares the stored payment status with the gateway's spellings `Authorized` and `PaymentConfirmed`, which no stored status (`AUTHORIZED`, `PAID`, ...) ever equals, so every cancellation is refused with 400 | an administrator cancelling a stored payment whose status is `AUTHORIZED` | void an `AUTHORIZED` payment (order CANCELLED) and refund a `PAID` one (order REFUNDED), as the branches after the guard do | high, not executed | `CancelRoute.CancelGuardNeverPasses` | `CancelRoute.IntendedCancelBranches` |
| src/lib/api-utils.ts:132-135 | `parseInt` of a page or limit that is not numeric is NaN, which `Math.max`/`Math.min` keep, so page, limit and skip come out NaN, and the listing response then has no next or previous page (`ApiUtils.NonNumericPageLosesNavigation`) | `page=abc` | fall back to page 1 and limit 12 and keep skip a non-negative offset | high, not executed | `ApiUtils.NonNumericPageIsNaN` | `ApiUtils.GetPaginationParamsSafe` |
