# POS microservices: gateway, stock and sales consumers, controllers

This project models the decision logic of a point-of-sale system built as
Laravel microservices, and proves properties of it:

- **API gateway.** The route table (`routes/api.php`) and the three
  middlewares. JWT validation is delegated to the auth service. The rate
  limiter is a per-IP counter in the cache whose one-minute expiry is
  refreshed on every admitted request. The per-service
  circuit breaker also keeps its counter and reset time in the cache.
  `GatewayController` proxies requests to a backend and aggregates the
  dashboard.
- **Message broker consumer.** `RabbitMQClient::consume` binds a queue to
  routing keys, decodes each message, and acks it when the handler returns
  or nacks it (no requeue) when the handler throws.
- **Stock handler.** The product service's `rabbitmq:consume-orders` handler takes
  stock on `order.created` and gives it back on `order.cancelled`.
- **Sales handler.** The reporting service's `rabbitmq:consume-payments` handler
  folds each `payment.completed` event into the daily sales report.
- **Controller logic.** The decision logic of the product, order, cart,
  payment and report controllers: validation outcomes, stock adjustment,
  the stock check, order creation, update and deletion with their events,
  cart merging and checkout, payment processing and verification with the
  `payment.*` events, and the sales, product, trend and period
  aggregations.

State that the source updates in place is modelled as classes whose methods
are proved against pure functions. This covers the cache, the product table,
the order book and its published events, the carts, the payment ledger, the
report store and the broker channel. Outside effects are inputs:

- the clock, generated ids and order numbers;
- the replies of other services (an `HttpResult` that is a reply or a thrown
  exception);
- the payment method's code;
- a transaction failing at a given line.

Money is `real`; dates are day numbers and times are seconds.

Where the written description of the system and the code disagree, the model
follows the code:

- The breaker counts only thrown exceptions, never a 5xx reply.
- A failed probe after the timeout restarts the count at 1 instead of
  reopening the circuit.
- The rate limiter refreshes the one-minute expiry on every admitted
  request.

Four defects found while proving are listed under Findings. Each is
modelled as written and as evidently intended; where other parts of the
model build on one, they use the intended version.

## Model

| member | source | states |
|---|---|---|
| CircuitBreaker.ResetTime | gateway/laravel/app/Http/Middleware/CircuitBreakerMiddleware.php:24-25 | the reset key reads as present exactly when it is stored |
| CircuitBreaker.Guard | gateway/laravel/app/Http/Middleware/CircuitBreakerMiddleware.php:15-54 | open (5 or more failures and reset time ahead): 503 with the seconds left, handler not called, nothing changed; otherwise the handler is called and its reply or exception handed back; a reply below 500 clears the counter and leaves the reset key as the call found it; a reply of 500 or more leaves it as it was when the call was admitted (cleared for a half-open call); an exception adds one failure to that count and restarts the 60 s timer; other services untouched |
| CircuitBreaker.ExceptionsAccumulate | gateway/laravel/app/Http/Middleware/CircuitBreakerMiddleware.php:41-52 | from a closed circuit, up to 5 exceptions in a row are all let through and leave exactly that many failures, timer set by the last |
| CircuitBreaker.OpenAfterFiveExceptions | gateway/laravel/app/Http/Middleware/CircuitBreakerMiddleware.php:21-30 | after 5 exceptions, any call within 60 s of the last short-circuits without reaching the handler |
| CircuitBreaker.ProbeFailureRestartsCount | gateway/laravel/app/Http/Middleware/CircuitBreakerMiddleware.php:24-35 | once the reset time passed the next call goes through; if it throws the count restarts at 1 and the circuit is not open after it |
| CircuitBreaker.Breaker.Handle | gateway/laravel/app/Http/Middleware/CircuitBreakerMiddleware.php:15-54 | the in-place middleware gives exactly the outcome, call decision and cache of Guard |
| RateLimit.Limit | gateway/laravel/app/Http/Middleware/RateLimitMiddleware.php:12-33 | 429 with retry_after 60 iff the live count reached the limit, cache unchanged; otherwise count + 1 with a fresh 60 s expiry, readable for the next minute, remaining header in [0, max-1]; other clients untouched; no counter ever exceeds the limit |
| RateLimit.BurstCount | gateway/laravel/app/Http/Middleware/RateLimitMiddleware.php:16-30 | k requests within a minute of each other from no live counter leave the counter at k, expiring a minute after the last |
| RateLimit.BurstIsCounted | gateway/laravel/app/Http/Middleware/RateLimitMiddleware.php:16-30 | those k ≤ max requests are all admitted |
| RateLimit.BurstLimit | gateway/laravel/app/Http/Middleware/RateLimitMiddleware.php:16-23 | with limit N, requests 1..N of a burst with no minute-long gap pass and request N+1 gets 429 |
| RateLimit.Limiter.Handle | gateway/laravel/app/Http/Middleware/RateLimitMiddleware.php:12-33 | the in-place middleware decides as Limit and calls the next handler exactly when admitted |
| Jwt.Authenticate | gateway/laravel/app/Http/Middleware/JwtMiddleware.php:12-39 | a missing or falsy token is rejected without calling the auth service; a thrown call is 503, a failed reply 401; authenticated iff the call succeeded, with the reply's user |
| Jwt.ErrorOf | gateway/laravel/app/Http/Middleware/JwtMiddleware.php:14-36 | the request goes on exactly when authenticated; 503 exactly for an unreachable auth service; the replies are 401 "Token not provided", 401 "Invalid token" and 503 "Authentication service unavailable" |
| Jwt.Handle | gateway/laravel/app/Http/Middleware/JwtMiddleware.php:12-39 | the auth service is called iff a token is present; the next handler runs once iff authenticated, and only then is the user merged into the request |
| Common.Field | gateway/laravel/app/Http/Middleware/JwtMiddleware.php:29 | `json('user')` gives the field when the body has it, null otherwise |
| Common.Lower | gateway/laravel/app/Http/Controllers/GatewayController.php:50 | `strtolower` of the HTTP method: ASCII upper-case letters lowered, everything else kept, same length |
| Gateway.ServiceNames | gateway/laravel/app/Http/Controllers/GatewayController.php:15-21 | exactly the five services, each with a base URL |
| Gateway.Route | gateway/laravel/app/Http/Controllers/GatewayController.php:26-64 | unknown service: 404 and nothing forwarded; a call is made exactly for a known service and a method the HTTP client has (get, head, post, put, patch, delete), to base + "/api/" + path with the lower-cased method, body, token and tracing headers; the reply comes back unchanged; an exception, including the missing `options` method, becomes 503 with message and service |
| Gateway.OptionsNeverForwarded | gateway/laravel/app/Http/Controllers/GatewayController.php:44-63 | an OPTIONS request to a known service is answered 503 and never reaches the backend |
| Gateway.ClientVerbsForwarded | gateway/laravel/app/Http/Controllers/GatewayController.php:44-50 | every other method `Route::any` admits names a method the HTTP client has |
| Gateway.ProxiedCallsNeverOpen | gateway/laravel/app/Http/Controllers/GatewayController.php:57-63 | calls that all end in a reply, as Route's always do, leave the breaker's count at 0 and the circuit never open |
| Gateway.Part | gateway/laravel/app/Http/Controllers/GatewayController.php:74-83 | a reply gives its body when successful and null otherwise; a call that could not connect leaves no part (calling `successful()` on the pooled exception fails) |
| Gateway.Aggregate | gateway/laravel/app/Http/Controllers/GatewayController.php:69-85 | as written: 500 exactly when some call could not connect; otherwise 200 with each of products, orders, payments that service's body when successful and null otherwise |
| Gateway.UnreachableBackendFailsDashboard | gateway/laravel/app/Http/Controllers/GatewayController.php:74-84 | two summaries answering 200 and the payments call failing to connect give 500 as written, and 200 with payments null as intended |
| Gateway.PartIntended | gateway/laravel/app/Http/Controllers/GatewayController.php:81-83 | intended: a successful reply gives its body, anything else, an unreachable backend included, null |
| Gateway.AggregateIntended | gateway/laravel/app/Http/Controllers/GatewayController.php:69-85 | intended: always 200, each part its own call's PartIntended |
| Gateway.AggregateAgreesWhenAllAnswer | gateway/laravel/app/Http/Controllers/GatewayController.php:74-84 | when every backend replies, the dashboard as written and as intended are the same |
| Gateway.PartsAreIndependent | gateway/laravel/app/Http/Controllers/GatewayController.php:80-84 | in the intended dashboard the payments outcome, failure to connect included, does not change the products and orders parts |
| GatewayRoutes.Below | gateway/laravel/routes/api.php:24-25 | a captured tail is the non-empty rest of the URI after prefix + "/" |
| GatewayRoutes.Missing | gateway/laravel/routes/api.php:31-34 | the defaults not captured, each kept and none dropped |
| GatewayRoutes.Bind | gateway/laravel/routes/api.php:24-34 | the captured parameters come first, in order, followed by exactly the defaults not captured |
| GatewayRoutes.FirstFrom | gateway/laravel/routes/api.php:30-59 | the first prefix group, in registration order, whose route matches, none before it matching; none if no group matches |
| GatewayRoutes.GroupCall | gateway/laravel/routes/api.php:30-59 | a bare prefix calls route(service, prefix); a captured tail is bound before the `service` default, so route receives (tail, service); intended: route(service, URI) |
| GatewayRoutes.MatchPrefix | gateway/laravel/routes/api.php:30-59 | a prefix match forwards the group's call behind the protected stack plus that service's breaker |
| GatewayRoutes.AuthCall | gateway/laravel/routes/api.php:23-27 | `auth/<tail>` calls route(tail, "auth") as written; intended: route("auth", URI) |
| GatewayRoutes.Table | gateway/laravel/routes/api.php:8-75 | in the intended table every forwarded path is the URI itself |
| GatewayRoutes.PublicAuthRoutes | gateway/laravel/routes/api.php:8-14 | login and register are public and forwarded unchanged to the auth service |
| GatewayRoutes.ProtectedRoutesStack | gateway/laravel/routes/api.php:17-59 | every other route except health passes jwt, rate.limit:100, circuit.breaker:default first |
| GatewayRoutes.BarePrefixRoutes | gateway/laravel/routes/api.php:30-59 | a bare prefix forwards the prefix itself to its service behind its own breaker |
| GatewayRoutes.CapturedTailBecomesService | gateway/laravel/routes/api.php:29-59 | as written `<prefix>/<tail>` calls route with the tail as the service and the group's service as the path |
| GatewayRoutes.AuthTailBecomesService | gateway/laravel/routes/api.php:23-27 | as written `auth/<tail>` (other than a public POST) calls route(tail, "auth") behind the protected stack |
| GatewayRoutes.CapturedTailNotFound | gateway/laravel/routes/api.php:29-59 | a captured tail that names no service is answered 404 "Service not found" with the tail as the service, nothing forwarded |
| GatewayRoutes.CapturedServiceTailMisroutes | gateway/laravel/routes/api.php:29-59 | a captured tail that names a service is forwarded, for any method but OPTIONS, to that service at `/api/<group service>` |
| GatewayRoutes.ResolveIntended | gateway/laravel/routes/api.php:30-59 | the corrected table forwards every proxied URI as its own path |
| GatewayRoutes.IntendedVersusAsWritten | gateway/laravel/routes/api.php:23-59 | corrected and as-written tables match the same URIs with the same middleware and agree on a bare prefix; on a captured tail the one as written swaps service and path |
| GatewayRoutes.ProbeStatus | gateway/laravel/routes/api.php:77-84 | healthy iff successful, unreachable iff thrown, unhealthy iff a failed reply |
| GatewayRoutes.CheckHealth | gateway/laravel/routes/api.php:63-75 | the gateway reports healthy with one probe status for each of the five services |
| Broker.KeyList | product-service/laravel/app/Services/RabbitMQ/RabbitMQClient.php:44 | one routing key or a list is cast to a list |
| Broker.PayloadOf | product-service/laravel/app/Services/RabbitMQ/RabbitMQClient.php:51 | an array body is the payload; undecodable or null becomes the empty payload; a scalar has none |
| Broker.Deliver | product-service/laravel/app/Services/RabbitMQ/RabbitMQClient.php:49-60 | ack iff a payload exists and the handler returned, with its new state; otherwise nack without requeue and state unchanged |
| Broker.Drain | product-service/laravel/app/Services/RabbitMQ/RabbitMQClient.php:64-66 | one settlement per message, in delivery order, never requeued |
| Broker.SettlementsAreFinal | product-service/laravel/app/Services/RabbitMQ/RabbitMQClient.php:64-66 | the settlements of a prefix of the queue do not depend on later messages |
| Broker.AckedIffHandlerReturned | product-service/laravel/app/Services/RabbitMQ/RabbitMQClient.php:49-60 | message i is settled as its own delivery against the state left by messages before it |
| Broker.DroppedMessagesChangeNothing | product-service/laravel/app/Services/RabbitMQ/RabbitMQClient.php:56-59 | if every message is nacked the state is unchanged |
| Broker.Channel.Consume | product-service/laravel/app/Services/RabbitMQ/RabbitMQClient.php:41-67 | the queue is bound once per routing key in order, drained, and the settlements and final state are those of Drain |
| Products.StatusFor | product-service/laravel/app/Http/Controllers/ProductController.php:66 | available iff stock > 0 |
| Products.Create | product-service/laravel/app/Http/Controllers/ProductController.php:55-78 | 422 iff price < 0 or stock < 0; otherwise the product with its status derived from stock |
| Products.Update | product-service/laravel/app/Http/Controllers/ProductController.php:94-120 | 422 iff a given price or stock is negative; only given fields change; a new stock sets the status from it; without stock a given status is taken as is |
| Products.UpdateWithStockIsConsistent | product-service/laravel/app/Http/Controllers/ProductController.php:106-108 | an update with stock leaves status and stock consistent |
| Products.StatusOnlyUpdateIsTakenAsGiven | product-service/laravel/app/Http/Controllers/ProductController.php:103 | a status-only update can mark a product in stock as out of stock |
| Products.LowStockIsAvailable | product-service/laravel/app/Http/Controllers/ProductController.php:236 | for a consistent product, low stock (1..10) means available |
| Products.Adjust | product-service/laravel/app/Http/Controllers/ProductController.php:138-193 | 404 for a missing product; 400 iff a decrease exceeds the stock, nothing changed; otherwise the stock moves by the quantity, the status follows, and the stock.adjusted event carries old and new stock and the reason or "Manual adjustment" |
| Products.AdjustKeepsStockNonNegative | product-service/laravel/app/Http/Controllers/ProductController.php:162-165 | with a non-negative quantity no stock goes negative |
| Products.NegativeIncreaseGoesBelowZero | product-service/laravel/app/Http/Controllers/ProductController.php:150-156 | a negative quantity passes validation and an increase can drive stock below zero |
| Products.CheckStock | product-service/laravel/app/Http/Controllers/ProductController.php:198-223 | 422 unless the list is non-empty and every line names a stored product with quantity ≥ 1; otherwise one entry per line with name, requested, available, and is_available iff stock ≥ quantity |
| Products.Inventory.AdjustStock | product-service/laravel/app/Http/Controllers/ProductController.php:138-193 | the in-place adjustment gives the reply and table of Adjust |
| Products.Inventory.CheckStockOf | product-service/laravel/app/Http/Controllers/ProductController.php:198-223 | the loop over the lines gives CheckStock |
| StockConsumer.DirectionOf | product-service/laravel/app/Console/Commands/ConsumeOrderEvents.php:25-26 | increase iff the status is "cancelled"; no status decreases |
| StockConsumer.ApplyLine | product-service/laravel/app/Console/Commands/ConsumeOrderEvents.php:35-63 | lines without a product, with quantity ≤ 0, for an unknown product, or a decrease beyond the stock are skipped; otherwise the stock moves by the quantity and the status follows |
| StockConsumer.LineAgreesWithAdjustStock | product-service/laravel/app/Console/Commands/ConsumeOrderEvents.php:47-58 | a line does what adjustStock would do, except that an insufficient decrease is skipped instead of refused |
| StockConsumer.ApplyLines | product-service/laravel/app/Console/Commands/ConsumeOrderEvents.php:33-71 | the lines in order never add or remove products |
| StockConsumer.HandleIntended | product-service/laravel/app/Console/Commands/ConsumeOrderEvents.php:22-72 | corrected handler: a message without an order id or items is ignored; otherwise every line is applied in the message's direction |
| StockConsumer.HandleAsWritten | product-service/laravel/app/Console/Commands/ConsumeOrderEvents.php:33-47 | as written the closure reads an undefined `$direction`: the handler throws iff some line is eligible, and changes nothing otherwise |
| StockConsumer.AsWrittenNeverAdjusts | product-service/laravel/app/Console/Commands/ConsumeOrderEvents.php:33-47 | as written no sequence of messages ever changes any stock |
| StockConsumer.AsWrittenDropsOrderCreated | product-service/laravel/app/Console/Commands/ConsumeOrderEvents.php:33-56 | an order.created for 3 of a product with stock 10 throws as written; the intended handler leaves 7 |
| StockConsumer.NeverNegative | product-service/laravel/app/Console/Commands/ConsumeOrderEvents.php:47-56 | from non-negative stock, no line sequence in any direction makes stock negative |
| StockConsumer.StaysConsistent | product-service/laravel/app/Console/Commands/ConsumeOrderEvents.php:60-63 | the status stays in line with stock |
| StockConsumer.UnnamedUnchanged | product-service/laravel/app/Console/Commands/ConsumeOrderEvents.php:35-45 | a product named by no line is untouched |
| StockConsumer.Requested | product-service/laravel/app/Console/Commands/ConsumeOrderEvents.php:35-45 | the counted quantity of a product over the lines is never negative |
| StockConsumer.IncreaseAddsRequested | product-service/laravel/app/Console/Commands/ConsumeOrderEvents.php:58 | a cancel adds exactly the requested quantity |
| StockConsumer.DecreaseTakesRequested | product-service/laravel/app/Console/Commands/ConsumeOrderEvents.php:47-56 | with enough stock for every line, a create takes exactly the requested quantity |
| StockConsumer.CancelRestoresStock | product-service/laravel/app/Console/Commands/ConsumeOrderEvents.php:47-63 | with enough stock, create then cancel restores every product exactly |
| StockConsumer.CreateThenCancelExample | product-service/laravel/app/Console/Commands/ConsumeOrderEvents.php:22-72 | 10 in stock, order of 3: 7 after the create, 10 after the cancel |
| StockConsumer.ApplyLineInPlace | product-service/laravel/app/Console/Commands/ConsumeOrderEvents.php:35-63 | the in-place loop body does exactly ApplyLine |
| StockConsumer.ApplyOrderEvent | product-service/laravel/app/Console/Commands/ConsumeOrderEvents.php:22-72 | ignored messages are acked unchanged; a failure inside the transaction rolls back and nacks; otherwise acked with the intended handler's stock |
| Orders.ItemsOf | order-service/laravel/app/Http/Controllers/OrderController.php:111-129 | one item per requested line, in order, with subtotal = quantity × price |
| Orders.SubtotalsSumToTotal | order-service/laravel/app/Http/Controllers/OrderController.php:101-129 | the items' subtotals add up to the order total |
| Orders.TotalNonNegative | order-service/laravel/app/Http/Controllers/OrderController.php:101-109 | with valid lines the total is non-negative |
| Orders.Unavailable | order-service/laravel/app/Http/Controllers/OrderController.php:284-298 | exactly the unavailable entries are reported |
| Orders.UnavailableKeepsOrderAndCount | order-service/laravel/app/Http/Controllers/OrderController.php:284-298 | the report keeps the entries' order and each unavailable entry appears as often as in the reply |
| Orders.CheckProductStock | order-service/laravel/app/Http/Controllers/OrderController.php:273-299 | success iff the product service answered and every entry is available; otherwise the unavailable entries, none for a failed call |
| Orders.NewOrder | order-service/laravel/app/Http/Controllers/OrderController.php:101-129 | a new order is pending with the computed total and items, whose subtotals sum to it |
| Orders.UpdateEvent | order-service/laravel/app/Http/Controllers/OrderController.php:169-191 | order.cancelled with every item's product and quantity iff the status becomes cancelled from another status; order.updated otherwise |
| Orders.LinesOf | order-service/laravel/app/Http/Controllers/OrderController.php:213-225 | the cancelled event lists every item's product and quantity |
| Orders.Destroy | order-service/laravel/app/Http/Controllers/OrderController.php:203-231 | 404 for a missing order; 400 iff completed, nothing changed; otherwise deleted, publishing order.cancelled unless already cancelled |
| Orders.RecancelPublishesTwice | order-service/laravel/app/Http/Controllers/OrderController.php:169-191 | cancel, reopen, cancel again publishes order.cancelled twice with the same lines |
| Orders.OrderBook.Store | order-service/laravel/app/Http/Controllers/OrderController.php:62-146 | 422 for invalid lines, 400 with the unavailable entries when stock is short, otherwise the order is stored and order.created published; nothing changes on a refusal |
| Orders.OrderBook.UpdateStatus | order-service/laravel/app/Http/Controllers/OrderController.php:162-198 | found iff the order exists, otherwise nothing changes; the order takes the new status and UpdateEvent is published |
| Orders.OrderBook.DestroyOrder | order-service/laravel/app/Http/Controllers/OrderController.php:203-231 | the in-place deletion gives the orders, reply and events of Destroy |
| Saga.CreatedLines | order-service/laravel/app/Http/Controllers/OrderController.php:117-129 | order.created carries each item's product and quantity |
| Saga.CancelledLines | order-service/laravel/app/Http/Controllers/OrderController.php:213-225 | order.cancelled carries each line's product and quantity |
| Saga.EventDirections | product-service/laravel/app/Console/Commands/ConsumeOrderEvents.php:25-26 | a new order's created event takes stock; cancel events from update and destroy give it back |
| Saga.CheckAgreesWithStock | order-service/laravel/app/Http/Controllers/OrderController.php:284-298 | the order service's check of the product service's answer passes iff every line on its own has enough stock |
| Saga.CreateThenDestroyRestores | order-service/laravel/app/Http/Controllers/OrderController.php:203-231 | an order created with enough stock and then deleted leaves every stock as it was |
| Saga.DuplicateLinesInflateStock | order-service/laravel/app/Http/Controllers/OrderController.php:284-298 | two lines of 3 against stock 5 pass the check; the handler takes 3 and skips the second, the cancel gives back 6: stock ends at 8 |
| Cart.IndexOf | order-service/laravel/app/Http/Controllers/CartController.php:47-49 | the position of the product's item, none iff no item has it |
| Cart.Added | order-service/laravel/app/Http/Controllers/CartController.php:47-60 | an existing item's quantity grows by the added amount, otherwise a new item is appended; other items unchanged; one item per product kept |
| Cart.AddTwiceMerges | order-service/laravel/app/Http/Controllers/CartController.php:47-60 | adding a product twice gives one item with the summed quantity and the first price |
| Cart.AddChangesOnlyThatQuantity | order-service/laravel/app/Http/Controllers/CartController.php:47-60 | only the added product's quantity changes, by the added amount |
| Cart.OrderData | order-service/laravel/app/Http/Controllers/CartController.php:146-154 | one order line per cart item with its product, quantity and price |
| Cart.CheckoutAsWritten | order-service/laravel/app/Http/Controllers/CartController.php:134-165 | an empty cart is 400; any other checkout fails with the publisher missing, cart kept, nothing sent |
| Cart.CheckoutIntended | order-service/laravel/app/Http/Controllers/CartController.php:134-165 | an empty cart is 400; otherwise the order data is sent, the order reply returned, and the cart cleared iff the order was created |
| Cart.CheckoutAsWrittenFails | order-service/laravel/app/Http/Controllers/CartController.php:156 | a cart with one item fails as written and is emptied by the corrected checkout |
| Cart.CheckoutLinesAreValid | order-service/laravel/app/Http/Controllers/CartController.php:146-154 | a cart of valid items gives lines that pass the order store's validation |
| Cart.CartStore.AddItem | order-service/laravel/app/Http/Controllers/CartController.php:34-79 | 422 iff quantity < 1 or price < 0; otherwise the user's cart becomes Added; one item per product is kept |
| Cart.CartStore.UpdateItem | order-service/laravel/app/Http/Controllers/CartController.php:84-97 | 404 iff the user has no such item, whatever the quantity; otherwise 422 iff quantity < 1; otherwise only that item's quantity is set |
| Cart.CartStore.Clear | order-service/laravel/app/Http/Controllers/CartController.php:117-129 | the user's cart becomes empty; other carts are unchanged |
| Cart.CartStore.CheckoutCart | order-service/laravel/app/Http/Controllers/CartController.php:134-165 | the in-place checkout gives the carts, reply and sent lines of CheckoutIntended |
| Payments.ProcessPaymentMethod | payment-service/laravel/app/Http/Controllers/PaymentController.php:288-358 | cash, bank transfer and QRIS always succeed with their prefixed transaction id; a card succeeds iff card number and CVV are set; a card without them fails with "Invalid card data"; an unknown code fails with "Invalid payment method" |
| Payments.EventPayload | payment-service/laravel/app/Http/Controllers/PaymentController.php:440-453 | the base fields merged with the extras, the extras winning |
| Payments.OnlyLastPublished | payment-service/laravel/app/Http/Controllers/PaymentController.php:111-160 | a trace that publishes only at its end, after a commit, publishes after the commit |
| Payments.Process | payment-service/laravel/app/Http/Controllers/PaymentController.php:62-172 | 422 iff negative amount or no payment method with that id, otherwise 404 iff no order, 400 with total and amount iff underpaid; refusals record and publish nothing; events come after the commit |
| Payments.Settle | payment-service/laravel/app/Http/Controllers/PaymentController.php:111-160 | the admitted payment is paid iff its method succeeds and rejected otherwise; commit before publish |
| Payments.ProcessOutcome | payment-service/laravel/app/Http/Controllers/PaymentController.php:76-160 | paid iff valid, order found, fully paid, no earlier payment of the order, and the method succeeds |
| Payments.ProcessRecordsPayment | payment-service/laravel/app/Http/Controllers/PaymentController.php:111-160 | a created payment is first recorded pending with change = amount − total ≥ 0; then either completed with paid_at and payment.completed carrying items_count, or failed with its error and payment.failed |
| Payments.Verify | payment-service/laravel/app/Http/Controllers/PaymentController.php:210-258 | 422 for an unknown payment or empty data; 400 "already completed" for a completed one; otherwise it becomes completed, the order completion is requested and payment.completed published |
| Payments.SecondPaymentRefused | payment-service/laravel/app/Http/Controllers/PaymentController.php:93-224 | after a payment is made, another for the same order is refused: `Payment::create` (lines 93-101) breaks the unique `payments.order_id` and the catch (163-171) answers 500; verifying the payment says already completed (219-224) |
| Payments.RejectedPaymentOnlyVerifies | payment-service/laravel/app/Http/Controllers/PaymentController.php:219-251 | after a rejected payment the order cannot be paid again by process, but verify completes the failed payment |
| Payments.Ledger.ProcessPayment | payment-service/laravel/app/Http/Controllers/PaymentController.php:62-172 | the in-place process gives the payments, effects and reply of Process |
| Payments.Ledger.VerifyPayment | payment-service/laravel/app/Http/Controllers/PaymentController.php:210-258 | the in-place verify gives the payments, effects and reply of Verify |
| Tallies.Get | reporting-service/laravel/app/Console/Commands/ConsumePaymentEvents.php:42-48 | a missing tally reads as zero |
| Tallies.Bump | reporting-service/laravel/app/Console/Commands/ConsumePaymentEvents.php:42-56 | one key's tally gains one count and the amount; the other keys are unchanged |
| Tallies.BumpEntry | reporting-service/laravel/app/Console/Commands/ConsumePaymentEvents.php:42-48 | the in-place initialise-then-increment is Bump |
| Tallies.SumRemove | reporting-service/laravel/app/Console/Commands/ConsumePaymentEvents.php:42-56 | the summed tallies are any one key's tally plus the sum of the rest |
| Tallies.BumpSum | reporting-service/laravel/app/Console/Commands/ConsumePaymentEvents.php:42-56 | a bump adds one to the summed count and the amount to the summed total |
| SalesConsumer.Add | reporting-service/laravel/app/Console/Commands/ConsumePaymentEvents.php:38-60 | transactions + 1, revenue + amount, items sold + items, method and day tallies bumped, and average × transactions = revenue |
| SalesConsumer.Handle | reporting-service/laravel/app/Console/Commands/ConsumePaymentEvents.php:22-70 | throws iff paid_at cannot be parsed; otherwise only the booking day's report changes, started empty if missing |
| SalesConsumer.AddKeepsBalance | reporting-service/laravel/app/Console/Commands/ConsumePaymentEvents.php:38-56 | the method and day tallies keep summing to the report's transactions and revenue |
| SalesConsumer.HandleKeepsBalance | reporting-service/laravel/app/Console/Commands/ConsumePaymentEvents.php:30-60 | a store of balanced reports stays balanced |
| SalesConsumer.TwoPaymentsExample | reporting-service/laravel/app/Console/Commands/ConsumePaymentEvents.php:38-60 | payments of 150 and 250 on one day: 2 transactions, revenue 400, average 200 |
| SalesConsumer.AddPayment | reporting-service/laravel/app/Console/Commands/ConsumePaymentEvents.php:38-60 | the in-place updates of one report are Add |
| SalesConsumer.ReportStore.Consume | reporting-service/laravel/app/Console/Commands/ConsumePaymentEvents.php:22-70 | acked iff the handler returns, with its reports; a nacked message changes nothing |
| Reports.Aggregate | reporting-service/laravel/app/Http/Controllers/ReportController.php:352-398 | transactions and items sold are both the number of transactions, revenue is the sum of amounts; average 0 with no transactions, otherwise average × count = revenue |
| Reports.MethodTalliesBalance | reporting-service/laravel/app/Http/Controllers/ReportController.php:366-374 | the per-method tallies sum to the count and revenue |
| Reports.DailyTalliesBalance | reporting-service/laravel/app/Http/Controllers/ReportController.php:377-385 | the daily tallies sum to the count and revenue |
| Reports.MethodKeys | reporting-service/laravel/app/Http/Controllers/ReportController.php:366-374 | a method has an entry iff some transaction used it ("unknown" when missing) |
| Reports.DailyKeys | reporting-service/laravel/app/Http/Controllers/ReportController.php:377-385 | a day has an entry iff some transaction fell on it |
| Reports.AggregateSalesData | reporting-service/laravel/app/Http/Controllers/ReportController.php:352-398 | the loops compute Aggregate |
| Reports.First | reporting-service/laravel/app/Http/Controllers/ReportController.php:411-418 | the first line of a product: it names the product and no earlier line does |
| Reports.TrackExplains | reporting-service/laravel/app/Http/Controllers/ReportController.php:407-425 | the keyed entries hold, for each product that appears, the first name and the sums, with keys in first-seen order, each once |
| Reports.RowsAreTheProducts | reporting-service/laravel/app/Http/Controllers/ReportController.php:403-435 | one row per product that appears, each product once |
| Reports.RowsInFirstSeenOrder | reporting-service/laravel/app/Http/Controllers/ReportController.php:403-435 | rows come in order of each product's first line |
| Reports.RowsHoldTheSums | reporting-service/laravel/app/Http/Controllers/ReportController.php:403-435 | each row has the first line's name or "Unknown", summed quantity and revenue, line count ≥ 1, and average × count = quantity |
| Reports.NoLinesNoSums | reporting-service/laravel/app/Http/Controllers/ReportController.php:411-418 | a product without lines has zero sums |
| Reports.PositiveCount | reporting-service/laravel/app/Http/Controllers/ReportController.php:411-418 | a product that appears is counted at least once |
| Reports.AddItem | reporting-service/laravel/app/Http/Controllers/ReportController.php:411-418 | the in-place entry update is one step of the fold: a new product is appended to the keys, a known one gains the line's sums |
| Reports.AddItems | reporting-service/laravel/app/Http/Controllers/ReportController.php:409-420 | the inner loop folds an order's items onto the entries so far |
| Reports.EntriesToRows | reporting-service/laravel/app/Http/Controllers/ReportController.php:428-434 | one row per key, in key order, with its average |
| Reports.AggregateProductData | reporting-service/laravel/app/Http/Controllers/ReportController.php:403-435 | the loops compute ProductRows |
| Reports.TrendShape | reporting-service/laravel/app/Http/Controllers/ReportController.php:466-483 | one point per day for max(days, 0) days, consecutive, ending today, each with that day's revenue and count |
| Reports.RevenueTrend | reporting-service/laravel/app/Http/Controllers/ReportController.php:466-483 | the countdown loop computes Trend |
| Reports.PeriodStart | reporting-service/laravel/app/Http/Controllers/ReportController.php:231-241 | day: today; week: the week start; anything else: the month start; never after today when the week and month starts are not |

## Left out

- HTTP, AMQP connections, the wait loop's blocking and races between concurrent requests or consumers are not modelled; replies of other services are inputs.
- Database transactions are modelled by their outcome. The 400/404 paths of adjustStock, store and process open a transaction and never commit it; the model treats them as rolled back.
- Exceptions from the database are not modelled, except the duplicate payment (a unique order_id) and a failure inside the stock handler's transaction.
- Ids, order numbers, `uniqid()`, `now()` and Carbon parsing are inputs; dates are day numbers.
- decimal(12,2) rounding and float casts are not modelled; money is exact.
- Payload JSON decoding between services is abstracted into typed payloads. Only the broker models undecodable and scalar bodies.
- Gateway.Route: the text of the exception for a method the HTTP client lacks is taken to be that of Laravel's `Macroable::__call`; Laravel's HTTP client is not part of this model.
- CircuitBreaker.Guard: `retry_after` is the reset time minus now, as Carbon 2's absolute difference gives it.
- CartController::removeItem (lines 102-112) is not modelled: it deletes by item id with no decision logic.
- Cart.CartStore.UpdateItem: it looks the item up in the given user's cart, whereas the source binds it by id globally.
- Cart.CartStore.CheckoutCart: the order reply is an input, since the order is created through the order controller.
- Orders.OrderBook.UpdateStatus: notes on update are not modelled.
- Route-model binding 404s are modelled as not-found replies.
- ReportController's generate, show, index, dailySales, monthlySales, analytics, export and getTopProducts and its top-selling query are persistence and query building; only the period mapping is modelled.
- SalesConsumer.Handle: the report's `generated_at` and `save` are not modelled.
- Reports.AggregateSalesData: a transaction always has an amount; a missing `amount` is not modelled.
- The payment gateway check `verifyPaymentGateway` always accepts, as in the source; Payments.Verify models it as always accepting.

## Findings

| source | as written | input that shows it | evidently intended | confidence | as-written member | corrected member |
|---|---|---|---|---|---|---|
| product-service/laravel/app/Console/Commands/ConsumeOrderEvents.php:33-47 | the message closure uses `$direction` without capturing it (`use ($direction)` is missing), so it is undefined inside and every eligible line throws | order.created for 3 of a product with stock 10: the handler throws, the message is nacked, and stock stays 10 | the closure sees the direction: created events decrease, cancelled events increase | not executed | StockConsumer.AsWrittenDropsOrderCreated | StockConsumer.HandleIntended |
| order-service/laravel/app/Http/Controllers/CartController.php:156 | checkout builds `new OrderController()` without the publisher the constructor requires (OrderController.php:21) | a cart with one item: checkout fails with a server error and the cart is kept | the controller is resolved with its publisher; the order is created and the cart cleared | not executed | Cart.CheckoutAsWrittenFails | Cart.CheckoutIntended |
| gateway/laravel/routes/api.php:23-59 | Laravel binds the captured `{path}` before the `service` default and passes the values to `route(Request, string $service, string $path)` by position, so a captured tail becomes the service and the group's service becomes the path | `GET /api/products/5` answers 404 "Service not found" with service "5"; `GET /api/products/order` reaches the order service at `/api/product` | the group's service receives the request at its own URI: `/api/products/5` on the product service | not executed | GatewayRoutes.CapturedTailBecomesService | GatewayRoutes.ResolveIntended |
| gateway/laravel/app/Http/Controllers/GatewayController.php:74-84 | `Http::pool` keeps a call that could not connect as an exception object, and `successful()` on it fails, so the whole dashboard answers 500 | products and orders answer 200 and the payment service is down: 500 | a part that cannot be fetched is null, as for a failed reply, and the dashboard answers 200 | not executed | Gateway.UnreachableBackendFailsDashboard | Gateway.AggregateIntended |
