# Order management of ProductsBackend, in Dafny

This project models the order part of the ProductsBackend REST service:

- `orderSchema`, the zod schema that checks an order request;
- the order controllers that create orders, change their status, list,
  fetch and delete them, and keep the product stock in step.

The model has four modules:

- `Outcomes` (`outcomes.dfy`): `Option` and `Result`.
- `OrderSchemas` (`order_schemas.dfy`): the request schemas.
  - Each sub-schema is an acceptance predicate plus a function that lists the
    issues zod reports, each issue with a path and a problem.
  - The `superRefine` cross-field checks.
  - `ParseOrder` and `ValidateOrder`, the output of `orderSchema.parse`.
  - The regular expressions are restated as character-class predicates.
  - `.trim()` is `String.prototype.trim` over the JavaScript whitespace set.
- `Inventory` (`inventory.dfy`): the product stock as a map from product id to
  quantity.
  - The availability loop of `createOrder`.
  - The `$inc` updates, as pure functions with their lemmas.
- `OrderController` (`order_controller.dfy`): the `OrderStore` class, whose
  fields are the product stock, the order collection and the next order id.
  - `createOrder`, `updateOrderStatus` and `deleteOrder` are methods that
    update those fields.
  - The read-only controllers are functions that read them.
  - `.sort({createdAt: -1})` is an insertion sort specified by a
    newest-first predicate and a multiset equality.

Each controller returns a `Result` in place of an HTTP response. The `Failure`
constructors stand for the 400 and 404 answers.

Numbers reach the schema model already parsed. `parseInt` gives an
`Option<int>` and `parseFloat` an `Option<real>`, where `None` stands for NaN or
an infinite value, both of which `z.number()` rejects.

Issues are reported in zod 4 fashion:

- Length, format and range checks do not abort the parse. Every one that fails
  is reported. The same holds for `.int()` given a whole number outside the
  safe range, ±(2^53 - 1).
- A missing number, a fraction given to `.int()`, an unknown `method`
  discriminator, a missing sub-object of the chosen variant, or an unknown
  status aborts the parse.
  - The rest of that field's chain is skipped: a fractional `totalProducts`
    gets no `.min(0)` issue.
  - The `superRefine` does not run (`Refinable`).
- `.min` and `.regex` look at the string as sent. `.trim()` comes after them in
  each chain, so only the output is trimmed.

## Model

| member | source | states |
|---|---|---|
| `OrderSchemas.ExpirationFormatIsMonthYear` | src/schemas/order.schemas.js:53-55 | the expiration regex accepts a string exactly when it is a month 01-12 and a two-digit year, with or without a slash between them |
| `OrderSchemas.MonthYearIsExpirationFormat` | src/schemas/order.schemas.js:54 | every month/year text, slashed or not, matches the expiration regex |
| `OrderSchemas.ExpirationExamples` | src/schemas/order.schemas.js:54 | "12/25", "1225" and "01/00" match; "13/25", "00/25", "1/25", "12-25" and "12/5" do not |
| `OrderSchemas.Trim` | src/schemas/order.schemas.js:30-34 | the result is the input with a leading and a trailing run of whitespace removed, and it neither starts nor ends with whitespace |
| `OrderSchemas.TrimIdempotent` | src/schemas/order.schemas.js:34 | trimming a trimmed string changes nothing |
| `OrderSchemas.ParseStatus` | src/schemas/order.schemas.js:140-141 | a name is accepted iff it is one of the four status names, and the status returned has that name |
| `OrderSchemas.StatusNameRoundTrip` | src/schemas/order.schemas.js:140 | each status's name parses back to that status |
| `OrderSchemas.MinLength` | src/schemas/order.schemas.js:7-10 | `.min(n)` on a string reports no issue iff the length is at least n |
| `OrderSchemas.MaxLength` | src/schemas/order.schemas.js:39-41 | `.max(n)` reports no issue iff the length is at most n |
| `OrderSchemas.Format` | src/schemas/order.schemas.js:42 | `.regex` reports no issue iff the string matches |
| `OrderSchemas.NumberAtLeast` | src/schemas/order.schemas.js:109-115 | a number field reports no issue iff it parsed and is at least the bound |
| `OrderSchemas.NonNegativeInteger` | src/schemas/order.schemas.js:130-137 | `totalProducts` reports no issue iff it parsed, is an integer within the safe range and is at least 0; a fraction reports only the `.int()` issue, since it aborts the chain |
| `OrderSchemas.CartItemIssues` | src/schemas/order.schemas.js:6-26 | an item reports no issue iff its productId is non-empty, its quantity parsed and is positive, and its price parsed and is a non-negative integer within the safe range |
| `OrderSchemas.ItemsIssues` | src/schemas/order.schemas.js:102-103 | the items report no issue iff there is at least one item and every item passes |
| `OrderSchemas.CardDetailsIssues` | src/schemas/order.schemas.js:29-56 | card details report no issue iff the name has at least 3 characters, the number is 12-19 digits, the cvv 3-4 digits, and the expiration date has the month/year format |
| `OrderSchemas.ShippingAddressIssues` | src/schemas/order.schemas.js:59-79 | an address reports no issue iff the address has at least 5 characters, the name at least 3, and the phone 7-20 digits, whitespace, `+`, `-` or parentheses |
| `OrderSchemas.PaymentIssues` | src/schemas/order.schemas.js:82-98 | the payment method reports no issue iff it is `card` with both valid sub-objects, or `pickup` with a user name of at least 3 characters |
| `OrderSchemas.ParsePayment` | src/schemas/order.schemas.js:82-98 | the parsed variant is `Card` iff the discriminator is `card`, and `Pickup` iff it is `pickup`; every string it carries is the trimmed input string |
| `OrderSchemas.MinLengthBeforeTrim` | src/schemas/order.schemas.js:30-34 | `.min(3)` sees the untrimmed name: "  ab" is accepted and parses to "ab" |
| `OrderSchemas.StatusIssues` | src/schemas/order.schemas.js:140-141 | the status reports no issue iff it is absent or one of the four names |
| `OrderSchemas.FieldIssues` | src/schemas/order.schemas.js:101-143 | the object's fields report no issue iff every field passes its own schema |
| `OrderSchemas.FieldIssuesAreFieldLevel` | src/schemas/order.schemas.js:101-143 | no field schema ever reports a total or totalProducts mismatch |
| `OrderSchemas.AcceptedFieldsAreRefinable` | src/schemas/order.schemas.js:145 | when every field passes, the refinement runs |
| `OrderSchemas.CrossFieldIssues` | src/schemas/order.schemas.js:145-165 | the refinement reports nothing iff the totals agree within 0.01 and the quantities add up to totalProducts |
| `OrderSchemas.CrossFieldReports` | src/schemas/order.schemas.js:145-165 | the refinement reports a total issue iff the sum of subTotal and iva is more than 0.01 away from total, and a totalProducts issue iff the quantities do not add up to totalProducts |
| `OrderSchemas.CrossFieldChecks` | src/schemas/order.schemas.js:145-165 | when the refinement runs, the whole issue list has a total issue iff the totals disagree, and a totalProducts issue iff the quantities do not add up, each independently of the other |
| `OrderSchemas.NoCrossFieldWithoutRefinement` | src/schemas/order.schemas.js:145-165 | when an aborting issue skips the refinement, the request is rejected and no cross-field issue appears |
| `OrderSchemas.OrderIssuesEmptyIff` | src/schemas/order.schemas.js:101-165 | no issue is reported iff the request is acceptable: all fields pass and the totals agree |
| `OrderSchemas.ParseItems` | src/schemas/order.schemas.js:6-26 | each parsed item keeps its productId, its quantity is the positive parsed value, and its price is the parsed non-negative integer |
| `OrderSchemas.ParseOrder` | src/schemas/order.schemas.js:101-143 | the output has one item per input item, each with the input's productId and parsed quantity and price; the parsed payment method; the parsed subTotal, iva, total and totalProducts; and status `received` when none is given, otherwise the given one |
| `OrderSchemas.AcceptedOrderIsWellFormed` | src/schemas/order.schemas.js:101-165 | every accepted order has at least one item, positive quantities, non-negative prices and amounts, a total of at least 1 within 0.01 of subTotal plus iva, and a totalProducts equal to the number of units ordered |
| `OrderSchemas.ValidateOrder` | src/schemas/order.schemas.js:101-165 | `parse` succeeds iff the request is acceptable, and then returns the parsed order; otherwise it fails with the non-empty list of every issue found |
| `OrderSchemas.ExampleAccepted` | src/schemas/order.schemas.js:145-165 | two units of P1 and one of P2, with subTotal 25, iva 4, total 29 and totalProducts 3, are accepted |
| `OrderSchemas.ExampleTotalRejected` | src/schemas/order.schemas.js:147-154 | the same order with total 30 fails with exactly one issue, the total mismatch 29 vs 30 |
| `OrderSchemas.BothMismatchesReported` | src/schemas/order.schemas.js:145-165 | with total 30 and totalProducts 4, both mismatches are reported |
| `OrderSchemas.UnsafePriceRejected` | src/schemas/order.schemas.js:18-25 | a price of 2^53 is rejected with the `.int()` safe-range issue |
| `OrderSchemas.FractionalCountSkipsRefinement` | src/schemas/order.schemas.js:130-137 | a totalProducts of 3.5 gets only the `.int()` issue; the refinement does not run and no totalProducts mismatch is reported |
| `OrderSchemas.EmptyItemsRejected` | src/schemas/order.schemas.js:102-103 | an order without items is rejected with the items `.min(1)` issue |
| `Inventory.Shortfall` | src/controllers/order.controller.js:19-26 | a failing item gets "not found" iff its product is missing, and "insufficient stock" otherwise, naming that item's product |
| `Inventory.CheckStock` | src/controllers/order.controller.js:17-27 | the check passes iff every item's product exists with at least the item's quantity, each item compared on its own against the current stock |
| `Inventory.CheckStockReportsFirst` | src/controllers/order.controller.js:17-27 | the error reported is the one for the first failing item in list order |
| `Inventory.Increment` | src/controllers/order.controller.js:51-53 | `$inc` adds delta to the named product, if it exists, and leaves every other product and the set of products unchanged |
| `Inventory.Shifted` | src/controllers/order.controller.js:50-54 | the per-item `$inc`s never add or remove a product |
| `Inventory.ShiftedAt` | src/controllers/order.controller.js:50-54 | after the per-item `$inc`s, each product has moved by the sign times the total quantity the items order of it |
| `Inventory.RestoreUndoesDecrement` | src/controllers/order.controller.js:87-91 | adding the items back restores exactly the stock that the decrement of createOrder took |
| `Inventory.OrderedDistinct` | src/controllers/order.controller.js:17-27 | with distinct product ids, a product's ordered total is the quantity of the one item naming it, or 0 |
| `Inventory.CheckedDistinctItemsKeepStockNonNegative` | src/controllers/order.controller.js:17-54 | items with distinct products that pass the check never take stock below zero |
| `Inventory.RepeatedProductOverdraws` | src/controllers/order.controller.js:17-54 | one unit in stock and two one-unit items of the same product pass the check, and the stock ends at -1 |
| `Inventory.CheckStockInTotal` | src/controllers/order.controller.js:17-27 | the corrected check passes iff every product covers the total quantity ordered of it across the whole order |
| `Inventory.CheckedInTotalKeepsStockNonNegative` | src/controllers/order.controller.js:17-54 | orders that pass the corrected check never take stock below zero, repeated product ids or not |
| `Inventory.AggregatedCheckRejectsOverdraw` | src/controllers/order.controller.js:17-27 | the corrected check rejects the repeated-product order with insufficient stock |
| `OrderController.GuardOnUpdatedRecordNeverHolds` | src/controllers/order.controller.js:78-92 | the restore guard, evaluated on the record already updated to the requested status, is always false |
| `OrderController.RestoreOnCancel` | src/controllers/order.controller.js:86-92 | the corrected restore keeps the products, and changes nothing unless an order that is not yet cancelled is being cancelled |
| `OrderController.CancelRestoresCreate` | src/controllers/order.controller.js:86-92 | cancelling an order that is not yet cancelled gives back exactly the stock its creation took |
| `OrderController.CancelTwiceRestoresOnce` | src/controllers/order.controller.js:86 | a second cancellation restores nothing more |
| `OrderController.InsertNewestFirst` | src/controllers/order.controller.js:106 | inserting into a newest-first list keeps it newest first |
| `OrderController.InsertIsPermutation` | src/controllers/order.controller.js:106 | insertion adds exactly the one order |
| `OrderController.SortNewestFirst` | src/controllers/order.controller.js:106 | the sorted list is newest first and is a permutation of its input |
| `OrderController.OrderStore.CheckItems` | src/controllers/order.controller.js:17-27 | the loop returns the first shortfall, and returns none iff every item is available |
| `OrderController.OrderStore.TakeStock` | src/controllers/order.controller.js:50-54 | the loop leaves the stock decremented once per item |
| `OrderController.OrderStore.CreateOrder` | src/controllers/order.controller.js:5-56 | fails iff the check fails, and then changes nothing. Otherwise it stores one new `received` order with a fresh id that carries the body's items, totals and payment, and lowers each product by the total ordered of it |
| `OrderController.OrderStore.UpdateOrderStatus` | src/controllers/order.controller.js:66-94 | an unknown status name fails first, then a missing order. Otherwise only that order's status is overwritten and the updated record is returned. The stock is never changed |
| `OrderController.OrderStore.DeleteOrder` | src/controllers/order.controller.js:164-182 | a missing order gives "not found" and one that is not cancelled gives "not cancelled", both with nothing changed. A cancelled order is removed and returned as it was |
| `OrderController.OrderStore.GetOrderById` | src/controllers/order.controller.js:142-156 | returns the stored order with that id iff one exists, and "not found" otherwise |
| `OrderController.OrderStore.Collect` | src/controllers/order.controller.js:105 | the collected orders are, as a multiset, exactly the stored orders the filter selects |
| `OrderController.OrderStore.GetAllOrders` | src/controllers/order.controller.js:102-112 | every stored order, each once, newest first |
| `OrderController.OrderStore.GetUserOrders` | src/controllers/order.controller.js:120-132 | exactly the caller's orders, each once, newest first. The list is empty, not an error, when the caller has none |

## Findings

| source | as written | input that shows it | evidently intended | confidence | as-written member | corrected member |
|---|---|---|---|---|---|---|
| src/controllers/order.controller.js:17-27 | each item's quantity is compared with its product's stock on its own | stock `{P1: 1}` and items `[P1 x1, P1 x1]`: both pass, and the decrement at :50-54 leaves P1 at -1 | a product must cover the total ordered of it across the order | not executed | `Inventory.RepeatedProductOverdraws` | `Inventory.CheckedInTotalKeepsStockNonNegative` |
| src/controllers/order.controller.js:78-92 | the cancel guard reads `order.status` from the record `findByIdAndUpdate(..., {new: true})` returns, which already holds the new status | any order moved to `cancelled`: the guard is false, so stock is never restored | evaluate the guard on the record as it was before the update | not executed | `OrderController.GuardOnUpdatedRecordNeverHolds` | `OrderController.CancelRestoresCreate` |

`OrderStore.CreateOrder` and `OrderStore.UpdateOrderStatus` follow the code as
written. `CheckStockInTotal` and `RestoreOnCancel` hold the corrected
behaviour, and their lemmas are proved about them.

## Left out

- HTTP, Express, the `try`/`catch` 500 and 400 answers, and the message texts.
  Each controller returns a `Failure` constructor in their place.
- The middlewares `validateToken`, `uploadImage` and `validateSchemas`.
  - `req.user.id` is the `user` parameter.
  - `validateSchemas` calls `orderSchema.parse` but does not replace `req.body`,
    so the controller reads the raw body. Mongoose and JavaScript coercion then
    turn the strings into numbers, and stored strings are not trimmed. The store
    model receives the parsed `ValidOrder`, which agrees with the raw body when
    the numbers are plain decimal integers and the strings carry no outer
    whitespace.
- MongoDB: ObjectId generation (a counter `nextId` here), casting errors for
  malformed ids, and `populate`, which only joins product details for display.
- `Date.now()`: the creation time is the parameter `now`.
- Concurrency: the `Promise.all` updates are applied in list order. `$inc`s on
  one product commute, so the final stock is the same. Concurrent requests
  between the check and the decrement are not modelled.
- `parseInt` and `parseFloat` themselves, and IEEE 754 arithmetic. Amounts are
  exact reals, so `subTotal + iva` is not rounded.
- Fields missing from the body or of the wrong JSON type, for which zod reports
  a type error. The `createdAt: z.date().optional()` field is dropped: a JSON
  body cannot carry a `Date`, and the controller ignores it.
- String lengths count Unicode scalar values, not UTF-16 code units. They
  differ only outside the Basic Multilingual Plane.
- The order among orders with equal `createdAt`, which MongoDB leaves
  unspecified. The model promises only newest first and each order once.
- The stock restore of `updateOrderStatus` is a conditional expression, not a
  loop over the items. Its guard never holds (see Findings).
