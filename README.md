# 99x Cafe order book, modelled in Dafny

The cafe point-of-sale server keeps its orders in memory: a module-level list
`orders` (server.js:28) that the `POST /api/orders` handler appends to and the
`DELETE /api/orders/:id` handler removes from, together with a `findById`
helper that returns the first record with a given id. Every other resource
(categories, items, seats, cashiers, bookings) is a thin wrapper over SQLite
and is not part of this model.

The model (`order_book.dfy`, module `OrderBook`; `wrappers.dfy` holds the
`Option` and `Result` types) keeps the list as the field `orders: seq<Order>`
of a class `OrderStore`, and its two handlers as methods that reassign it:

- `Create` rejects a request whose `lines` is absent (any falsy value), not an
  array, or empty, and then changes nothing. Otherwise it runs `ProcessLines`,
  the `lines.map` pass that copies `itemId`, `itemName`, `price` and
  `quantity` from each request line, sets `lineTotal = price * quantity` and
  accumulates the order total in a loop. It normalises the seat id and appends
  the new order at the end of the list.
- `Delete` finds the first order with the id (`FindIndex`, the `findIndex`
  scan) and answers "not found" without a change when there is none. Otherwise
  it splices that one order out and returns it. Its contract ties the new list
  to the pure reference definition `RemoveFirst`.

The store invariant `Valid` says that every stored order has at least one
line, that its seat id is null or a non-zero integer, that each line total is
price * quantity, and that the total is the sum of the line totals. Both
handlers preserve it.

Money is counted in integer cents and quantities are whole numbers. For such
values the server's final `parseFloat(total.toFixed(2))` leaves the exact sum
unchanged, and the model stores the sum itself.

## Model

| member | source | states |
|---|---|---|
| `OrderBook.Error.Status` | server.js:148 | Both order errors are client errors (status 4xx). The status is 400 exactly for a rejected `lines` field, and 404 exactly for a missing order (server.js:175). |
| `OrderBook.Error.Message` | server.js:175 | The error text is never empty. It is "Order lines required." exactly for a rejected `lines` field (server.js:148), and "Order not found." exactly for a missing order. |
| `OrderBook.OrderStore.constructor` | server.js:28 | The order list starts empty, and the empty list satisfies the store invariant. |
| `OrderBook.OrderStore.Create` | server.js:145-171 | A request whose `lines` is absent, not an array or empty gets the 400 "Order lines required." error and leaves `orders` unchanged. Otherwise exactly one order is appended at the end and every earlier order keeps its value and position. The new order has the given clock reading as id, the normalised seat id, one processed line per request line in the same order, and a total equal to the sum of price * quantity. The store invariant is kept. |
| `OrderBook.ProcessLines` | server.js:151-161 | The processed lines have the same length and order as the request lines. Each copies itemId, itemName, price and quantity, and has lineTotal = price * quantity. The accumulated total is the sum of price * quantity over all lines. |
| `OrderBook.LineTotalsMatchTotal` | server.js:151-167 | The total accumulated with `+=` equals the sum of the stored line totals, so each order's total agrees with its own lines. |
| `OrderBook.NormalizeSeat` | server.js:165 | The stored seat id is null exactly when the supplied one is falsy (absent or 0), and otherwise it is the supplied integer, which is then non-zero. |
| `OrderBook.FindById` | server.js:33-35 | The result is nothing exactly when no element has the id. When some element has it, the result is the first such element. |
| `OrderBook.FindByIdAfterAppend` | server.js:33-35 | Appending an order (as `orders.push` does) leaves every earlier lookup unchanged. A lookup that found nothing now finds the new order if it has that id. |
| `OrderBook.FindIndex` | server.js:174-175 | The result is -1 exactly when no order has the id. Otherwise it is the position of the first order with that id, and the element there is what `findById` returns. |
| `OrderBook.OrderStore.Delete` | server.js:173-179 | With no order of that id, it gets the 404 "Order not found." error and leaves `orders` unchanged. Otherwise it returns the first order with that id and removes exactly that one position: the length drops by one and all other orders keep their values and relative order. The store invariant is kept. |
| `OrderBook.RemoveFirstAt` | server.js:177 | Removing the first order with an id is the splice at its position: the prefix before it and the suffix after it are kept in order, and the length drops by one. |
| `OrderBook.RemoveFirstAbsent` | server.js:174-175 | When no order has the id, removal changes nothing. |
| `OrderBook.CreateThenDeleteRestores` | server.js:169-177 | Deleting by the id of an order just appended, when no earlier order has that id, finds exactly that order and restores the previous list. |

## Left out

- Express wiring, static files, CORS and body parsing, `res.status(...).json(...)`, `app.listen` and its console output (server.js:10-23, 184-188). These are HTTP and I/O plumbing. The handlers' responses are the `Result` values, and `Error.Status` and `Error.Message` give the status code and error text.
- Every SQLite-backed route for categories, items, seats, cashiers and bookings (server.js:40-135). This is persistence in a foreign library behind callbacks, and its only logic is a required-field check before an INSERT. `db.js` is not part of this model.
- `GET /api/orders` (server.js:141-143) returns the list as it is. In the model that is reading the `orders` field.
- `Date.now()` as the order id (server.js:164). The clock is nondeterministic, so the id is the `now` parameter of `Create`. Nothing makes ids unique, and with a repeated id `Delete` removes only the first order that has it.
- Floating-point arithmetic, `toFixed(2)` and `parseFloat` (server.js:153, 159, 167). Prices and totals are exact integer cents and quantities are integers, and for those the two-decimal rounding is the identity. The server accepts any price and quantity the client sends, with no check. Prices that are not whole cents (0.125, say) and fractional quantities are not modelled. For them the server stores the rounded sum (0.13), which then differs from the sum of the stored line totals (0.125). So the `Valid` clause "total is the sum of the line totals" holds only for whole-cent line totals.
- NormalizeSeat: the supplied seat id is taken to be absent or already an integer. JavaScript truthiness and `parseInt` coercion of strings such as `"0"` or `"12abc"`, of non-integer numbers, and of integer-valued numbers of 1e21 and above are not modelled. `parseInt` reads those large numbers through their exponent form, so `parseInt(1e21)` is 1, while `NormalizeSeat` keeps 10^21.
- FindById and Delete: ids are taken as already-parsed integers. A path id that `parseInt` turns into `NaN` matches no order and gives "not found" in the server; the model has no such value.
- Request lines are taken to carry all four fields as integers and strings. Lines whose `price` or `quantity` is missing or not a number, and primitive elements with no fields at all, are not modelled. The product at server.js:153 and 159 first converts each operand to a number, and the order is appended in every case. A `null` converts to 0, `true` to 1, and a numeric string such as `"4.99"` to its value; the stored `price` then stays a string. Only values that convert to `NaN` give `NaN` totals: a missing field, a non-numeric string or an object.
- A `lines` array holding `null` or `undefined`, such as `lines: [null]`, is not modelled. Reading `ln.price` then throws at server.js:153, Express answers 500, and no order is appended. A number, string or boolean element such as `lines: [5]` does not throw: its `price` reads as `undefined`, and the order is appended with `NaN` totals, as the line above says.
- Order lines take `price` and `itemName` straight from the request body (server.js:153-159). No item is looked up, and `quantity` is not defaulted or checked. There is no PUT route for orders. The bookings POST only inserts a row and reserves no seats (server.js:127-135).
- FindById is modelled over the order list only. The server's helper is generic over any array of records with an `id`, and server.js never calls it.
- Requests run one at a time to completion, as on Node's single event loop. Concurrent handlers are not modelled.
