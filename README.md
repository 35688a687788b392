# Restaurant ordering demo — verified model of its business rules

The demo is a single client-side component in which a customer fills a cart
and sends it to the kitchen for a table, and a waiter moves orders through
`en_cocina → listo → servido` and settles a table, which closes its open
orders and records one payment. This project models those rules as a small
in-memory store and proves what they promise.

- `cart.dfy` (module `Cart`): cart lines, `addToCart` (merge by product id, or
  append), `removeFromCart` (decrement, drop at zero) and `subtotal`. Prices
  are integer cents.
- `orders.dfy` (module `Orders`): orders, their status, `setOrderStatus`, and
  the status buttons the waiter's view offers.
- `settlement.dfy` (module `Settlement`): payments, the open-order selection
  shared by `cobrarMesa` and `payFromClient`, the settled order list, the
  per-table open-order count (`mesasConPendientes`, which in the source is a
  loop over the unsettled orders that fills a map, and is kept as a loop)
  and the payment total (`totalCobradoHoy`).
- `store.dfy` (module `Restaurant`): class `Store` with the component's state
  fields `cart`, `orders`, `orderSeq`, `payments` and the selected table, and
  one method per event handler. Its invariant `Valid()` (the predicate
  `Consistent` on the field values) says the cart is valid (every line has at least one unit, no product twice), order ids
  strictly decrease from the newest order and lie below `orderSeq`, and the
  payments add up to the value of the paid orders.
- `sample.dfy` (module `Sample`): the sample menu in cents and two
  walk-throughs replayed on a `Store`: one Combo Pareja sent from table 3, and
  table 5 settling orders of 8.00 and 3.50 for one payment of 11.50, after
  which a second settlement records nothing.

Two points where the code guarantees less than one might expect, and the
model follows the code:
- A payment ledger is usually append-only. The code puts each new payment
  first (`[payment, ...prev]`), and so does the model. The takings do not
  depend on that order (`PrependOrAppendSameTotal`).
- The waiter's buttons offer no way out of `cerrado`, and settlement makes a
  paid order closed at the same time. `setOrderStatus` itself checks
  nothing, so a direct call can give a paid order any status
  (`ForcedStatusReopensPaidOrder`). "Paid implies
  closed" is therefore not part of the store invariant. It is proved to be
  kept by every status change the waiter's view offers
  (`OfferedStatusKeepsPaidClosed`, and the matching clause of
  `Store.SetOrderStatus`). Settlement and submission keep it as well
  (`CloseOpenKeepsPaidClosed`, `NewUnpaidKeepsPaidClosed`).

The handlers' `open.includes(o)` test compares object identities. Within one
atomic transition the open orders are exactly the orders that satisfy the
filter, so the model tests the same predicate (`IsOpen`) instead.
`subtotal` and `totalCobradoHoy` are left folds in the source. The model
sums from the right, which gives the same value on integers.

## Model

| member | source | states |
|---|---|---|
| `Cart.Subtotal` | docs/app.jsx:34 | no contract of its own (the sum of price × qty over the lines); characterised by `SubtotalBounds`, `SubtotalAppend`, `SubtotalUpdate` and `SubtotalCut` |
| `Cart.SubtotalBounds` | docs/app.jsx:34 | when every line holds at least one unit, the subtotal is never negative and is at least the unit price of each line |
| `Cart.FindIndex` | docs/app.jsx:63 | the result is -1 exactly when no line has the product; otherwise it is the first line that has it |
| `Cart.AddToCart` | docs/app.jsx:61-71 | afterwards the product has a line; the cart grows by one line exactly when the product had none; each line of another product stays where it was, unchanged |
| `Cart.AddToCartMerges` | docs/app.jsx:63-67 | adding a product that already has a line raises that line's qty by exactly 1; the length and every other line are unchanged |
| `Cart.AddToCartAppends` | docs/app.jsx:69 | adding a product with no line appends `{productId, name, price, qty: 1}` at the end |
| `Cart.RemoveOne` | docs/app.jsx:76 | one line yields at most one line, for the same product, name and price; a line of another product is kept as it is; a line of the product is dropped exactly when it holds at most one unit, and otherwise keeps one unit less |
| `Cart.RemoveFromCart` | docs/app.jsx:73-79 | the cart never grows, and removing an absent product leaves the cart unchanged |
| `Cart.RemoveFromCartConcat` | docs/app.jsx:75-77 | removal works line by line: removing from a concatenation is the concatenation of the removals |
| `Cart.RemoveFromCartSplit` | docs/app.jsx:75-77 | when only line k has the product, removal rewrites line k alone and keeps the lines before and after it |
| `Cart.RemoveFromCartAt` | docs/app.jsx:75-77 | when the product has one line, a line with qty > 1 is decremented in place and a line with qty ≤ 1 is cut out, with the other lines kept in order |
| `Cart.AddToCartKeepsValid` | docs/app.jsx:63-69 | adding keeps every qty ≥ 1 and product ids unique |
| `Cart.RemoveFromCartKeepsValid` | docs/app.jsx:75-77 | removing keeps every qty ≥ 1 and product ids unique |
| `Cart.SubtotalAppend` | docs/app.jsx:34 | the subtotal of two concatenated line lists is the sum of their subtotals |
| `Cart.SubtotalUpdate` | docs/app.jsx:34 | replacing one line changes the subtotal by new price × qty minus old price × qty |
| `Cart.SubtotalCut` | docs/app.jsx:34 | cutting one line out lowers the subtotal by that line's price × qty |
| `Cart.AddToCartSubtotal` | docs/app.jsx:61-70 | adding a product raises the subtotal by the unit price stored in its line when it has one (the price copied when the line was created), and by the product's price otherwise |
| `Cart.AddToCartSubtotalPriced` | docs/app.jsx:61-70 | when the product's lines carry its current price, adding it raises the subtotal by exactly that price |
| `Cart.RemoveFromCartSubtotal` | docs/app.jsx:73-79 | in a valid cart, removing a present product lowers the subtotal by that line's price; removing an absent one leaves it unchanged |
| `Orders.SetStatus` | docs/app.jsx:114-116 | only the status field changes; orders with the given id get the given status and all other orders keep theirs |
| `Orders.NextStatus` | docs/app.jsx:334-348 | the waiter's buttons never lead to `cerrado`; a closed order has no button; no button keeps the status the same |
| `Orders.OfferedStatusKeepsPaidClosed` | docs/app.jsx:114-116 | a status change the view offers for the order keeps every paid order closed |
| `Orders.ForcedStatusReopensPaidOrder` | docs/app.jsx:114-116 | a direct call can move a paid, closed order back to `en_cocina`: the handler enforces no state machine |
| `Orders.SetStatusKeepsIds` | docs/app.jsx:115 | a status change keeps ids strictly decreasing and below the next id |
| `Orders.PrependKeepsIds` | docs/app.jsx:84-92 | putting an order whose id is the next sequence number in front keeps ids strictly decreasing, and all ids stay below the bumped counter |
| `Settlement.OpenOrders` | docs/app.jsx:118-121 | every selected order belongs to the table and is neither paid nor closed; the selection is empty exactly when the table has no such order |
| `Settlement.OpenOrdersComplete` | docs/app.jsx:118-121 | the selection is complete: every open order of the table is in it, and everything in it comes from the order list |
| `Settlement.SumSubtotals` | docs/app.jsx:122 | no contract of its own (the sum of the orders' subtotals, the settled amount); `CloseOpenRevenue` and `SettleLedger` relate it to the paid value and the takings |
| `Settlement.Close` | docs/app.jsx:124 | a settled order keeps its id, items, table and time, records the payment method, and is no longer unsettled |
| `Settlement.CloseOpen` | docs/app.jsx:123-125 | each open order of the table becomes paid and closed with the given method, keeping id, items, table and time; every other order is unchanged |
| `Settlement.CloseOpenLeavesNoneOpen` | docs/app.jsx:117-125 | after settlement the table has no open order, so settling it again at once is a no-op |
| `Settlement.CloseOpenOtherTable` | docs/app.jsx:118-125 | settling one table leaves every other table's open orders unchanged |
| `Settlement.CloseOpenRevenue` | docs/app.jsx:122-125 | settlement raises the value of paid orders by exactly the sum of the settled orders' subtotals |
| `Settlement.CloseOpenKeepsPaidClosed` | docs/app.jsx:123-125 | settlement keeps every paid order closed |
| `Settlement.CloseOpenKeepsIds` | docs/app.jsx:123-125 | settlement keeps ids strictly decreasing and below the next id |
| `Settlement.SettleLedger` | docs/app.jsx:122-129 | putting the settlement's payment first raises the takings by its amount, and keeps the takings equal to the value of the paid orders |
| `Settlement.CloseOpenFacts` | docs/app.jsx:117-125 | settlement keeps the id order, leaves the table nothing open, leaves other tables alone, keeps paid orders closed, and adds the settled subtotals to the paid value |
| `Settlement.SetStatusRevenue` | docs/app.jsx:115 | a status change leaves the value of paid orders unchanged |
| `Settlement.NewUnpaidOrder` | docs/app.jsx:83-92 | a new unpaid order leaves the value of paid orders unchanged |
| `Settlement.NewUnpaidKeepsPaidClosed` | docs/app.jsx:83-92 | a new unpaid order keeps every paid order closed |
| `Settlement.Pending` | docs/app.jsx:53 | every kept order is neither paid nor closed, and the list never grows |
| `Settlement.PendingComplete` | docs/app.jsx:53 | the filter is complete: every unsettled order is kept, and everything kept comes from the order list |
| `Settlement.Lookup` | docs/app.jsx:54 | a table with a key reads its stored count; the result is 0 exactly when the table has no key or a stored 0 |
| `Settlement.OpenOrdersOfPending` | docs/app.jsx:52-54 | filtering out settled orders first does not change any table's open orders |
| `Settlement.PendingCounts` | docs/app.jsx:52-54 | counting per table over the unsettled orders gives each table's open-order count |
| `Settlement.PendingByTable` | docs/app.jsx:50-56 | the returned map gives each table its number of open orders (absent key read as 0), and a table is a key exactly when it has one |
| `Settlement.TotalPaid` | docs/app.jsx:58 | no contract of its own (the sum of the payment amounts); characterised by `TotalPaidConcat`, and tied to the paid orders by the store invariant |
| `Settlement.TotalPaidConcat` | docs/app.jsx:58 | the takings are additive over the ledger |
| `Settlement.PrependOrAppendSameTotal` | docs/app.jsx:126-129 | putting a payment first, as the handlers do, or last gives the same takings, namely the old takings plus its amount |
| `Restaurant.SettleKeepsConsistent` | docs/app.jsx:117-130 | settling a table and putting its payment first keeps the store invariant, leaves the table no open order, leaves other tables alone, keeps paid orders closed and adds the amount to the takings |
| `Restaurant.Store.constructor` | docs/app.jsx:38-45 | the initial state is valid: nothing ordered or paid, next order id 1, table 1 selected |
| `Restaurant.Store.SelectTable` | docs/app.jsx:150-152 | only the selected table changes |
| `Restaurant.Store.AddToCart` | docs/app.jsx:61-71 | the cart becomes the merged cart and the invariant is kept; the subtotal grows by the unit price of the product's existing line, or by the product's price when it had none, hence by the product's price whenever its lines carry it; nothing else changes |
| `Restaurant.Store.RemoveFromCart` | docs/app.jsx:73-79 | the cart becomes the decremented cart, an absent product changes nothing, the subtotal drops by the line's price, and nothing else changes |
| `Restaurant.Store.SendOrder` | docs/app.jsx:81-94 | an empty cart changes nothing; otherwise exactly one order `{id: orderSeq, items: cart, table, en_cocina, unpaid}` is put in front, its id exceeds every other id, orderSeq grows by 1 and the cart is emptied; paid orders stay closed |
| `Restaurant.Store.SetOrderStatus` | docs/app.jsx:114-116 | the orders become the status-updated orders, the invariant is kept, an offered transition keeps paid orders closed, and nothing else changes |
| `Restaurant.Store.Settle` | docs/app.jsx:117-130 | no open order: nothing changes; otherwise exactly the open orders are closed and paid and one payment for their total subtotal is put in front; the table ends with open count 0, other tables are untouched, and the payment total grows by exactly the amount; paid orders stay closed |
| `Restaurant.Store.CloseTable` | docs/app.jsx:122-129 | with open orders present: exactly those are closed and paid, one payment for their total is put in front, the table ends with open count 0, other tables are untouched, the takings grow by the amount, and the invariant is kept |
| `Restaurant.Store.PayFromClient` | docs/app.jsx:96-111 | the same settlement for the table selected in the customer view |
| `Sample.OrderOne` | docs/app.jsx:61-94 | with an empty cart, adding one product and sending gives one new order holding one unit of it, with the next id, and an empty cart |
| `Sample.TableFiveOrders` | docs/app.jsx:38-94 | from the initial state, table 5 ordering a Combo Pareja and then an Arroz del Chef yields orders 2 and 1, newest first, both in the kitchen and unpaid |
| `Sample.TableFiveBill` | docs/app.jsx:14-15 | the two sample orders of table 5 are both open and together worth 1150 cents |

## Left out

- Rendering, layout, the category filter of the product grid and the order list filter of the waiter's view: presentation only.
- Currency formatting (`money`, via `Intl.NumberFormat`) and the `alert` after a customer payment: foreign library and browser calls.
- `crypto.randomUUID()` and `Date.now()`: the payment id and the timestamps are parameters supplied by the caller.
- Floating-point prices and the chart-height computation of the cash summary: prices are integer cents, so sums are exact.
- React's state machinery (hooks, memoisation, stale closures, batched updates): each handler is one atomic transition of the store.
- Product category and image, and the table names: static catalogue data. The menu appears only as sample data.
- The `filterMesa || 1` fallback of the waiter's settle buttons: the model's `Settle` takes the table directly.
- Status values outside the four known ones: the source stores any string passed to `setOrderStatus`; the model's `Status` type has only the four the program uses.
- Payment methods outside "efectivo", "barra" and "online": the model's `PaymentMethod` type has only these three.
