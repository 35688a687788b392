/** The demo's shared state and its event handlers, each handler one atomic
    transition of the store. */
module Restaurant {
  import opened Cart
  import opened Orders
  import opened Settlement

  /** The store invariant on the state's values: the cart is valid, order
      ids strictly decrease from the newest order and are all below the next
      id, and the payments add up to the value of the paid orders. */
  ghost predicate Consistent(cart: seq<CartLine>, orders: seq<Order>, orderSeq: int, payments: seq<Payment>)
  {
    && ValidCart(cart)
    && IdsDescending(orders)
    && IdsBelow(orders, orderSeq)
    && TotalPaid(payments) == PaidRevenue(orders)
  }

  /** Settling `table` with its payment `p` keeps the invariant, empties the
      table, leaves other tables alone, keeps paid orders closed, and adds
      the payment to the takings. */
  lemma SettleKeepsConsistent(cart: seq<CartLine>, orders: seq<Order>, orderSeq: int, payments: seq<Payment>,
                              table: int, via: PaymentMethod, p: Payment)
    requires Consistent(cart, orders, orderSeq, payments)
    requires p.amount == SumSubtotals(OpenOrders(orders, table))
    ensures var r := CloseOpen(orders, table, via);
      && Consistent(cart, r, orderSeq, [p] + payments)
      && OpenCount(r, table) == 0
      && (forall t | t != table :: OpenOrders(r, t) == OpenOrders(orders, t))
      && (PaidClosed(orders) ==> PaidClosed(r))
      && TotalPaid([p] + payments) == TotalPaid(payments) + p.amount
  {
    CloseOpenFacts(orders, table, via, orderSeq);
    SettleLedger(orders, payments, table, via, p);
  }

  class Store {
    var cart: seq<CartLine>
    var orders: seq<Order>
    var orderSeq: int
    var payments: seq<Payment>
    /** The table the customer view has selected. */
    var selectedTable: int

    /** The store invariant (`Consistent`) on the current state. */
    ghost predicate Valid()
      reads this
    {
      Consistent(cart, orders, orderSeq, payments)
    }

    /** The initial state: nothing ordered or paid, next id 1, table 1. */
    constructor ()
      ensures Valid()
      ensures cart == [] && orders == [] && payments == []
      ensures orderSeq == 1 && selectedTable == 1
    {
      cart, orders, payments := [], [], [];
      orderSeq, selectedTable := 1, 1;
    }

    /** The table selector of the customer view. */
    method SelectTable(table: int)
      requires Valid()
      modifies this
      ensures Valid()
      ensures selectedTable == table
      ensures cart == old(cart) && orders == old(orders)
      ensures orderSeq == old(orderSeq) && payments == old(payments)
    {
      selectedTable := table;
    }

    /** addToCart. */
    method AddToCart(p: Product)
      requires Valid()
      modifies this
      ensures Valid()
      ensures cart == Cart.AddToCart(old(cart), p)
      ensures var i := FindIndex(old(cart), p.id);
        Subtotal(cart) == Subtotal(old(cart)) + (if i >= 0 then old(cart)[i].price else p.price)
      ensures PricedAs(old(cart), p) ==> Subtotal(cart) == Subtotal(old(cart)) + p.price
      ensures orders == old(orders) && orderSeq == old(orderSeq)
      ensures payments == old(payments) && selectedTable == old(selectedTable)
    {
      AddToCartKeepsValid(cart, p);
      AddToCartSubtotal(cart, p);
      if PricedAs(cart, p) {
        AddToCartSubtotalPriced(cart, p);
      }
      cart := Cart.AddToCart(cart, p);
    }

    /** removeFromCart. */
    method RemoveFromCart(id: int)
      requires Valid()
      modifies this
      ensures Valid()
      ensures cart == Cart.RemoveFromCart(old(cart), id)
      ensures Absent(old(cart), id) ==> cart == old(cart)
      ensures var i := FindIndex(old(cart), id);
        i >= 0 ==> Subtotal(cart) == Subtotal(old(cart)) - old(cart)[i].price
      ensures orders == old(orders) && orderSeq == old(orderSeq)
      ensures payments == old(payments) && selectedTable == old(selectedTable)
    {
      RemoveFromCartKeepsValid(cart, id);
      RemoveFromCartSubtotal(cart, id);
      cart := Cart.RemoveFromCart(cart, id);
    }

    /** sendOrder: an empty cart is ignored; otherwise the cart becomes a new
        order of the selected table, in the kitchen and unpaid, with the next
        sequence number, put in front of the others, and the cart is emptied. */
    method SendOrder(createdAt: int)
      requires Valid()
      modifies this
      ensures Valid()
      ensures old(cart) == [] ==> orders == old(orders) && orderSeq == old(orderSeq) && cart == old(cart)
      ensures old(cart) != [] ==>
        && orders == [Order(old(orderSeq), old(cart), selectedTable, EnCocina, false, None, createdAt)] + old(orders)
        && orderSeq == old(orderSeq) + 1
        && cart == []
      ensures old(cart) != [] ==> forall i | 1 <= i < |orders| :: orders[i].id < orders[0].id
      ensures PaidClosed(old(orders)) ==> PaidClosed(orders)
      ensures payments == old(payments) && selectedTable == old(selectedTable)
    {
      if |cart| == 0 {
        return;
      }
      var o := Order(orderSeq, cart, selectedTable, EnCocina, false, None, createdAt);
      PrependKeepsIds(orders, o);
      NewUnpaidOrder(orders, o);
      if PaidClosed(orders) {
        NewUnpaidKeepsPaidClosed(orders, o);
      }
      orderSeq := orderSeq + 1;
      orders := [o] + orders;
      cart := [];
    }

    /** setOrderStatus: overwrite the status of the orders with id `id`; the
        handler accepts any status. A status the waiter's view offers keeps
        every paid order closed. */
    method SetOrderStatus(id: int, s: Status)
      requires Valid()
      modifies this
      ensures Valid()
      ensures orders == SetStatus(old(orders), id, s)
      ensures PaidClosed(old(orders))
        && (forall i | 0 <= i < |old(orders)| && old(orders)[i].id == id :: NextStatus(old(orders)[i].status) == Some(s))
        ==> PaidClosed(orders)
      ensures cart == old(cart) && orderSeq == old(orderSeq)
      ensures payments == old(payments) && selectedTable == old(selectedTable)
    {
      SetStatusKeepsIds(orders, id, s, orderSeq);
      SetStatusRevenue(orders, id, s);
      if PaidClosed(orders) && (forall i | 0 <= i < |orders| && orders[i].id == id :: NextStatus(orders[i].status) == Some(s)) {
        OfferedStatusKeepsPaidClosed(orders, id, s);
      }
      orders := SetStatus(orders, id, s);
    }

    /** cobrarMesa: when the table has open orders, close and mark paid every
        one of them with `via`, and put one payment for their total in front
        of the ledger; otherwise change nothing. Afterwards the table has no
        open order and the day's takings grew by the amount. `paymentId` and
        `at` stand for the random UUID and the clock. */
    method Settle(table: int, via: PaymentMethod, paymentId: string, at: int)
      requires Valid()
      modifies this
      ensures Valid()
      ensures OpenOrders(old(orders), table) == [] ==> orders == old(orders) && payments == old(payments)
      ensures OpenOrders(old(orders), table) != [] ==>
        && orders == CloseOpen(old(orders), table, via)
        && payments == [Payment(paymentId, table, SumSubtotals(OpenOrders(old(orders), table)), via, at)] + old(payments)
      ensures OpenCount(orders, table) == 0
      ensures forall t | t != table :: OpenOrders(orders, t) == OpenOrders(old(orders), t)
      ensures PaidClosed(old(orders)) ==> PaidClosed(orders)
      ensures TotalPaid(payments) == old(TotalPaid(payments)) + SumSubtotals(OpenOrders(old(orders), table))
      ensures cart == old(cart) && orderSeq == old(orderSeq) && selectedTable == old(selectedTable)
    {
      if OpenOrders(orders, table) == [] {
        return;
      }
      CloseTable(table, via, paymentId, at);
    }

    /** The branch of cobrarMesa that does the work: the table has open orders. */
    method CloseTable(table: int, via: PaymentMethod, paymentId: string, at: int)
      requires Valid() && OpenOrders(orders, table) != []
      modifies this
      ensures Valid()
      ensures orders == CloseOpen(old(orders), table, via)
      ensures payments == [Payment(paymentId, table, SumSubtotals(OpenOrders(old(orders), table)), via, at)] + old(payments)
      ensures OpenCount(orders, table) == 0
      ensures forall t | t != table :: OpenOrders(orders, t) == OpenOrders(old(orders), t)
      ensures PaidClosed(old(orders)) ==> PaidClosed(orders)
      ensures TotalPaid(payments) == old(TotalPaid(payments)) + SumSubtotals(OpenOrders(old(orders), table))
      ensures cart == old(cart) && orderSeq == old(orderSeq) && selectedTable == old(selectedTable)
    {
      var payment := Payment(paymentId, table, SumSubtotals(OpenOrders(orders, table)), via, at);
      SettleKeepsConsistent(cart, orders, orderSeq, payments, table, via, payment);
      orders, payments := CloseOpen(orders, table, via), [payment] + payments;
    }

    /** payFromClient: the customer settles the selected table. */
    method PayFromClient(via: PaymentMethod, paymentId: string, at: int)
      requires Valid()
      modifies this
      ensures Valid()
      ensures OpenOrders(old(orders), selectedTable) == [] ==> orders == old(orders) && payments == old(payments)
      ensures OpenOrders(old(orders), selectedTable) != [] ==>
        && orders == CloseOpen(old(orders), selectedTable, via)
        && payments == [Payment(paymentId, selectedTable, SumSubtotals(OpenOrders(old(orders), selectedTable)), via, at)] + old(payments)
      ensures OpenCount(orders, selectedTable) == 0
      ensures PaidClosed(old(orders)) ==> PaidClosed(orders)
      ensures TotalPaid(payments) == old(TotalPaid(payments)) + SumSubtotals(OpenOrders(old(orders), selectedTable))
      ensures cart == old(cart) && orderSeq == old(orderSeq) && selectedTable == old(selectedTable)
    {
      Settle(selectedTable, via, paymentId, at);
    }
  }
}
