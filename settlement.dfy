/** Settling a table (cobrarMesa / payFromClient), the payment ledger, and
    the two derived views: open orders per table and the day's takings. */
module Settlement {
  import opened Cart
  import opened Orders

  /** A recorded payment. `id` and `at` stand for the random UUID and the
      clock reading, both supplied by the caller. */
  datatype Payment = Payment(id: string, tableId: int, amount: int, via: PaymentMethod, at: int)

  /** Neither paid nor closed: what the per-table count looks at. */
  predicate Unsettled(o: Order)
  {
    !o.paid && o.status != Cerrado
  }

  /** An order settlement of `table` would pick up. */
  predicate IsOpen(o: Order, table: int)
  {
    o.tableId == table && Unsettled(o)
  }

  /** The table's open orders, in list order. */
  function OpenOrders(orders: seq<Order>, table: int): (r: seq<Order>)
    ensures |r| <= |orders|
    ensures forall i | 0 <= i < |r| :: IsOpen(r[i], table)
    ensures r == [] <==> forall i | 0 <= i < |orders| :: !IsOpen(orders[i], table)
  {
    if orders == [] then []
    else
      (if IsOpen(orders[0], table) then [orders[0]] else [])
      + OpenOrders(orders[1..], table)
  }

  /** The selection is complete: every open order of the table is in it,
      and everything in it comes from the list. */
  lemma {:induction false} OpenOrdersComplete(orders: seq<Order>, table: int)
    ensures forall i | 0 <= i < |orders| && IsOpen(orders[i], table) :: orders[i] in OpenOrders(orders, table)
    ensures forall o | o in OpenOrders(orders, table) :: o in orders
  {
    if orders != [] {
      OpenOrdersComplete(orders[1..], table);
      assert forall i | 1 <= i < |orders| :: orders[i] == orders[1..][i - 1];
    }
  }

  /** The number of open orders of a table. */
  function OpenCount(orders: seq<Order>, table: int): nat
  {
    |OpenOrders(orders, table)|
  }

  /** Sum of the order subtotals. */
  function SumSubtotals(orders: seq<Order>): int
  {
    if orders == [] then 0 else Subtotal(orders[0].items) + SumSubtotals(orders[1..])
  }

  /** What settlement makes of one open order: it keeps its identity, items,
      table and time, records the method, and is no longer unsettled. */
  function Close(o: Order, via: PaymentMethod): (r: Order)
    ensures r.id == o.id && r.items == o.items && r.tableId == o.tableId && r.createdAt == o.createdAt
    ensures r.paymentMethod == Some(via) && !Unsettled(r)
  {
    o.(paid := true, status := Cerrado, paymentMethod := Some(via))
  }

  /** The order list after settling `table`: each open order of the table is
      closed and paid with `via`; every other order is left alone. */
  function CloseOpen(orders: seq<Order>, table: int, via: PaymentMethod): (r: seq<Order>)
    ensures |r| == |orders|
    ensures forall i | 0 <= i < |orders| ::
      && r[i].id == orders[i].id
      && r[i].items == orders[i].items
      && r[i].tableId == orders[i].tableId
      && r[i].createdAt == orders[i].createdAt
      && (IsOpen(orders[i], table) ==>
            r[i].paid && r[i].status == Cerrado && r[i].paymentMethod == Some(via))
      && (!IsOpen(orders[i], table) ==> r[i] == orders[i])
  {
    if orders == [] then []
    else
      [if IsOpen(orders[0], table) then Close(orders[0], via) else orders[0]]
      + CloseOpen(orders[1..], table, via)
  }

  /** The value of all paid orders. */
  function PaidRevenue(orders: seq<Order>): int
  {
    if orders == [] then 0
    else (if orders[0].paid then Subtotal(orders[0].items) else 0) + PaidRevenue(orders[1..])
  }

  /** totalCobradoHoy: the sum of all payment amounts. */
  function TotalPaid(payments: seq<Payment>): int
  {
    if payments == [] then 0 else payments[0].amount + TotalPaid(payments[1..])
  }

  /** The takings are additive over the ledger. */
  lemma {:induction false} TotalPaidConcat(a: seq<Payment>, b: seq<Payment>)
    ensures TotalPaid(a + b) == TotalPaid(a) + TotalPaid(b)
  {
    if a == [] {
      assert a + b == b;
    } else {
      assert (a + b)[0] == a[0];
      assert (a + b)[1..] == a[1..] + b;
      TotalPaidConcat(a[1..], b);
    }
  }

  /** Putting a payment first, as the handlers do, or last gives the same
      takings. */
  lemma PrependOrAppendSameTotal(payments: seq<Payment>, p: Payment)
    ensures TotalPaid([p] + payments) == TotalPaid(payments + [p])
    ensures TotalPaid([p] + payments) == TotalPaid(payments) + p.amount
  {
    TotalPaidConcat([p], payments);
    TotalPaidConcat(payments, [p]);
    assert [p][1..] == [];
  }

  /** After settling a table it has no open order left, so settling it again
      at once is a no-op. */
  lemma CloseOpenLeavesNoneOpen(orders: seq<Order>, table: int, via: PaymentMethod)
    ensures OpenOrders(CloseOpen(orders, table, via), table) == []
  {
  }

  /** Everything settling `table` guarantees about the order list: ids keep
      their order and bound, the table has no open order left, other tables'
      open orders are untouched, paid orders stay closed, and the value of
      paid orders grows by the value of the settled ones. */
  lemma CloseOpenFacts(orders: seq<Order>, table: int, via: PaymentMethod, bound: int)
    requires IdsDescending(orders) && IdsBelow(orders, bound)
    ensures var r := CloseOpen(orders, table, via);
      && IdsDescending(r) && IdsBelow(r, bound)
      && OpenOrders(r, table) == []
      && (forall t | t != table :: OpenOrders(r, t) == OpenOrders(orders, t))
      && (PaidClosed(orders) ==> PaidClosed(r))
      && PaidRevenue(r) == PaidRevenue(orders) + SumSubtotals(OpenOrders(orders, table))
  {
    CloseOpenLeavesNoneOpen(orders, table, via);
    CloseOpenRevenue(orders, table, via);
    if PaidClosed(orders) {
      CloseOpenKeepsPaidClosed(orders, table, via);
    }
    forall t | t != table ensures OpenOrders(CloseOpen(orders, table, via), t) == OpenOrders(orders, t) {
      CloseOpenOtherTable(orders, table, via, t);
    }
    CloseOpenKeepsIds(orders, table, via, bound);
  }

  /** Settling `table` and putting its payment `p` first keeps the ledger
      equal to the paid value, and the takings grow by the payment. */
  lemma SettleLedger(orders: seq<Order>, payments: seq<Payment>, table: int, via: PaymentMethod, p: Payment)
    requires TotalPaid(payments) == PaidRevenue(orders)
    requires p.amount == SumSubtotals(OpenOrders(orders, table))
    ensures TotalPaid([p] + payments) == TotalPaid(payments) + p.amount
    ensures TotalPaid([p] + payments) == PaidRevenue(CloseOpen(orders, table, via))
  {
    CloseOpenRevenue(orders, table, via);
    assert ([p] + payments)[1..] == payments;
  }

  /** Settlement keeps every paid order closed. */
  lemma CloseOpenKeepsPaidClosed(orders: seq<Order>, table: int, via: PaymentMethod)
    requires PaidClosed(orders)
    ensures PaidClosed(CloseOpen(orders, table, via))
  {
  }

  /** A new unpaid order keeps every paid order closed. */
  lemma NewUnpaidKeepsPaidClosed(orders: seq<Order>, o: Order)
    requires PaidClosed(orders) && !o.paid
    ensures PaidClosed([o] + orders)
  {
  }

  /** Settlement keeps the ids, hence their order and bound. */
  lemma CloseOpenKeepsIds(orders: seq<Order>, table: int, via: PaymentMethod, bound: int)
    requires IdsDescending(orders) && IdsBelow(orders, bound)
    ensures IdsDescending(CloseOpen(orders, table, via)) && IdsBelow(CloseOpen(orders, table, via), bound)
  {
  }

  /** Settling one table does not touch another table's open orders. */
  lemma {:induction false} CloseOpenOtherTable(orders: seq<Order>, table: int, via: PaymentMethod, other: int)
    requires other != table
    ensures OpenOrders(CloseOpen(orders, table, via), other) == OpenOrders(orders, other)
  {
    if orders != [] {
      CloseOpenOtherTable(orders[1..], table, via, other);
      assert CloseOpen(orders, table, via)[1..] == CloseOpen(orders[1..], table, via);
    }
  }

  /** Settling a table adds exactly the value of its open orders to the
      value of paid orders. */
  lemma {:induction false} CloseOpenRevenue(orders: seq<Order>, table: int, via: PaymentMethod)
    ensures PaidRevenue(CloseOpen(orders, table, via))
         == PaidRevenue(orders) + SumSubtotals(OpenOrders(orders, table))
  {
    if orders != [] {
      var rest := orders[1..];
      CloseOpenRevenue(rest, table, via);
      var r := CloseOpen(orders, table, via);
      assert r[1..] == CloseOpen(rest, table, via);
      var open := OpenOrders(orders, table);
      if IsOpen(orders[0], table) {
        assert open == [orders[0]] + OpenOrders(rest, table);
        assert open[1..] == OpenOrders(rest, table);
        assert SumSubtotals(open) == Subtotal(orders[0].items) + SumSubtotals(OpenOrders(rest, table));
      } else {
        assert open == OpenOrders(rest, table);
      }
    }
  }

  /** A status change neither pays nor unpays an order, nor touches its items. */
  lemma {:induction false} SetStatusRevenue(orders: seq<Order>, id: int, s: Status)
    ensures PaidRevenue(SetStatus(orders, id, s)) == PaidRevenue(orders)
  {
    if orders != [] {
      SetStatusRevenue(orders[1..], id, s);
      var r := SetStatus(orders, id, s);
      assert r[1..] == SetStatus(orders[1..], id, s);
    }
  }

  /** A new unpaid order does not change the value of paid orders. */
  lemma NewUnpaidOrder(orders: seq<Order>, o: Order)
    requires !o.paid
    ensures PaidRevenue([o] + orders) == PaidRevenue(orders)
  {
  }

  lemma {:induction false} OpenOrdersAppend(orders: seq<Order>, o: Order, table: int)
    ensures OpenOrders(orders + [o], table)
         == OpenOrders(orders, table) + (if IsOpen(o, table) then [o] else [])
  {
    if orders == [] {
      assert orders + [o] == [o];
    } else {
      assert (orders + [o])[1..] == orders[1..] + [o];
      OpenOrdersAppend(orders[1..], o, table);
    }
  }

  /** The unsettled orders, in list order (the filter of the count view). */
  function Pending(orders: seq<Order>): (r: seq<Order>)
    ensures |r| <= |orders|
    ensures forall i | 0 <= i < |r| :: Unsettled(r[i])
  {
    if orders == [] then []
    else (if Unsettled(orders[0]) then [orders[0]] else []) + Pending(orders[1..])
  }

  /** The filter is complete: every unsettled order is kept, and everything
      kept comes from the list. */
  lemma {:induction false} PendingComplete(orders: seq<Order>)
    ensures forall i | 0 <= i < |orders| && Unsettled(orders[i]) :: orders[i] in Pending(orders)
    ensures forall o | o in Pending(orders) :: o in orders
  {
    if orders != [] {
      PendingComplete(orders[1..]);
      assert forall i | 1 <= i < |orders| :: orders[i] == orders[1..][i - 1];
    }
  }

  lemma {:induction false} OpenOrdersOfPending(orders: seq<Order>, table: int)
    ensures OpenOrders(Pending(orders), table) == OpenOrders(orders, table)
  {
    if orders != [] {
      OpenOrdersOfPending(orders[1..], table);
      var head := if Unsettled(orders[0]) then [orders[0]] else [];
      assert Pending(orders) == head + Pending(orders[1..]);
      OpenOrdersConcat(head, Pending(orders[1..]), table);
    }
  }

  lemma {:induction false} OpenOrdersConcat(a: seq<Order>, b: seq<Order>, table: int)
    ensures OpenOrders(a + b, table) == OpenOrders(a, table) + OpenOrders(b, table)
  {
    if a == [] {
      assert a + b == b;
    } else {
      assert (a + b)[0] == a[0];
      assert (a + b)[1..] == a[1..] + b;
      OpenOrdersConcat(a[1..], b, table);
    }
  }

  /** Counting the unsettled orders per table counts the open orders. */
  lemma PendingCounts(orders: seq<Order>)
    ensures forall t :: OpenCount(Pending(orders), t) == OpenCount(orders, t)
  {
    forall t ensures OpenCount(Pending(orders), t) == OpenCount(orders, t) {
      OpenOrdersOfPending(orders, t);
    }
  }

  /** One more unsettled order, the `i`-th, adds one to its own table's
      count only; the counts stay positive. */
  lemma CountStep(counts: map<int, nat>, open: seq<Order>, i: int)
    requires 0 <= i < |open| && Unsettled(open[i])
    requires forall t :: Lookup(counts, t) == OpenCount(open[..i], t)
    requires forall t | t in counts :: counts[t] > 0
    ensures var next := counts[open[i].tableId := Lookup(counts, open[i].tableId) + 1];
      && (forall t :: Lookup(next, t) == OpenCount(open[..i + 1], t))
      && (forall t | t in next :: next[t] > 0)
  {
    var o := open[i];
    var next := counts[o.tableId := Lookup(counts, o.tableId) + 1];
    assert open[..i + 1] == open[..i] + [o];
    forall t ensures Lookup(next, t) == OpenCount(open[..i + 1], t) {
      OpenOrdersAppend(open[..i], o, t);
      assert Lookup(counts, t) == OpenCount(open[..i], t);
      assert |OpenOrders(open[..i] + [o], t)| == OpenCount(open[..i], t) + (if o.tableId == t then 1 else 0);
    }
  }

  /** `map.get(t) || 0`: the stored count, or 0 for a table with no key. */
  function Lookup(m: map<int, nat>, t: int): (r: nat)
    ensures t in m ==> r == m[t]
    ensures r == 0 <==> t !in m || m[t] == 0
  {
    if t in m then m[t] else 0
  }

  /** mesasConPendientes: how many unsettled orders each table has. A table
      is a key exactly when it has at least one. */
  method PendingByTable(orders: seq<Order>) returns (m: map<int, nat>)
    ensures forall t :: Lookup(m, t) == OpenCount(orders, t)
    ensures forall t :: t in m <==> OpenCount(orders, t) > 0
  {
    var open := Pending(orders);
    m := map[];
    var i := 0;
    while i < |open|
      invariant 0 <= i <= |open|
      invariant forall t :: Lookup(m, t) == OpenCount(open[..i], t)
      invariant forall t | t in m :: m[t] > 0
    {
      CountStep(m, open, i);
      m := m[open[i].tableId := Lookup(m, open[i].tableId) + 1];
      i := i + 1;
    }
    assert open[..i] == open;
    PendingCounts(orders);
  }
}
