/** Submitted orders, their kitchen/service status, and the waiter's status
    buttons. */
module Orders {
  import opened Cart

  datatype Option<T> = None | Some(value: T)

  /** The status an order can be in; `Cerrado` is reached only by settlement. */
  datatype Status = EnCocina | Listo | Servido | Cerrado

  /** The three payment methods the views offer. */
  datatype PaymentMethod = Efectivo | Barra | Online

  /** A submitted order. `createdAt` is the caller-supplied clock reading. */
  datatype Order = Order(
    id: int,
    items: seq<CartLine>,
    tableId: int,
    status: Status,
    paid: bool,
    paymentMethod: Option<PaymentMethod>,
    createdAt: int)

  /** Order ids strictly decrease from the front of the list (newest first). */
  predicate IdsDescending(orders: seq<Order>)
  {
    forall i, j | 0 <= i < j < |orders| :: orders[i].id > orders[j].id
  }

  /** Every order id is below `bound` (the next id to hand out). */
  predicate IdsBelow(orders: seq<Order>, bound: int)
  {
    forall i | 0 <= i < |orders| :: orders[i].id < bound
  }

  /** `b` is `a` with at most its status changed. */
  predicate SameButStatus(a: Order, b: Order)
  {
    b.(status := a.status) == a
  }

  /** setOrderStatus: every order with id `id` gets status `s`; the handler
      checks neither the id nor the transition. */
  function SetStatus(orders: seq<Order>, id: int, s: Status): (r: seq<Order>)
    ensures |r| == |orders|
    ensures forall i | 0 <= i < |orders| ::
      && SameButStatus(orders[i], r[i])
      && r[i].status == (if orders[i].id == id then s else orders[i].status)
  {
    if orders == [] then []
    else
      [if orders[0].id == id then orders[0].(status := s) else orders[0]]
      + SetStatus(orders[1..], id, s)
  }

  /** The status button the waiter's view shows for an order in status `s`,
      if any: en_cocina → listo → servido → en_cocina; nothing for cerrado. */
  function NextStatus(s: Status): (r: Option<Status>)
    ensures r != Some(Cerrado)
    ensures r == None <==> s == Cerrado
    ensures r != Some(s)
  {
    match s
    case EnCocina => Some(Listo)
    case Listo => Some(Servido)
    case Servido => Some(EnCocina)
    case Cerrado => None
  }

  /** Every paid order is closed. */
  predicate PaidClosed(orders: seq<Order>)
  {
    forall i | 0 <= i < |orders| :: orders[i].paid ==> orders[i].status == Cerrado
  }

  /** The waiter's buttons cannot reopen a paid order: a status change the
      view offers for every order with that id keeps `PaidClosed`. */
  lemma OfferedStatusKeepsPaidClosed(orders: seq<Order>, id: int, s: Status)
    requires PaidClosed(orders)
    requires forall i | 0 <= i < |orders| && orders[i].id == id :: NextStatus(orders[i].status) == Some(s)
    ensures PaidClosed(SetStatus(orders, id, s))
  {
  }

  /** Called directly, setOrderStatus can move a paid, closed order back
      into the kitchen. */
  lemma ForcedStatusReopensPaidOrder()
    ensures var paidOrder := Order(1, [], 5, Cerrado, true, Some(Efectivo), 0);
      PaidClosed([paidOrder]) && !PaidClosed(SetStatus([paidOrder], 1, EnCocina))
  {
  }

  /** setOrderStatus keeps ids, hence the id order of the list. */
  lemma SetStatusKeepsIds(orders: seq<Order>, id: int, s: Status, bound: int)
    requires IdsDescending(orders) && IdsBelow(orders, bound)
    ensures IdsDescending(SetStatus(orders, id, s)) && IdsBelow(SetStatus(orders, id, s), bound)
  {
  }

  /** Submitting increases ids: a new order whose id is the next sequence
      number, put in front, keeps ids strictly decreasing. */
  lemma PrependKeepsIds(orders: seq<Order>, o: Order)
    requires IdsDescending(orders) && IdsBelow(orders, o.id)
    ensures IdsDescending([o] + orders) && IdsBelow([o] + orders, o.id + 1)
  {
  }
}
