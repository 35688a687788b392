/** The demo's sample menu, in cents, and two customer and waiter sessions
    replayed against the store: a single order from table 3, and table 5
    ordering twice and settling once. */
module Sample {
  import opened Cart
  import opened Orders
  import opened Settlement
  import opened Restaurant

  const ComboPareja := Product(1, "Combo Pareja", 800)
  const ArrozDelChef := Product(2, "Arroz del Chef", 350)
  const CarneSalteada := Product(3, "Carne salteada", 680)
  const EnsaladaAtun := Product(4, "Ensalada + atún", 550)
  const FiletArgentino := Product(5, "Filet Argentino", 890)
  const TartaDeQueso := Product(6, "Tarta de queso", 420)
  const Agua := Product(7, "Agua 50cl", 150)
  const Cafe := Product(8, "Café", 130)
  const HeladoVainilla := Product(9, "Helado vainilla", 310)

  const Menu: seq<Product> := [ComboPareja, ArrozDelChef, CarneSalteada, EnsaladaAtun,
    FiletArgentino, TartaDeQueso, Agua, Cafe, HeladoVainilla]

  /** Tables are numbered 1 to 12. */
  const TableCount := 12

  /** One Combo Pareja sent from table 3 becomes order 1, in the kitchen and
      unpaid, and the cart is left empty. */
  method SubmitForTableThree()
  {
    var store := new Store();
    store.SelectTable(3);
    store.AddToCart(ComboPareja);
    assert store.cart == [CartLine(1, "Combo Pareja", 800, 1)];
    store.SendOrder(0);
    assert store.orders == [Order(1, [CartLine(1, "Combo Pareja", 800, 1)], 3, EnCocina, false, None, 0)];
    assert store.cart == [] && store.orderSeq == 2;
  }

  /** The bill of the two orders below: both are open, together worth 11.50. */
  lemma TableFiveBill(first: Order, second: Order)
    requires first == Order(1, [CartLine(1, "Combo Pareja", 800, 1)], 5, EnCocina, false, None, 0)
    requires second == Order(2, [CartLine(2, "Arroz del Chef", 350, 1)], 5, EnCocina, false, None, 1)
    ensures OpenOrders([second, first], 5) == [second, first]
    ensures SumSubtotals([second, first]) == 1150
  {
    assert [second, first][1..] == [first];
    assert [first][1..] == [];
    assert first.items[1..] == [] && second.items[1..] == [];
    assert Subtotal(first.items) == 800 && Subtotal(second.items) == 350;
    assert SumSubtotals([first]) == 800;
  }

  /** A customer at the selected table with an empty cart adds one product
      and sends it: one new order holding one unit of it. */
  method OrderOne(store: Store, p: Product, createdAt: int)
    requires store.Valid() && store.cart == []
    modifies store
    ensures store.Valid()
    ensures store.orders == [Order(old(store.orderSeq), [NewLine(p)], store.selectedTable, EnCocina, false, None, createdAt)] + old(store.orders)
    ensures store.orderSeq == old(store.orderSeq) + 1 && store.cart == []
    ensures store.payments == old(store.payments) && store.selectedTable == old(store.selectedTable)
  {
    store.AddToCart(p);
    AddToCartAppends([], p);
    assert store.cart == [NewLine(p)];
    store.SendOrder(createdAt);
  }

  /** Table 5 sends one Combo Pareja, then one Arroz del Chef: two open
      orders, the newer first. */
  method TableFiveOrders() returns (store: Store)
    ensures fresh(store) && store.Valid()
    ensures store.orders == [
      Order(2, [CartLine(2, "Arroz del Chef", 350, 1)], 5, EnCocina, false, None, 1),
      Order(1, [CartLine(1, "Combo Pareja", 800, 1)], 5, EnCocina, false, None, 0)]
    ensures store.payments == [] && store.cart == []
  {
    store := new Store();
    store.SelectTable(5);
    OrderOne(store, ComboPareja, 0);
    OrderOne(store, ArrozDelChef, 1);
  }

  /** Those two orders, worth 8.00 and 3.50, settled in cash: one payment of
      11.50, both orders closed and paid, and a second settlement records
      nothing. */
  method SettleTableFive()
  {
    var store := TableFiveOrders();
    TableFiveBill(store.orders[1], store.orders[0]);
    store.Settle(5, Efectivo, "p-1", 2);
    assert store.payments == [Payment("p-1", 5, 1150, Efectivo, 2)];
    assert store.orders[0].paid && store.orders[0].status == Cerrado;
    assert store.orders[1].paid && store.orders[1].status == Cerrado;
    assert TotalPaid(store.payments) == 1150;
    store.Settle(5, Barra, "p-2", 3);
    assert store.payments == [Payment("p-1", 5, 1150, Efectivo, 2)];
  }
}
