/** The customer's cart: merging a product into it, taking one unit of a
    product out of it, and its subtotal. Prices are integer cents. */
module Cart {

  /** A menu product. Only the fields the cart copies are modelled. */
  datatype Product = Product(id: int, name: string, price: nat)

  /** One line of a cart (and, once submitted, of an order). Name and price
      are a snapshot taken when the line is created. */
  datatype CartLine = CartLine(productId: int, name: string, price: nat, qty: int)

  /** The line a product gets the first time it is added. */
  function NewLine(p: Product): CartLine
  {
    CartLine(p.id, p.name, p.price, 1)
  }

  /** Sum of price × qty over the lines. */
  function Subtotal(items: seq<CartLine>): int
  {
    if items == [] then 0 else items[0].price * items[0].qty + Subtotal(items[1..])
  }

  /** The cart invariant the two cart operations keep: every line holds at
      least one unit, and no product has two lines. */
  predicate ValidCart(cart: seq<CartLine>)
  {
    && (forall j | 0 <= j < |cart| :: cart[j].qty >= 1)
    && (forall j, k | 0 <= j < k < |cart| :: cart[j].productId != cart[k].productId)
  }

  /** No line of the cart is for product `id`. */
  predicate Absent(cart: seq<CartLine>, id: int)
  {
    forall j | 0 <= j < |cart| :: cart[j].productId != id
  }

  /** Position of the first line for product `id`, or -1 (Array.findIndex). */
  function FindIndex(cart: seq<CartLine>, id: int): (i: int)
    ensures -1 <= i < |cart|
    ensures 0 <= i ==> cart[i].productId == id
    ensures 0 <= i ==> forall j | 0 <= j < i :: cart[j].productId != id
    ensures i == -1 <==> Absent(cart, id)
  {
    if cart == [] then -1
    else if cart[0].productId == id then 0
    else
      var k := FindIndex(cart[1..], id);
      assert forall j | 1 <= j < |cart| :: cart[j] == cart[1..][j - 1];
      if k == -1 then -1 else k + 1
  }

  /** addToCart: bump the quantity of the product's line, or append a new
      line. Afterwards the product has a line, the cart grew by one line
      exactly when the product had none, and the lines of other products are
      unchanged. */
  function AddToCart(cart: seq<CartLine>, p: Product): (r: seq<CartLine>)
    ensures !Absent(r, p.id)
    ensures |r| == if Absent(cart, p.id) then |cart| + 1 else |cart|
    ensures forall j | 0 <= j < |cart| && cart[j].productId != p.id :: r[j] == cart[j]
  {
    var i := FindIndex(cart, p.id);
    if i >= 0 then
      var r := cart[i := cart[i].(qty := cart[i].qty + 1)];
      assert r[i].productId == p.id;
      r
    else
      assert (cart + [NewLine(p)])[|cart|].productId == p.id;
      cart + [NewLine(p)]
  }

  /** What removeFromCart's flatMap makes of one line: at most one line, for
      the same product, name and price; it is dropped exactly when it is for
      `id` and holds at most one unit. */
  function RemoveOne(line: CartLine, id: int): (r: seq<CartLine>)
    ensures |r| <= 1
    ensures forall k | 0 <= k < |r| :: r[k] == line.(qty := r[k].qty)
    ensures r == [] <==> line.productId == id && line.qty <= 1
    ensures line.productId != id ==> r == [line]
    ensures line.productId == id && line.qty > 1 ==> r[0].qty == line.qty - 1
  {
    if line.productId == id then
      (if line.qty > 1 then [line.(qty := line.qty - 1)] else [])
    else [line]
  }

  /** removeFromCart: every line for `id` loses one unit; a line that had
      at most one unit is dropped. */
  function RemoveFromCart(cart: seq<CartLine>, id: int): (r: seq<CartLine>)
    ensures |r| <= |cart|
    ensures Absent(cart, id) ==> r == cart
  {
    if cart == [] then []
    else RemoveOne(cart[0], id) + RemoveFromCart(cart[1..], id)
  }

  /** Adding a product that already has a line: that line's quantity grows by
      one, the length and every other line stay as they were. */
  lemma AddToCartMerges(cart: seq<CartLine>, p: Product, k: int)
    requires 0 <= k < |cart| && cart[k].productId == p.id
    requires forall j | 0 <= j < k :: cart[j].productId != p.id
    ensures |AddToCart(cart, p)| == |cart|
    ensures AddToCart(cart, p)[k] == cart[k].(qty := cart[k].qty + 1)
    ensures forall j | 0 <= j < |cart| && j != k :: AddToCart(cart, p)[j] == cart[j]
  {
  }

  /** Adding a product with no line appends a one-unit line at the end. */
  lemma AddToCartAppends(cart: seq<CartLine>, p: Product)
    requires Absent(cart, p.id)
    ensures AddToCart(cart, p) == cart + [CartLine(p.id, p.name, p.price, 1)]
  {
  }

  /** removeFromCart works line by line, so it distributes over concatenation. */
  lemma {:induction false} RemoveFromCartConcat(a: seq<CartLine>, b: seq<CartLine>, id: int)
    ensures RemoveFromCart(a + b, id) == RemoveFromCart(a, id) + RemoveFromCart(b, id)
  {
    if a == [] {
      assert a + b == b;
    } else {
      assert (a + b)[0] == a[0];
      assert (a + b)[1..] == a[1..] + b;
      RemoveFromCartConcat(a[1..], b, id);
    }
  }

  /** When only line `k` is for the product, removal rewrites that line alone. */
  lemma RemoveFromCartSplit(cart: seq<CartLine>, id: int, k: int)
    requires 0 <= k < |cart|
    requires forall j | 0 <= j < |cart| && j != k :: cart[j].productId != id
    ensures RemoveFromCart(cart, id) == cart[..k] + (RemoveOne(cart[k], id) + cart[k + 1..])
  {
    var before, after := cart[..k], cart[k + 1..];
    assert cart == before + ([cart[k]] + after);
    assert Absent(before, id) by {
      assert forall j | 0 <= j < |before| :: before[j] == cart[j];
    }
    assert Absent(after, id) by {
      assert forall j | 0 <= j < |after| :: after[j] == cart[k + 1 + j];
    }
    RemoveFromCartConcat(before, [cart[k]] + after, id);
    RemoveFromCartConcat([cart[k]], after, id);
    assert RemoveFromCart([cart[k]], id) == RemoveOne(cart[k], id) by {
      assert [cart[k]][1..] == [];
    }
  }

  /** Removing a product whose single line is at `k`: a line with more than
      one unit is decremented in place, otherwise the line is cut out and
      the other lines keep their order. */
  lemma RemoveFromCartAt(cart: seq<CartLine>, id: int, k: int)
    requires 0 <= k < |cart| && cart[k].productId == id
    requires forall j | 0 <= j < |cart| && j != k :: cart[j].productId != id
    ensures cart[k].qty > 1 ==> RemoveFromCart(cart, id) == cart[k := cart[k].(qty := cart[k].qty - 1)]
    ensures cart[k].qty <= 1 ==> RemoveFromCart(cart, id) == cart[..k] + cart[k + 1..]
  {
    RemoveFromCartSplit(cart, id, k);
    if cart[k].qty > 1 {
      var line := cart[k].(qty := cart[k].qty - 1);
      assert cart[..k] + ([line] + cart[k + 1..]) == cart[k := line];
    } else {
      assert RemoveOne(cart[k], id) + cart[k + 1..] == cart[k + 1..];
    }
  }

  /** Adding keeps the cart invariant. */
  lemma AddToCartKeepsValid(cart: seq<CartLine>, p: Product)
    requires ValidCart(cart)
    ensures ValidCart(AddToCart(cart, p))
  {
  }

  /** Removing keeps the cart invariant. */
  lemma RemoveFromCartKeepsValid(cart: seq<CartLine>, id: int)
    requires ValidCart(cart)
    ensures ValidCart(RemoveFromCart(cart, id))
  {
    var i := FindIndex(cart, id);
    if i >= 0 {
      RemoveFromCartAt(cart, id, i);
      if cart[i].qty <= 1 {
        var r := cart[..i] + cart[i + 1..];
        assert forall j | 0 <= j < |r| :: r[j] == cart[if j < i then j else j + 1];
      }
    }
  }

  /** A cart whose lines all hold at least one unit has a subtotal of at
      least the price of any one of its lines, and never a negative one. */
  lemma {:induction false} SubtotalBounds(items: seq<CartLine>)
    requires forall j | 0 <= j < |items| :: items[j].qty >= 1
    ensures Subtotal(items) >= 0
    ensures forall j | 0 <= j < |items| :: Subtotal(items) >= items[j].price
  {
    if items != [] {
      assert forall j | 1 <= j < |items| :: items[1..][j - 1] == items[j];
      SubtotalBounds(items[1..]);
      assert items[0].price * items[0].qty >= items[0].price;
    }
  }

  lemma {:induction false} SubtotalAppend(a: seq<CartLine>, b: seq<CartLine>)
    ensures Subtotal(a + b) == Subtotal(a) + Subtotal(b)
  {
    if a != [] {
      assert (a + b)[0] == a[0];
      assert (a + b)[1..] == a[1..] + b;
      SubtotalAppend(a[1..], b);
    } else {
      assert a + b == b;
    }
  }

  /** Replacing one line changes the subtotal by the difference of the two lines. */
  lemma {:induction false} SubtotalUpdate(items: seq<CartLine>, k: int, line: CartLine)
    requires 0 <= k < |items|
    ensures Subtotal(items[k := line]) == Subtotal(items) - items[k].price * items[k].qty + line.price * line.qty
  {
    if k > 0 {
      assert items[k := line][1..] == items[1..][k - 1 := line];
      SubtotalUpdate(items[1..], k - 1, line);
    }
  }

  /** Cutting one line out lowers the subtotal by that line's amount. */
  lemma SubtotalCut(items: seq<CartLine>, k: int)
    requires 0 <= k < |items|
    ensures Subtotal(items[..k] + items[k + 1..]) == Subtotal(items) - items[k].price * items[k].qty
  {
    assert items == items[..k] + ([items[k]] + items[k + 1..]);
    SubtotalAppend(items[..k], [items[k]] + items[k + 1..]);
    SubtotalAppend(items[..k], items[k + 1..]);
  }

  /** Every line for `p` carries `p`'s price (true of any cart filled from a
      fixed catalogue, since a line copies the price when it is created). */
  predicate PricedAs(cart: seq<CartLine>, p: Product)
  {
    forall j | 0 <= j < |cart| && cart[j].productId == p.id :: cart[j].price == p.price
  }

  /** Adding product `p` raises the subtotal by the unit price of the
      product's line when it has one (the price copied when the line was
      created), otherwise by `p`'s price. */
  lemma AddToCartSubtotal(cart: seq<CartLine>, p: Product)
    ensures var i := FindIndex(cart, p.id);
      Subtotal(AddToCart(cart, p)) == Subtotal(cart) + (if i >= 0 then cart[i].price else p.price)
  {
    var i := FindIndex(cart, p.id);
    if i >= 0 {
      var line := cart[i].(qty := cart[i].qty + 1);
      assert AddToCart(cart, p) == cart[i := line];
      SubtotalUpdate(cart, i, line);
      assert line.price * line.qty == cart[i].price * cart[i].qty + cart[i].price;
    } else {
      assert AddToCart(cart, p) == cart + [NewLine(p)];
      SubtotalAppend(cart, [NewLine(p)]);
      assert [NewLine(p)][1..] == [];
    }
  }

  /** When the product's lines carry its current price, as in a cart filled
      from a fixed catalogue, adding it raises the subtotal by exactly that
      price. */
  lemma AddToCartSubtotalPriced(cart: seq<CartLine>, p: Product)
    requires PricedAs(cart, p)
    ensures Subtotal(AddToCart(cart, p)) == Subtotal(cart) + p.price
  {
    AddToCartSubtotal(cart, p);
  }

  /** Removing a product that is in a valid cart lowers the subtotal by that
      line's unit price; removing an absent product leaves it unchanged. */
  lemma RemoveFromCartSubtotal(cart: seq<CartLine>, id: int)
    requires ValidCart(cart)
    ensures var i := FindIndex(cart, id);
      Subtotal(RemoveFromCart(cart, id)) == Subtotal(cart) - (if i >= 0 then cart[i].price else 0)
  {
    var i := FindIndex(cart, id);
    if i >= 0 {
      RemoveFromCartAt(cart, id, i);
      if cart[i].qty > 1 {
        SubtotalUpdate(cart, i, cart[i].(qty := cart[i].qty - 1));
      } else {
        SubtotalCut(cart, i);
      }
    }
  }
}
