/**
  Orders as carts: order creation (with the line hook), the cart export
  payload, and the import of a user's remote carts.
*/
module SaleOrder {
  import opened Common
  import opened Schema
  import opened Sync
  import opened SaleOrderLine
  import ProductTemplate

  // ------------------------------------------------------------ creation

  /** The values of one `sale.order.create` call; `None` means the key is absent. */
  datatype OrderVals = OrderVals(
    partnerId: nat,
    invoicePartnerId: Option<nat>,
    dummyErpId: Option<int>,
    updateToDummyErp: Option<bool>,
    integrationId: Option<nat>,
    lines: seq<Line>)

  /**
    The order `create` leaves: defaults, then the values; the invoice partner
    defaults to the partner. The flag defaults to true, and every line created
    with the order sets it through the line hook.
  */
  function CreatedOrder(vals: OrderVals): (r: Order)
    ensures r.lines == vals.lines && r.partnerId == vals.partnerId
    ensures r.updateToDummyErp <==> vals.updateToDummyErp.GetOr(true) || |vals.lines| > 0
  {
    Order(vals.partnerId, vals.invoicePartnerId.GetOr(vals.partnerId), vals.lines, vals.integrationId,
          vals.dummyErpId.GetOr(0), vals.updateToDummyErp.GetOr(true) || |vals.lines| > 0)
  }

  /** `sale.order.create`: create the order, then its lines one by one through the line hook. */
  method CreateOrder(store: Store, vals: OrderVals) returns (id: nat)
    requires Valid(store.State())
    requires forall k :: 0 <= k < |vals.lines| ==> vals.lines[k].productId < |store.products|
    modifies store
    ensures Valid(store.State())
    ensures id == |old(store.orders)|
    ensures store.State() == old(store.State()).(orders := old(store.orders) + [CreatedOrder(vals)])
  {
    id := |store.orders|;
    var flag := vals.updateToDummyErp.GetOr(true);
    store.orders := store.orders + [Order(vals.partnerId, vals.invoicePartnerId.GetOr(vals.partnerId), [],
                                          vals.integrationId, vals.dummyErpId.GetOr(0), flag)];
    var i := 0;
    while i < |vals.lines|
      invariant 0 <= i <= |vals.lines|
      invariant Valid(store.State())
      invariant store.State() == old(store.State()).(orders := store.orders)
      invariant store.orders == old(store.orders) + [CreatedOrder(vals).(lines := vals.lines[..i], updateToDummyErp := flag || i > 0)]
    {
      assert vals.lines[..i + 1] == vals.lines[..i] + [vals.lines[i]];
      CreateLine(store, id, vals.lines[i]);
      i := i + 1;
    }
    assert vals.lines[..i] == vals.lines;
  }

  /** An order created with one line and no explicit flag is due for export. */
  lemma NewOrderWithLineIsDirty(partnerId: nat, line: Line)
    ensures CreatedOrder(OrderVals(partnerId, None, Some(0), None, None, [line])).updateToDummyErp
  {
  }

  // ------------------------------------------------------------ export payload

  /** One element of a cart payload's `products`. */
  datatype CartLine = CartLine(id: int, price: real, quantity: real, discountPercentage: real)

  /** A cart payload; `order` is the local order it was built from. */
  datatype CartPayload = CartPayload(order: nat, id: int, userId: int, products: seq<CartLine>)

  predicate LinesResolve(products: seq<Product>, lines: seq<Line>) {
    forall k :: 0 <= k < |lines| ==> lines[k].productId < |products|
  }

  /** Which lines have a product known to the remote side. */
  function Synced(products: seq<Product>, lines: seq<Line>): (flags: seq<bool>)
    requires LinesResolve(products, lines)
    ensures |flags| == |lines|
    ensures forall k :: 0 <= k < |lines| ==> flags[k] == (products[lines[k].productId].dummyErpId != 0)
  {
    seq(|lines|, k requires 0 <= k < |lines| => products[lines[k].productId].dummyErpId != 0)
  }

  function CartLineOf(products: seq<Product>, l: Line): CartLine
    requires l.productId < |products|
  {
    CartLine(products[l.productId].dummyErpId, l.priceUnit, l.quantity, l.discount)
  }

  /**
    The `products` of a cart payload: exactly the lines whose product has a
    remote id, in line order, each carrying that remote id.
  */
  function CartLines(products: seq<Product>, lines: seq<Line>): (r: seq<CartLine>)
    requires LinesResolve(products, lines)
    ensures var kept := Marked(Synced(products, lines));
      |r| == |kept| && forall k :: 0 <= k < |r| ==> r[k] == CartLineOf(products, lines[kept[k]])
    ensures forall k :: 0 <= k < |r| ==> r[k].id != 0
    decreases |lines|
  {
    if lines == [] then []
    else
      var n := |lines| - 1;
      assert Synced(products, lines)[..n] == Synced(products, lines[..n]);
      var l := lines[n];
      CartLines(products, lines[..n]) +
        (if products[l.productId].dummyErpId != 0 then [CartLineOf(products, l)] else [])
  }

  /** A cart of one synced line and one unsynced line exports only the synced one. */
  lemma MixedCartKeepsSyncedLine(products: seq<Product>, synced: Line, local: Line)
    requires synced.productId < |products| && local.productId < |products|
    requires products[synced.productId].dummyErpId != 0 && products[local.productId].dummyErpId == 0
    ensures CartLines(products, [synced, local]) ==
      [CartLine(products[synced.productId].dummyErpId, synced.priceUnit, synced.quantity, synced.discount)]
  {
    assert [synced, local][..1] == [synced];
    assert [synced][..0] == [];
  }

  /** The local ids of the dirty orders, in id order. */
  function DirtyOrders(orders: seq<Order>): (ids: seq<nat>)
    ensures forall i: nat :: i in ids <==> i < |orders| && orders[i].updateToDummyErp
    ensures Increasing(ids)
    ensures forall k :: 0 <= k < |ids| ==> ids[k] < |orders|
  {
    Marked(seq(|orders|, i requires 0 <= i < |orders| => orders[i].updateToDummyErp))
  }

  /**
    `prepare_dummy_erp_payload` for one order: `None` when the order's partner
    has no user (`user_ids[0]` raises).
  */
  function CartPayloadOf(db: DB, o: nat): (r: Option<CartPayload>)
    requires Valid(db) && o < |db.orders|
    ensures r.Some? <==> FirstUserOf(db.users, db.orders[o].partnerId).Some?
    ensures r.Some? ==> r.value.order == o && r.value.id == db.orders[o].dummyErpId
    ensures r.Some? ==> r.value.userId == db.users[FirstUserOf(db.users, db.orders[o].partnerId).value].dummyErpId
    ensures r.Some? ==> r.value.products == CartLines(db.products, db.orders[o].lines)
  {
    var order := db.orders[o];
    match FirstUserOf(db.users, order.partnerId)
    case None => None
    case Some(u) => Some(CartPayload(o, order.dummyErpId, db.users[u].dummyErpId, CartLines(db.products, order.lines)))
  }

  /**
    `get_carts_to_update`: one payload per dirty order, in id order, or `None`
    when some dirty order's partner has no user.
  */
  function CartsToUpdate(db: DB): (r: Option<seq<CartPayload>>)
    requires Valid(db)
    ensures var ids := DirtyOrders(db.orders);
      r.Some? <==> forall k :: 0 <= k < |ids| ==> CartPayloadOf(db, ids[k]).Some?
    ensures var ids := DirtyOrders(db.orders);
      r.Some? ==> |r.value| == |ids| && forall k :: 0 <= k < |ids| ==> Some(r.value[k]) == CartPayloadOf(db, ids[k])
  {
    var ids := DirtyOrders(db.orders);
    if forall k :: 0 <= k < |ids| ==> CartPayloadOf(db, ids[k]).Some? then
      Some(seq(|ids|, k requires 0 <= k < |ids| => CartPayloadOf(db, ids[k]).value))
    else None
  }

  // ------------------------------------------------------------ import

  /** One element of a remote cart's `products`. */
  datatype CartItem = CartItem(id: int, price: real, quantity: real, discountPercentage: real)

  datatype RemoteCart = RemoteCart(id: int, products: seq<CartItem>)

  /** Which items name a product the store knows by remote id. */
  function Resolvable(products: seq<Product>, items: seq<CartItem>): (flags: seq<bool>)
    ensures |flags| == |items|
    ensures forall k :: 0 <= k < |items| ==> flags[k] == ProductTemplate.ProductIdByRemoteId(products, items[k].id).Some?
  {
    seq(|items|, k requires 0 <= k < |items| => ProductTemplate.ProductIdByRemoteId(products, items[k].id).Some?)
  }

  function LineOf(products: seq<Product>, item: CartItem): Line
    requires ProductTemplate.ProductIdByRemoteId(products, item.id).Some?
  {
    Line(ProductTemplate.ProductIdByRemoteId(products, item.id).value, item.quantity, item.price, item.discountPercentage)
  }

  /**
    The lines of an imported cart: exactly the items whose product resolves by
    remote id, in item order, on that product.
  */
  function ResolvedLines(products: seq<Product>, items: seq<CartItem>): (r: seq<Line>)
    ensures var kept := Marked(Resolvable(products, items));
      |r| == |kept| && forall k :: 0 <= k < |r| ==> r[k] == LineOf(products, items[kept[k]])
    ensures LinesResolve(products, r)
    decreases |items|
  {
    if items == [] then []
    else
      var n := |items| - 1;
      assert Resolvable(products, items)[..n] == Resolvable(products, items[..n]);
      var found := ProductTemplate.ProductIdByRemoteId(products, items[n].id);
      ResolvedLines(products, items[..n]) + (if found.Some? then [LineOf(products, items[n])] else [])
  }

  /** The remote-id column of the orders. */
  function OrderIds(orders: seq<Order>): (ids: seq<int>)
    ensures |ids| == |orders| && forall i :: 0 <= i < |orders| ==> ids[i] == orders[i].dummyErpId
  {
    seq(|orders|, i requires 0 <= i < |orders| => orders[i].dummyErpId)
  }

  /**
    The order created for a remote cart that is not known yet: the user's
    partner as customer and invoice partner, the cart's id, bound to the
    integration, with the cart's resolved lines, and dirty exactly when a line
    was created.
  */
  function CartOrder(products: seq<Product>, partnerId: nat, integrationId: nat, cart: RemoteCart): (o: Order)
    ensures o.partnerId == partnerId && o.invoicePartnerId == partnerId
    ensures o.dummyErpId == cart.id && o.integrationId == Some(integrationId)
    ensures o.lines == ResolvedLines(products, cart.products)
    ensures o.updateToDummyErp <==> |o.lines| > 0
  {
    CreatedOrder(OrderVals(partnerId, Some(partnerId), Some(cart.id), Some(false), Some(integrationId),
                           ResolvedLines(products, cart.products)))
  }

  /** One cart of `create_from_dummy_erp_payload`: skip it when an order already has its id. */
  function ImportCartStep(orders: seq<Order>, products: seq<Product>, partnerId: nat, integrationId: nat, cart: RemoteCart)
    : (out: seq<Order>)
    ensures cart.id in OrderIds(orders) ==> out == orders
    ensures cart.id !in OrderIds(orders) ==> out == orders + [CartOrder(products, partnerId, integrationId, cart)]
  {
    if cart.id in OrderIds(orders) then orders
    else orders + [CartOrder(products, partnerId, integrationId, cart)]
  }

  function ImportedCarts(orders: seq<Order>, products: seq<Product>, partnerId: nat, integrationId: nat, carts: seq<RemoteCart>)
    : (out: seq<Order>)
    ensures |orders| <= |out| <= |orders| + |carts| && out[..|orders|] == orders
    decreases |carts|
  {
    if carts == [] then orders
    else
      var n := |carts| - 1;
      var prev := ImportedCarts(orders, products, partnerId, integrationId, carts[..n]);
      assert prev[..|orders|] == orders;
      var out := ImportCartStep(prev, products, partnerId, integrationId, carts[n]);
      assert out[..|prev|] == prev;
      assert out[..|orders|] == prev[..|orders|];
      out
  }

  /** One cart step keeps the ids of the earlier carts known and makes the cart's own id known. */
  lemma CartStepKeys(orders: seq<Order>, products: seq<Product>, partnerId: nat, integrationId: nat, carts: seq<RemoteCart>)
    requires carts != []
    requires forall k :: 0 <= k < |carts| - 1 ==> carts[k].id in OrderIds(orders)
    ensures var out := ImportCartStep(orders, products, partnerId, integrationId, carts[|carts| - 1]);
      forall k :: 0 <= k < |carts| ==> carts[k].id in OrderIds(out)
  {
    var cart := carts[|carts| - 1];
    var out := ImportCartStep(orders, products, partnerId, integrationId, cart);
    if cart.id !in OrderIds(orders) {
      assert OrderIds(out) == OrderIds(orders) + [cart.id];
    }
  }

  /** After a cart import every cart id is the id of some order. */
  lemma {:induction false} ImportedCartsCovers(orders: seq<Order>, products: seq<Product>, partnerId: nat, integrationId: nat,
                                              carts: seq<RemoteCart>)
    ensures var out := ImportedCarts(orders, products, partnerId, integrationId, carts);
      forall k :: 0 <= k < |carts| ==> carts[k].id in OrderIds(out)
    decreases |carts|
  {
    if carts != [] {
      var n := |carts| - 1;
      ImportedCartsCovers(orders, products, partnerId, integrationId, carts[..n]);
      var prev := ImportedCarts(orders, products, partnerId, integrationId, carts[..n]);
      assert forall k :: 0 <= k < n ==> carts[..n][k] == carts[k];
      CartStepKeys(prev, products, partnerId, integrationId, carts);
    }
  }

  /** Every order from index `base` on carries an id that no order before it carries. */
  ghost predicate FreshFrom(orders: seq<Order>, base: nat) {
    forall i, j :: 0 <= i < j < |orders| && base <= j ==> orders[i].dummyErpId != orders[j].dummyErpId
  }

  /** One cart step keeps every created order's id distinct from the ids before it. */
  lemma CartStepFresh(orders: seq<Order>, products: seq<Product>, partnerId: nat, integrationId: nat, cart: RemoteCart, base: nat)
    requires base <= |orders| && FreshFrom(orders, base)
    ensures FreshFrom(ImportCartStep(orders, products, partnerId, integrationId, cart), base)
  {
    if cart.id !in OrderIds(orders) {
      var out := ImportCartStep(orders, products, partnerId, integrationId, cart);
      forall i, j | 0 <= i < j < |out| && base <= j
        ensures out[i].dummyErpId != out[j].dummyErpId
      {
        if j == |orders| {
          assert OrderIds(orders)[i] == orders[i].dummyErpId;
        } else {
          assert out[i] == orders[i] && out[j] == orders[j];
        }
      }
    }
  }

  /**
    An order a cart import creates carries an id that no earlier order, old or
    new, carries: a known cart is skipped, and a cart repeated in the payload
    is created once.
  */
  lemma {:induction false} ImportedCartsFresh(orders: seq<Order>, products: seq<Product>, partnerId: nat, integrationId: nat,
                                             carts: seq<RemoteCart>)
    ensures FreshFrom(ImportedCarts(orders, products, partnerId, integrationId, carts), |orders|)
    decreases |carts|
  {
    if carts != [] {
      var n := |carts| - 1;
      ImportedCartsFresh(orders, products, partnerId, integrationId, carts[..n]);
      var prev := ImportedCarts(orders, products, partnerId, integrationId, carts[..n]);
      CartStepFresh(prev, products, partnerId, integrationId, carts[n], |orders|);
    }
  }

  /**
    The order was created from the first cart of `carts` carrying its id: it
    belongs to the user's partner (also as invoice partner), is bound to the
    integration, has that cart's resolved lines, and is dirty exactly when it
    has a line.
  */
  ghost predicate CreatedFromCart(o: Order, products: seq<Product>, partnerId: nat, integrationId: nat, carts: seq<RemoteCart>) {
    && o.partnerId == partnerId && o.invoicePartnerId == partnerId
    && o.integrationId == Some(integrationId)
    && (o.updateToDummyErp <==> |o.lines| > 0)
    && exists k :: 0 <= k < |carts| && carts[k].id == o.dummyErpId
         && o.lines == ResolvedLines(products, carts[k].products)
         && forall k' :: 0 <= k' < k ==> carts[k'].id != carts[k].id
  }

  lemma CreatedFromCartPrefix(o: Order, products: seq<Product>, partnerId: nat, integrationId: nat, carts: seq<RemoteCart>, n: nat)
    requires n <= |carts| && CreatedFromCart(o, products, partnerId, integrationId, carts[..n])
    ensures CreatedFromCart(o, products, partnerId, integrationId, carts)
  {
    var k :| 0 <= k < n && carts[..n][k].id == o.dummyErpId
      && o.lines == ResolvedLines(products, carts[..n][k].products)
      && forall k' :: 0 <= k' < k ==> carts[..n][k'].id != carts[..n][k].id;
    assert forall k' :: 0 <= k' <= k ==> carts[..n][k'] == carts[k'];
  }

  lemma CreatedFromLastCart(products: seq<Product>, partnerId: nat, integrationId: nat, carts: seq<RemoteCart>)
    requires carts != []
    requires forall k :: 0 <= k < |carts| - 1 ==> carts[k].id != carts[|carts| - 1].id
    ensures CreatedFromCart(CartOrder(products, partnerId, integrationId, carts[|carts| - 1]), products, partnerId, integrationId, carts)
  {
  }

  /** An order a cart import creates carries an id no existing order carries. */
  lemma ImportedCartsNewIdUnknown(orders: seq<Order>, products: seq<Product>, partnerId: nat, integrationId: nat,
                                  carts: seq<RemoteCart>, i: nat)
    requires |orders| <= i < |ImportedCarts(orders, products, partnerId, integrationId, carts)|
    ensures ImportedCarts(orders, products, partnerId, integrationId, carts)[i].dummyErpId !in OrderIds(orders)
  {
    var out := ImportedCarts(orders, products, partnerId, integrationId, carts);
    ImportedCartsFresh(orders, products, partnerId, integrationId, carts);
    forall j | 0 <= j < |orders| ensures OrderIds(orders)[j] != out[i].dummyErpId {
      assert out[..|orders|][j] == orders[j];
    }
  }

  /** An order a cart import creates was created from the first cart carrying its id. */
  lemma {:induction false} ImportedCartsFromCart(orders: seq<Order>, products: seq<Product>, partnerId: nat, integrationId: nat,
                                                carts: seq<RemoteCart>, i: nat)
    requires |orders| <= i < |ImportedCarts(orders, products, partnerId, integrationId, carts)|
    ensures CreatedFromCart(ImportedCarts(orders, products, partnerId, integrationId, carts)[i], products, partnerId, integrationId, carts)
    decreases |carts|
  {
    var n := |carts| - 1;
    var prev := ImportedCarts(orders, products, partnerId, integrationId, carts[..n]);
    if i < |prev| {
      ImportedCartsFromCart(orders, products, partnerId, integrationId, carts[..n], i);
      CreatedFromCartPrefix(prev[i], products, partnerId, integrationId, carts, n);
    } else {
      ImportedCartsCovers(orders, products, partnerId, integrationId, carts[..n]);
      assert forall k :: 0 <= k < n ==> carts[..n][k] == carts[k];
      CreatedFromLastCart(products, partnerId, integrationId, carts);
    }
  }

  /**
    Each order a cart import creates carries an id no existing order carries,
    and was created from the first cart carrying that id.
  */
  lemma ImportedCartsNewOrders(orders: seq<Order>, products: seq<Product>, partnerId: nat, integrationId: nat,
                               carts: seq<RemoteCart>, i: nat)
    requires |orders| <= i < |ImportedCarts(orders, products, partnerId, integrationId, carts)|
    ensures var o := ImportedCarts(orders, products, partnerId, integrationId, carts)[i];
      o.dummyErpId !in OrderIds(orders) && CreatedFromCart(o, products, partnerId, integrationId, carts)
  {
    ImportedCartsNewIdUnknown(orders, products, partnerId, integrationId, carts, i);
    ImportedCartsFromCart(orders, products, partnerId, integrationId, carts, i);
  }

  /** Every cart whose id no existing order carries gets a created order. */
  lemma ImportedCartsCreatesUnknown(orders: seq<Order>, products: seq<Product>, partnerId: nat, integrationId: nat,
                                    carts: seq<RemoteCart>)
    ensures var out := ImportedCarts(orders, products, partnerId, integrationId, carts);
      forall k :: 0 <= k < |carts| && carts[k].id !in OrderIds(orders) ==>
        exists i :: |orders| <= i < |out| && out[i].dummyErpId == carts[k].id
  {
    var out := ImportedCarts(orders, products, partnerId, integrationId, carts);
    ImportedCartsCovers(orders, products, partnerId, integrationId, carts);
    forall k | 0 <= k < |carts| && carts[k].id !in OrderIds(orders)
      ensures exists i :: |orders| <= i < |out| && out[i].dummyErpId == carts[k].id
    {
      var ids := OrderIds(out);
      var i :| 0 <= i < |ids| && ids[i] == carts[k].id;
      assert |orders| <= i;
    }
  }

  /** Importing the same carts a second time creates no order. */
  lemma {:induction false} ImportedCartsKnown(orders: seq<Order>, products: seq<Product>, partnerId: nat, integrationId: nat,
                                             carts: seq<RemoteCart>)
    requires forall k :: 0 <= k < |carts| ==> carts[k].id in OrderIds(orders)
    ensures ImportedCarts(orders, products, partnerId, integrationId, carts) == orders
    decreases |carts|
  {
    if carts != [] {
      var n := |carts| - 1;
      assert forall k :: 0 <= k < n ==> carts[..n][k] == carts[k];
      ImportedCartsKnown(orders, products, partnerId, integrationId, carts[..n]);
    }
  }

  lemma ImportedCartsTwice(orders: seq<Order>, products: seq<Product>, partnerId: nat, integrationId: nat, carts: seq<RemoteCart>)
    ensures var once := ImportedCarts(orders, products, partnerId, integrationId, carts);
      ImportedCarts(once, products, partnerId, integrationId, carts) == once
  {
    ImportedCartsCovers(orders, products, partnerId, integrationId, carts);
    ImportedCartsKnown(ImportedCarts(orders, products, partnerId, integrationId, carts), products, partnerId, integrationId, carts);
  }

  lemma ImportedCartsSnoc(orders: seq<Order>, products: seq<Product>, partnerId: nat, integrationId: nat,
                          carts: seq<RemoteCart>, i: nat)
    requires i < |carts|
    ensures ImportedCarts(orders, products, partnerId, integrationId, carts[..i + 1]) ==
      ImportCartStep(ImportedCarts(orders, products, partnerId, integrationId, carts[..i]), products, partnerId, integrationId, carts[i])
  {
    assert carts[..i + 1][..i] == carts[..i];
  }

  /** One cart of `create_from_dummy_erp_payload`: skipped when its id is known, created otherwise. */
  method ImportCart(store: Store, partnerId: nat, integrationId: nat, cart: RemoteCart)
    requires Valid(store.State())
    modifies store
    ensures Valid(store.State())
    ensures store.State() == old(store.State()).(orders :=
      ImportCartStep(old(store.orders), old(store.products), partnerId, integrationId, cart))
  {
    var existing := FirstIndex(OrderIds(store.orders), cart.id);
    if existing.None? {
      var lines := ResolvedLines(store.products, cart.products);
      var _ := CreateOrder(store, OrderVals(partnerId, Some(partnerId), Some(cart.id), Some(false),
                                            Some(integrationId), lines));
    }
  }

  /** `create_from_dummy_erp_payload(user, integration, carts)` as a store operation. */
  method CreateFromPayload(store: Store, user: nat, integrationId: nat, carts: seq<RemoteCart>)
    requires Valid(store.State()) && user < |store.users|
    modifies store
    ensures Valid(store.State())
    ensures store.State() == old(store.State()).(orders :=
      ImportedCarts(old(store.orders), old(store.products), old(store.users)[user].partnerId, integrationId, carts))
  {
    var partnerId := store.users[user].partnerId;
    var i := 0;
    while i < |carts|
      invariant 0 <= i <= |carts|
      invariant Valid(store.State())
      invariant store.State() == old(store.State()).(orders := store.orders)
      invariant store.orders == ImportedCarts(old(store.orders), old(store.products), partnerId, integrationId, carts[..i])
    {
      ImportedCartsSnoc(old(store.orders), old(store.products), partnerId, integrationId, carts, i);
      ImportCart(store, partnerId, integrationId, carts[i]);
      i := i + 1;
    }
    assert carts[..i] == carts;
  }
}
