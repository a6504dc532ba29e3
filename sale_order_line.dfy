/**
  The order-line hooks: editing a line's commercial fields, or adding a line,
  marks the parent order as needing export.
*/
module SaleOrderLine {
  import opened Common
  import opened Schema

  /** The values of one line `write`; `otherFields` names any further keys, which the model does not store. */
  datatype LineVals = LineVals(
    productId: Option<nat>,
    quantity: Option<real>,
    priceUnit: Option<real>,
    discount: Option<real>,
    otherFields: set<string>)

  function LineFieldNames(v: LineVals): set<string> {
    (if v.productId.Some? then {"product_id"} else {}) +
    (if v.quantity.Some? then {"product_uom_qty"} else {}) +
    (if v.priceUnit.Some? then {"price_unit"} else {}) +
    (if v.discount.Some? then {"discount"} else {}) +
    v.otherFields
  }

  const WatchedLineFields: set<string> := {"product_uom_qty", "price_unit", "product_id", "discount"}

  /** The plain ORM write of a line: every present key overwrites its field, any other field is kept. */
  function ApplyLine(l: Line, v: LineVals): (r: Line)
    ensures v.productId.Some? ==> r.productId == v.productId.value
    ensures v.quantity.Some? ==> r.quantity == v.quantity.value
    ensures v.priceUnit.Some? ==> r.priceUnit == v.priceUnit.value
    ensures v.discount.Some? ==> r.discount == v.discount.value
    ensures LineFieldNames(v) * WatchedLineFields == {} ==> r == l
  {
    Line(v.productId.GetOr(l.productId), v.quantity.GetOr(l.quantity),
         v.priceUnit.GetOr(l.priceUnit), v.discount.GetOr(l.discount))
  }

  /** The order's partner has a first user, and that user is known to the remote side. */
  predicate HasRemoteUser(users: seq<User>, partnerId: nat) {
    var u := FirstUserOf(users, partnerId);
    u.Some? && users[u.value].dummyErpId != 0
  }

  /** Whether a line write marks its order. */
  predicate LineTracked(users: seq<User>, order: Order, vals: LineVals, suppress: bool) {
    LineFieldNames(vals) * WatchedLineFields != {} && !suppress && HasRemoteUser(users, order.partnerId)
  }

  /**
    The order after line `l` of it is written: the line takes the new values,
    and the order's flag is raised when the write is tracked; otherwise the
    flag is kept. Nothing else of the order changes.
  */
  function OrderAfterLineWrite(users: seq<User>, order: Order, l: nat, vals: LineVals, suppress: bool): (r: Order)
    requires l < |order.lines|
    ensures r.lines == order.lines[l := ApplyLine(order.lines[l], vals)]
    ensures r.updateToDummyErp <==> order.updateToDummyErp || LineTracked(users, order, vals, suppress)
    ensures r.(lines := order.lines, updateToDummyErp := order.updateToDummyErp) == order
  {
    var o := order.(lines := order.lines[l := ApplyLine(order.lines[l], vals)]);
    if LineTracked(users, order, vals, suppress) then o.(updateToDummyErp := true) else o
  }

  /** A line write never clears the flag, and leaves it alone when no partner user is known remotely. */
  lemma LineWriteOnlySets(users: seq<User>, order: Order, l: nat, vals: LineVals, suppress: bool)
    requires l < |order.lines|
    ensures order.updateToDummyErp ==> OrderAfterLineWrite(users, order, l, vals, suppress).updateToDummyErp
    ensures FirstUserOf(users, order.partnerId).None? || suppress || LineFieldNames(vals) * WatchedLineFields == {} ==>
      OrderAfterLineWrite(users, order, l, vals, suppress).updateToDummyErp == order.updateToDummyErp
  {
  }

  /** A write that only touches unwatched keys leaves the order's flag alone. */
  lemma UnwatchedLineWrite(users: seq<User>, order: Order, l: nat, other: set<string>, suppress: bool)
    requires l < |order.lines| && other * WatchedLineFields == {}
    ensures OrderAfterLineWrite(users, order, l, LineVals(None, None, None, None, other), suppress).updateToDummyErp
      == order.updateToDummyErp
  {
    assert LineFieldNames(LineVals(None, None, None, None, other)) == other;
  }

  /** `sale.order.line.write` on line `l` of order `o`. */
  method WriteLine(store: Store, o: nat, l: nat, vals: LineVals, suppress: bool)
    requires Valid(store.State()) && o < |store.orders| && l < |store.orders[o].lines|
    requires vals.productId.Some? ==> vals.productId.value < |store.products|
    modifies store
    ensures Valid(store.State())
    ensures store.State() == old(store.State()).(orders :=
      old(store.orders)[o := OrderAfterLineWrite(old(store.users), old(store.orders)[o], l, vals, suppress)])
  {
    var updatedFields := LineFieldNames(vals) * WatchedLineFields;
    var order := store.orders[o];
    order := order.(lines := order.lines[l := ApplyLine(order.lines[l], vals)]);
    var user := FirstUserOf(store.users, order.partnerId);
    if |updatedFields| > 0 && !suppress && user.Some? && store.users[user.value].dummyErpId != 0 {
      order := order.(updateToDummyErp := true);
    }
    store.orders := store.orders[o := order];
  }

  /** `sale.order.line.create`: append the line and mark the order, unconditionally. */
  method CreateLine(store: Store, o: nat, line: Line)
    requires Valid(store.State()) && o < |store.orders| && line.productId < |store.products|
    modifies store
    ensures Valid(store.State())
    ensures store.State() == old(store.State()).(orders :=
      old(store.orders)[o := old(store.orders)[o].(lines := old(store.orders)[o].lines + [line], updateToDummyErp := true)])
  {
    var order := store.orders[o];
    store.orders := store.orders[o := order.(lines := order.lines + [line])];
    store.orders := store.orders[o := store.orders[o].(updateToDummyErp := true)];
  }
}
