/** The order handlers of routes/orderRoutes.js. Placing an order builds a new
    order document with its total frozen at the current price; every later
    handler either reads an order or overwrites one field of it with
    `findByIdAndUpdate`. The orders are kept in the collection's natural
    (insertion) order. */
module OrderRoutes {
  import opened Common
  import opened Catalog

  type OrderId = string

  /** Timestamps are opaque values handed in by the caller. */
  type Time = int

  /** An order line item (models/order.js). */
  datatype OrderItem = OrderItem(product: ProductId, quantity: int, name: string)

  /** The shipping address: five optional strings, absent when the request
      body leaves them out. */
  datatype Address = Address(street: Option<string>, city: Option<string>, state: Option<string>,
                             pincode: Option<string>, country: Option<string>)

  /** An order document (models/order.js). */
  datatype Order = Order(id: OrderId, user: UserId, items: seq<OrderItem>, shippingAddress: Address,
                         paymentMethod: Option<string>, paymentStatus: string, orderStatus: string,
                         totalAmount: int, placedAt: Time, createdAt: Time)

  /** The schema's default `orderStatus`. */
  const Processing: string := "Processing"
  /** The schema's default `paymentStatus`. */
  const Pending: string := "Pending"
  /** The status the cancel handler writes. */
  const Cancelled: string := "Cancelled"

  /** The collection after a handler has run, and the handler's answer. */
  datatype OrderStep = OrderStep(orders: seq<Order>, result: Outcome<Order>)

  /** No two orders share an id. */
  ghost predicate DistinctIds(orders: seq<Order>)
  {
    forall i, j :: 0 <= i < j < |orders| ==> orders[i].id != orders[j].id
  }

  /** The order document the place-order handler saves: one line for the
      requested product, the total at today's price, and the schema
      defaults. */
  function NewOrder(id: OrderId, user: UserId, p: Product, product: string, quantity: Option<int>,
                    address: Address, paymentMethod: Option<string>, now: Time): (o: Order)
    ensures |o.items| == 1 && o.items[0].name == product && o.items[0].product == p.id
    ensures o.items[0].quantity == DefaultQuantity(quantity)
    ensures o.totalAmount == p.price * o.items[0].quantity
    ensures o.orderStatus == Processing && o.paymentStatus == Pending
    ensures o.shippingAddress == address && o.paymentMethod == paymentMethod
    ensures o.id == id && o.user == user && o.placedAt == now && o.createdAt == now
  {
    var q := DefaultQuantity(quantity);
    Order(id, user, [OrderItem(p.id, q, product)], address, paymentMethod, Pending, Processing,
          p.price * q, now, now)
  }

  /** `Order.findById(id)`: the position of the order with that id. */
  function FindOrder(orders: seq<Order>, id: OrderId): (r: Option<nat>)
    ensures r.Some? ==> r.value < |orders| && orders[r.value].id == id
    ensures r.Some? ==> forall j :: 0 <= j < r.value ==> orders[j].id != id
    ensures r.None? ==> forall j :: 0 <= j < |orders| ==> orders[j].id != id
  {
    FirstIndex(orders, (o: Order) => o.id == id)
  }

  // ---------------------------------------------------------------------
  // The handlers, as functions of the order collection

  /** POST /: place an order for the product named `product`. An unknown
      name makes the handler throw before its not-found check, so the
      answer is Error. `id` is the fresh id the store gives the new order. */
  function PlaceOrder(orders: seq<Order>, catalog: seq<Product>, id: OrderId, user: UserId,
                      product: string, quantity: Option<int>, address: Address,
                      paymentMethod: Option<string>, now: Time): (s: OrderStep)
    ensures s.result.Error? <==> FindByName(catalog, product).None?
    ensures s.result.Ok? || s.result.Error?
    ensures s.result.Error? ==> s.orders == orders
    ensures s.result.Ok? ==> s.orders == orders + [s.result.value]
  {
    match FindByName(catalog, product)
    case None => OrderStep(orders, Error)
    case Some(p) =>
      var o := NewOrder(id, user, p, product, quantity, address, paymentMethod, now);
      OrderStep(orders + [o], Ok(o))
  }

  /** GET / (admin): every order, or "No orders yet". */
  function ListAll(orders: seq<Order>): (r: Outcome<seq<Order>>)
    ensures r.Ok? <==> orders != []
    ensures r.Ok? ==> r.value == orders
    ensures !r.Ok? ==> r == NotFound(NoOrders)
  {
    if |orders| == 0 then NotFound(NoOrders) else Ok(orders)
  }

  /** GET /:orderId */
  function GetOrder(orders: seq<Order>, id: OrderId): (r: Outcome<Order>)
    ensures r.Ok? <==> exists j :: 0 <= j < |orders| && orders[j].id == id
    ensures r.Ok? ==> r.value in orders && r.value.id == id
    ensures !r.Ok? ==> r == NotFound(NoOrder)
  {
    match FindOrder(orders, id)
    case Some(i) => Ok(orders[i])
    case None => NotFound(NoOrder)
  }

  /** `Order.findByIdAndUpdate(id, change, { new: true })`: apply `change` to
      the order with that id and answer with the updated order. */
  function UpdateById(orders: seq<Order>, id: OrderId, change: Order -> Order): (s: OrderStep)
    ensures s.result.Ok? <==> exists j :: 0 <= j < |orders| && orders[j].id == id
    ensures !s.result.Ok? ==> s == OrderStep(orders, NotFound(NoOrder))
    ensures |s.orders| == |orders|
    ensures forall j :: 0 <= j < |orders| && orders[j].id != id ==> s.orders[j] == orders[j]
  {
    match FindOrder(orders, id)
    case None => OrderStep(orders, NotFound(NoOrder))
    case Some(i) =>
      var o := change(orders[i]);
      OrderStep(orders[i := o], Ok(o))
  }

  /** PUT /:orderId/status (admin): any status value is written as it is. */
  function UpdateStatus(orders: seq<Order>, id: OrderId, status: string): (s: OrderStep)
    ensures s.result.Ok? <==> GetOrder(orders, id).Ok?
    ensures s.result.Ok? ==> s.result.value == GetOrder(orders, id).value.(orderStatus := status)
    ensures !s.result.Ok? ==> s == OrderStep(orders, NotFound(NoOrder))
  {
    UpdateById(orders, id, (o: Order) => o.(orderStatus := status))
  }

  /** PUT /:orderId: cancel from whatever status the order is in. */
  function CancelOrder(orders: seq<Order>, id: OrderId): (s: OrderStep)
    ensures s.result.Ok? <==> GetOrder(orders, id).Ok?
    ensures s.result.Ok? ==> s.result.value == GetOrder(orders, id).value.(orderStatus := Cancelled)
    ensures !s.result.Ok? ==> s == OrderStep(orders, NotFound(NoOrder))
  {
    UpdateById(orders, id, (o: Order) => o.(orderStatus := Cancelled))
  }

  /** PUT /:orderId/address: replace the whole address. */
  function UpdateAddress(orders: seq<Order>, id: OrderId, address: Address): (s: OrderStep)
    ensures s.result.Ok? <==> GetOrder(orders, id).Ok?
    ensures s.result.Ok? ==> s.result.value == GetOrder(orders, id).value.(shippingAddress := address)
    ensures !s.result.Ok? ==> s == OrderStep(orders, NotFound(NoOrder))
  {
    UpdateById(orders, id, (o: Order) => o.(shippingAddress := address))
  }

  /** GET /:orderId/track: the stored status. */
  function Track(orders: seq<Order>, id: OrderId): (r: Outcome<string>)
    ensures r.Ok? <==> GetOrder(orders, id).Ok?
    ensures r.Ok? ==> r.value == GetOrder(orders, id).value.orderStatus
    ensures !r.Ok? ==> r == NotFound(NoOrder)
  {
    match GetOrder(orders, id)
    case Ok(o) => Ok(o.orderStatus)
    case _ => NotFound(NoOrder)
  }

  // ---------------------------------------------------------------------
  // Properties of the handlers

  /** Every id-based handler answers "order not found" for an unknown id and
      changes nothing. */
  lemma UnknownOrderChangesNothing(orders: seq<Order>, id: OrderId, status: string, address: Address)
    requires forall j :: 0 <= j < |orders| ==> orders[j].id != id
    ensures GetOrder(orders, id) == NotFound(NoOrder)
    ensures Track(orders, id) == NotFound(NoOrder)
    ensures UpdateStatus(orders, id, status) == OrderStep(orders, NotFound(NoOrder))
    ensures CancelOrder(orders, id) == OrderStep(orders, NotFound(NoOrder))
    ensures UpdateAddress(orders, id, address) == OrderStep(orders, NotFound(NoOrder))
  {
  }

  /** An update that keeps ids finds the same order again afterwards. */
  lemma FindOrderAfterUpdate(orders: seq<Order>, id: OrderId, i: nat, o: Order)
    requires FindOrder(orders, id) == Some(i)
    requires o.id == orders[i].id
    ensures FindOrder(orders[i := o], id) == Some(i)
  {
    var updated := orders[i := o];
    assert updated[i].id == id;
    forall j | 0 <= j < i
      ensures updated[j].id != id
    {
      assert updated[j] == orders[j];
    }
  }

  /** A successful `findByIdAndUpdate` rewrites exactly the found order, at
      its place, and answers with the new version. */
  lemma UpdateByIdRewritesOneOrder(orders: seq<Order>, id: OrderId, change: Order -> Order)
    requires exists j :: 0 <= j < |orders| && orders[j].id == id
    ensures var s := UpdateById(orders, id, change);
      && s.result.Ok?
      && |s.orders| == |orders|
      && (exists i :: 0 <= i < |orders| && orders[i].id == id
                      && s.result.value == change(orders[i])
                      && s.orders == orders[i := s.result.value])
  {
    var i := FindOrder(orders, id).value;
    assert orders[i].id == id;
  }

  /** The status update writes the given status, whatever it is, and changes
      no other field. */
  lemma UpdateStatusOverwrites(orders: seq<Order>, id: OrderId, status: string, i: nat)
    requires FindOrder(orders, id) == Some(i)
    ensures var s := UpdateStatus(orders, id, status);
      && s.result == Ok(orders[i].(orderStatus := status))
      && s.orders == orders[i := s.result.value]
      && Track(s.orders, id) == Ok(status)
  {
    FindOrderAfterUpdate(orders, id, i, orders[i].(orderStatus := status));
  }

  /** Cancel succeeds from every status, "Delivered" included, and changes
      no field but the status. */
  lemma CancelFromAnyStatus(orders: seq<Order>, id: OrderId, i: nat)
    requires FindOrder(orders, id) == Some(i)
    ensures var s := CancelOrder(orders, id);
      && s.result == Ok(orders[i].(orderStatus := Cancelled))
      && s.orders == orders[i := s.result.value]
      && Track(s.orders, id) == Ok(Cancelled)
  {
    FindOrderAfterUpdate(orders, id, i, orders[i].(orderStatus := Cancelled));
  }

  /** Cancelling twice leaves the orders as cancelling once does. */
  lemma CancelIsIdempotent(orders: seq<Order>, id: OrderId)
    ensures var once := CancelOrder(orders, id);
      CancelOrder(once.orders, id).orders == once.orders
  {
    match FindOrder(orders, id)
    case Some(i) =>
      var o := orders[i].(orderStatus := Cancelled);
      FindOrderAfterUpdate(orders, id, i, o);
      assert orders[i := o][i := o.(orderStatus := Cancelled)] == orders[i := o];
    case None =>
  }

  /** The address update replaces the address as a whole (fields the request
      leaves out become absent) and keeps status, items and total. */
  lemma UpdateAddressReplaces(orders: seq<Order>, id: OrderId, address: Address, i: nat)
    requires FindOrder(orders, id) == Some(i)
    ensures var s := UpdateAddress(orders, id, address);
      && s.result.Ok?
      && s.result.value.shippingAddress == address
      && s.result.value == orders[i].(shippingAddress := address)
      && s.orders == orders[i := s.result.value]
      && GetOrder(s.orders, id) == s.result
  {
    FindOrderAfterUpdate(orders, id, i, orders[i].(shippingAddress := address));
  }

  /** A newly placed order can be fetched, tracks as "Processing" and makes
      the list of all orders non-empty. */
  lemma PlacedOrderIsFound(orders: seq<Order>, catalog: seq<Product>, id: OrderId, user: UserId,
                           product: string, quantity: Option<int>, address: Address,
                           paymentMethod: Option<string>, now: Time)
    requires forall j :: 0 <= j < |orders| ==> orders[j].id != id
    requires FindByName(catalog, product).Some?
    ensures var s := PlaceOrder(orders, catalog, id, user, product, quantity, address, paymentMethod, now);
      && GetOrder(s.orders, id) == s.result
      && Track(s.orders, id) == Ok(Processing)
      && ListAll(s.orders).Ok?
  {
    var s := PlaceOrder(orders, catalog, id, user, product, quantity, address, paymentMethod, now);
    var r := FindOrder(s.orders, id);
    assert s.orders[|orders|].id == id;
    assert r == Some(|orders|);
  }

  /** Placing an order under a fresh id keeps ids distinct; the updates
      never change an id. */
  lemma HandlersKeepIdsDistinct(orders: seq<Order>, catalog: seq<Product>, id: OrderId, user: UserId,
                                product: string, quantity: Option<int>, address: Address,
                                paymentMethod: Option<string>, now: Time, target: OrderId, status: string)
    requires DistinctIds(orders)
    requires forall j :: 0 <= j < |orders| ==> orders[j].id != id
    ensures DistinctIds(PlaceOrder(orders, catalog, id, user, product, quantity, address, paymentMethod, now).orders)
    ensures DistinctIds(UpdateStatus(orders, target, status).orders)
    ensures DistinctIds(CancelOrder(orders, target).orders)
    ensures DistinctIds(UpdateAddress(orders, target, address).orders)
  {
  }

  // ---------------------------------------------------------------------
  // The handlers as in-place edits of a stored collection

  class OrderStore {
    var orders: seq<Order>

    constructor()
      ensures orders == []
    {
      orders := [];
    }

    /** POST / */
    method Place(catalog: seq<Product>, id: OrderId, user: UserId, product: string,
                 quantity: Option<int>, address: Address, paymentMethod: Option<string>, now: Time)
      returns (r: Outcome<Order>)
      modifies this
      ensures OrderStep(orders, r) ==
              PlaceOrder(old(orders), catalog, id, user, product, quantity, address, paymentMethod, now)
    {
      var found := FindByName(catalog, product);
      if found.None? {
        // the handler reads `_id` of a null product and throws
        return Error;
      }
      var created := NewOrder(id, user, found.value, product, quantity, address, paymentMethod, now);
      orders := orders + [created];
      r := Ok(created);
    }

    /** GET / (admin) */
    method All() returns (r: Outcome<seq<Order>>)
      ensures r == ListAll(orders)
    {
      if |orders| == 0 {
        return NotFound(NoOrders);
      }
      r := Ok(orders);
    }

    /** GET /:orderId */
    method Get(id: OrderId) returns (r: Outcome<Order>)
      ensures r == GetOrder(orders, id)
    {
      var index := FindOrder(orders, id);
      if index.None? {
        return NotFound(NoOrder);
      }
      r := Ok(orders[index.value]);
    }

    /** PUT /:orderId/status (admin) */
    method SetStatus(id: OrderId, status: string) returns (r: Outcome<Order>)
      modifies this
      ensures OrderStep(orders, r) == UpdateStatus(old(orders), id, status)
    {
      var index := FindOrder(orders, id);
      if index.None? {
        return NotFound(NoOrder);
      }
      var i := index.value;
      var updated := orders[i].(orderStatus := status);
      orders := orders[i := updated];
      r := Ok(updated);
    }

    /** PUT /:orderId */
    method Cancel(id: OrderId) returns (r: Outcome<Order>)
      modifies this
      ensures OrderStep(orders, r) == CancelOrder(old(orders), id)
    {
      var index := FindOrder(orders, id);
      if index.None? {
        return NotFound(NoOrder);
      }
      var i := index.value;
      var updated := orders[i].(orderStatus := Cancelled);
      orders := orders[i := updated];
      r := Ok(updated);
    }

    /** PUT /:orderId/address */
    method SetAddress(id: OrderId, address: Address) returns (r: Outcome<Order>)
      modifies this
      ensures OrderStep(orders, r) == UpdateAddress(old(orders), id, address)
    {
      var index := FindOrder(orders, id);
      if index.None? {
        return NotFound(NoOrder);
      }
      var i := index.value;
      var updated := orders[i].(shippingAddress := address);
      orders := orders[i := updated];
      r := Ok(updated);
    }

    /** GET /:orderId/track */
    method TrackStatus(id: OrderId) returns (r: Outcome<string>)
      ensures r == Track(orders, id)
    {
      var index := FindOrder(orders, id);
      if index.None? {
        return NotFound(NoOrder);
      }
      r := Ok(orders[index.value].orderStatus);
    }
  }
}
