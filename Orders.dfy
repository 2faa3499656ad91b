/** The order service (OrderService/Services/OrderService.cs): guarded changes to
    the order repository, and an "order created" event handed to the message
    bus after every successful add.

    The repository is a map from id to order and the message bus an append-only
    outbox of events. The pure functions `Add`, `Update` and `Delete` state what
    one call does to that pair; the class `OrderService` performs the calls step
    by step and is proved against them. */
module Orders {
  import opened Shared

  /** An order as the service reads it; a null `Product` is `None`. */
  datatype Order = Order(id: int32, product: Option<string>, quantity: int32, userId: int32)

  const InvalidOrderData: string := "Order data is invalid"
  const InvalidOrderId: string := "Invalid order ID"
  const OrderNotFound: string := "Order not found"

  /** The content checks that adding and updating share; none of them reads the id. */
  predicate HasValidContent(o: Order) {
    !IsNullOrWhiteSpace(o.product) && o.quantity > 0 && o.userId > 0
  }

  /** What `AddOrderAsync` accepts: a non-null order with valid content, whatever its id. */
  predicate IsValidNewOrder(order: Option<Order>) {
    order.Some? && HasValidContent(order.value)
  }

  /** What `UpdateOrderAsync` accepts before it looks the order up: also a non-zero id. */
  predicate IsValidOrderUpdate(order: Option<Order>) {
    order.Some? && order.value.id != 0 && HasValidContent(order.value)
  }

  /** The event published for a newly added order: its four fields, copied. */
  function EventOf(o: Order): (e: Event)
    ensures e.id == o.id && e.product == o.product && e.quantity == o.quantity && e.userId == o.userId
    ensures IsValidEvent(e) <==> HasValidContent(o)
  {
    Event(o.id, o.product, o.quantity, o.userId)
  }

  /** What the service acts on: the repository's orders by id, and the events
      handed to the message bus so far, oldest first. */
  datatype Store = Store(orders: map<int32, Order>, outbox: seq<Event>)

  /** The shape every store the service produces keeps: each order is filed
      under its own id and passed validation, and so did every published event. */
  ghost predicate Consistent(s: Store) {
    && (forall id | id in s.orders :: s.orders[id].id == id && HasValidContent(s.orders[id]))
    && (forall i | 0 <= i < |s.outbox| :: IsValidEvent(s.outbox[i]))
  }

  /** `GetAllOrdersAsync`: every stored order, and nothing else. */
  function GetAllOrders(s: Store): (all: set<Order>)
    ensures forall id | id in s.orders :: s.orders[id] in all
    ensures forall o | o in all :: exists id | id in s.orders :: s.orders[id] == o
  {
    s.orders.Values
  }

  /** `GetOrderByIdAsync`: the stored order, or null exactly when the id is absent. */
  function GetOrderById(s: Store, id: int32): (r: Option<Order>)
    ensures r.Some? <==> id in s.orders
    ensures r.Some? ==> r.value == s.orders[id]
  {
    if id in s.orders then Some(s.orders[id]) else None
  }

  /** `OrderExistsAsync`: the lookup did not return null. */
  predicate OrderExists(s: Store, id: int32)
    ensures OrderExists(s, id) <==> id in s.orders
  {
    GetOrderById(s, id).Some?
  }

  /** `AddOrderAsync`: reject an invalid order with `ArgumentException` and change
      nothing; otherwise store it, then publish one event that mirrors it. */
  function Add(s: Store, order: Option<Order>): (r: Step<Store>)
    ensures r.completion.Completed? <==> IsValidNewOrder(order)
    ensures !IsValidNewOrder(order) ==> r == Step(Threw(ArgumentException(InvalidOrderData)), s)
    ensures IsValidNewOrder(order) ==>
      r.after == Store(s.orders[order.value.id := order.value], s.outbox + [EventOf(order.value)])
  {
    if !IsValidNewOrder(order) then
      Step(Threw(ArgumentException(InvalidOrderData)), s)
    else
      var o := order.value;
      Step(Completed, Store(s.orders[o.id := o], s.outbox + [EventOf(o)]))
  }

  /** `UpdateOrderAsync`: validation (including the zero id) first, then the
      existence check, and only then the repository; nothing is published. */
  function Update(s: Store, order: Option<Order>): (r: Step<Store>)
    ensures r.completion == Threw(ArgumentException(InvalidOrderData)) <==> !IsValidOrderUpdate(order)
    ensures r.completion == Threw(KeyNotFoundException(OrderNotFound))
      <==> IsValidOrderUpdate(order) && order.value.id !in s.orders
    ensures r.completion.Completed? <==> IsValidOrderUpdate(order) && order.value.id in s.orders
    ensures r.completion.Threw? ==> r.after == s
    ensures r.completion.Completed? ==>
      r.after == Store(s.orders[order.value.id := order.value], s.outbox)
  {
    if !IsValidOrderUpdate(order) then
      Step(Threw(ArgumentException(InvalidOrderData)), s)
    else if !OrderExists(s, order.value.id) then
      Step(Threw(KeyNotFoundException(OrderNotFound)), s)
    else
      Step(Completed, Store(s.orders[order.value.id := order.value], s.outbox))
  }

  /** `DeleteOrderAsync`: a zero id is an `ArgumentException`, an absent id a
      `KeyNotFoundException`; otherwise exactly that id is removed. */
  function Delete(s: Store, id: int32): (r: Step<Store>)
    ensures r.completion == Threw(ArgumentException(InvalidOrderId)) <==> id == 0
    ensures r.completion == Threw(KeyNotFoundException(OrderNotFound)) <==> id != 0 && id !in s.orders
    ensures r.completion.Completed? <==> id != 0 && id in s.orders
    ensures r.completion.Threw? ==> r.after == s
    ensures r.completion.Completed? ==>
      && r.after.orders.Keys == s.orders.Keys - {id}
      && (forall k | k in r.after.orders :: r.after.orders[k] == s.orders[k])
      && r.after.outbox == s.outbox
  {
    if id == 0 then
      Step(Threw(ArgumentException(InvalidOrderId)), s)
    else if !OrderExists(s, id) then
      Step(Threw(KeyNotFoundException(OrderNotFound)), s)
    else
      Step(Completed, Store(s.orders - {id}, s.outbox))
  }

  /** Whether an order may be added does not depend on its id. */
  lemma AddIgnoresId(s: Store, o: Order, id: int32)
    ensures Add(s, Some(o)).completion == Add(s, Some(o.(id := id))).completion
  {
  }

  /** An invalid update is refused before the store is consulted: the same
      `ArgumentException` whatever the store holds, even for an absent id. */
  lemma InvalidUpdateIgnoresStore(s1: Store, s2: Store, order: Option<Order>)
    requires !IsValidOrderUpdate(order)
    ensures Update(s1, order).completion == Update(s2, order).completion
    ensures Update(s1, order).completion.Threw? && Update(s1, order).completion.fault.ArgumentException?
  {
  }

  /** Only adding publishes: updates and deletes leave the outbox as it was. */
  lemma OnlyAddPublishes(s: Store, order: Option<Order>, id: int32)
    ensures Update(s, order).after.outbox == s.outbox
    ensures Delete(s, id).after.outbox == s.outbox
  {
  }

  /** Deleting a freshly added order restores the repository, but the event
      already published for it stays on the bus. */
  lemma DeleteUndoesAdd(s: Store, o: Order)
    requires HasValidContent(o) && o.id != 0 && o.id !in s.orders
    ensures Delete(Add(s, Some(o)).after, o.id) == Step(Completed, Store(s.orders, s.outbox + [EventOf(o)]))
  {
    assert s.orders[o.id := o] - {o.id} == s.orders;
  }

  /** One request to the service, as the controllers issue them. */
  datatype Request =
    | AddRequest(order: Option<Order>)
    | UpdateRequest(order: Option<Order>)
    | DeleteRequest(id: int32)

  function Serve(s: Store, req: Request): (r: Step<Store>) {
    match req
    case AddRequest(order) => Add(s, order)
    case UpdateRequest(order) => Update(s, order)
    case DeleteRequest(id) => Delete(s, id)
  }

  /** The store after serving a run of requests in order; a failed request
      leaves the store as it found it and the run goes on. */
  function ServeAll(s: Store, reqs: seq<Request>): (r: Store)
    decreases |reqs|
  {
    if reqs == [] then s else ServeAll(Serve(s, reqs[0]).after, reqs[1..])
  }

  function AddRequests(reqs: seq<Request>): (n: nat)
    decreases |reqs|
  {
    if reqs == [] then 0 else (if reqs[0].AddRequest? then 1 else 0) + AddRequests(reqs[1..])
  }

  /** Every service call keeps a consistent store consistent. */
  lemma ServeKeepsConsistent(s: Store, req: Request)
    requires Consistent(s)
    ensures Consistent(Serve(s, req).after)
  {
    var r := Serve(s, req);
    if r.completion.Completed? && !req.DeleteRequest? {
      var o := req.order.value;
      assert IsValidEvent(EventOf(o));
    }
  }

  /** Consistency holds along any run: in particular every event ever published
      satisfies the event invariant, because validation precedes publishing. */
  lemma {:induction false} ServeAllKeepsConsistent(s: Store, reqs: seq<Request>)
    requires Consistent(s)
    ensures Consistent(ServeAll(s, reqs))
    decreases |reqs|
  {
    if reqs != [] {
      ServeKeepsConsistent(s, reqs[0]);
      ServeAllKeepsConsistent(Serve(s, reqs[0]).after, reqs[1..]);
    }
  }

  /** The outbox is append-only, and grows by at most one event per add request. */
  lemma {:induction false} OutboxIsAppendOnly(s: Store, reqs: seq<Request>)
    ensures s.outbox <= ServeAll(s, reqs).outbox
    ensures |ServeAll(s, reqs).outbox| <= |s.outbox| + AddRequests(reqs)
    decreases |reqs|
  {
    if reqs != [] {
      var next := Serve(s, reqs[0]).after;
      OutboxIsAppendOnly(next, reqs[1..]);
    }
  }

  /** A call the service makes on its collaborators: a repository write or a publish. */
  datatype Effect =
    | Stored(order: Order)
    | Replaced(order: Order)
    | Removed(id: int32)
    | Published(event: Event)

  /** The service object: the repository's contents, the message bus's outbox,
      and a ghost journal of the calls made on them, in the order made. */
  class OrderService {
    var orders: map<int32, Order>
    var outbox: seq<Event>
    ghost var effects: seq<Effect>

    function State(): Store
      reads this
    {
      Store(orders, outbox)
    }

    ghost predicate Valid()
      reads this
    {
      Consistent(State())
    }

    constructor (stored: map<int32, Order>)
      ensures orders == stored && outbox == [] && effects == []
    {
      orders := stored;
      outbox := [];
      effects := [];
    }

    method GetAllOrdersAsync() returns (all: set<Order>)
      ensures forall id | id in orders :: orders[id] in all
      ensures forall o | o in all :: exists id | id in orders :: orders[id] == o
    {
      all := GetAllOrders(State());
    }

    method GetOrderByIdAsync(id: int32) returns (order: Option<Order>)
      ensures order.Some? <==> id in orders
      ensures order.Some? ==> order.value == orders[id]
    {
      order := if id in orders then Some(orders[id]) else None;
    }

    method OrderExistsAsync(id: int32) returns (found: bool)
      ensures found <==> id in orders
    {
      var order := GetOrderByIdAsync(id);
      found := order.Some?;
    }

    method AddOrderAsync(order: Option<Order>) returns (c: Completion)
      modifies this
      ensures Step(c, State()) == Add(old(State()), order)
      ensures effects == if c.Completed?
        then old(effects) + [Stored(order.value), Published(EventOf(order.value))]
        else old(effects)
      ensures old(Valid()) ==> Valid()
    {
      if order.None? || IsNullOrWhiteSpace(order.value.product) || order.value.quantity <= 0 || order.value.userId <= 0 {
        return Threw(ArgumentException(InvalidOrderData));
      }
      RepositoryAdd(order.value);
      var event := Event(order.value.id, order.value.product, order.value.quantity, order.value.userId);
      PublishNewOrder(event);
      c := Completed;
      if old(Valid()) { ServeKeepsConsistent(old(State()), AddRequest(order)); }
    }

    method UpdateOrderAsync(order: Option<Order>) returns (c: Completion)
      modifies this
      ensures Step(c, State()) == Update(old(State()), order)
      ensures effects == if c.Completed? then old(effects) + [Replaced(order.value)] else old(effects)
      ensures old(Valid()) ==> Valid()
    {
      if order.None? || order.value.id == 0 || IsNullOrWhiteSpace(order.value.product)
        || order.value.quantity <= 0 || order.value.userId <= 0
      {
        return Threw(ArgumentException(InvalidOrderData));
      }
      var found := OrderExistsAsync(order.value.id);
      if !found {
        return Threw(KeyNotFoundException(OrderNotFound));
      }
      RepositoryUpdate(order.value);
      c := Completed;
      if old(Valid()) { ServeKeepsConsistent(old(State()), UpdateRequest(order)); }
    }

    method DeleteOrderAsync(id: int32) returns (c: Completion)
      modifies this
      ensures Step(c, State()) == Delete(old(State()), id)
      ensures effects == if c.Completed? then old(effects) + [Removed(id)] else old(effects)
      ensures old(Valid()) ==> Valid()
    {
      if id == 0 {
        return Threw(ArgumentException(InvalidOrderId));
      }
      var found := OrderExistsAsync(id);
      if !found {
        return Threw(KeyNotFoundException(OrderNotFound));
      }
      RepositoryDelete(id);
      c := Completed;
      if old(Valid()) { ServeKeepsConsistent(old(State()), DeleteRequest(id)); }
    }

    /** The repository's add, as the interface declares it: file the order under its id. */
    method RepositoryAdd(o: Order)
      modifies this
      ensures orders == old(orders)[o.id := o] && outbox == old(outbox)
      ensures effects == old(effects) + [Stored(o)]
    {
      orders := orders[o.id := o];
      effects := effects + [Stored(o)];
    }

    method RepositoryUpdate(o: Order)
      modifies this
      ensures orders == old(orders)[o.id := o] && outbox == old(outbox)
      ensures effects == old(effects) + [Replaced(o)]
    {
      orders := orders[o.id := o];
      effects := effects + [Replaced(o)];
    }

    method RepositoryDelete(id: int32)
      modifies this
      ensures orders == old(orders) - {id} && outbox == old(outbox)
      ensures effects == old(effects) + [Removed(id)]
    {
      orders := orders - {id};
      effects := effects + [Removed(id)];
    }

    /** The message bus client's `PublishNewOrder`: the event joins the outbox. */
    method PublishNewOrder(e: Event)
      modifies this
      ensures outbox == old(outbox) + [e] && orders == old(orders)
      ensures effects == old(effects) + [Published(e)]
    {
      outbox := outbox + [e];
      effects := effects + [Published(e)];
    }
  }
}
