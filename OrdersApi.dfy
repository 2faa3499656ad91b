/** The orders controller (OrderService/Controllers/OrdersController.cs): each
    action checks the request, calls the order service and maps how the call
    ended to a response. The actions are composed here with the service's
    model, so each states both the response and the store it leaves. */
module OrdersApi {
  import opened Shared
  import opened Http
  import Orders

  const OrderIdMismatch: string := "Order ID mismatch"

  /** GET api/orders: 200 with every stored order. */
  function GetOrders(s: Orders.Store): (r: ActionResult<set<Orders.Order>>)
    ensures r.StatusCode() == 200 && r.Ok?
    ensures forall id | id in s.orders :: s.orders[id] in r.value
    ensures forall o | o in r.value :: exists id | id in s.orders :: s.orders[id] == o
  {
    Ok(Orders.GetAllOrders(s))
  }

  /** GET api/orders/{id}: 404 exactly when the service returns null, else 200 with the order. */
  function GetOrderById(s: Orders.Store, id: int32): (r: ActionResult<Orders.Order>)
    ensures r.StatusCode() == 404 <==> id !in s.orders
    ensures r.StatusCode() == 200 <==> id in s.orders
    ensures r.Ok? ==> r.value == s.orders[id]
    ensures r.NotFound? ==> r.detail == None
  {
    var order := Orders.GetOrderById(s, id);
    if order.None? then NotFound(None) else Ok(order.value)
  }

  /** POST api/orders: 201 pointing at the order's id when it is valid, else
      400 with the store and the outbox untouched. */
  function AddOrder(s: Orders.Store, order: Orders.Order): (r: Exchange<Orders.Order, Orders.Store>)
    ensures r.result.StatusCode() == 201 <==> Orders.HasValidContent(order)
    ensures r.result.StatusCode() == 400 <==> !Orders.HasValidContent(order)
    ensures r.result.CreatedAtAction? ==>
      r.result.actionName == "GetOrderById" && r.result.routeId == order.id && r.result.value == order
    ensures r.result.StatusCode() == 201 ==> r.after.orders == s.orders[order.id := order]
    ensures r.result.StatusCode() == 201 ==> r.after.outbox == s.outbox + [Orders.EventOf(order)]
    ensures r.result.StatusCode() == 400 ==> r.after == s
  {
    var step := Orders.Add(s, Some(order));
    Exchange(CreatedOrBadRequest(step.completion, "GetOrderById", order.id, order), step.after)
  }

  /** PUT api/orders/{id}: a route id that differs from the body's is 400
      without calling the service; otherwise 204, 400 or 404 from the service. */
  function UpdateOrder(s: Orders.Store, id: int32, order: Orders.Order): (r: Exchange<Orders.Order, Orders.Store>)
    ensures id != order.id ==> r == Exchange(BadRequest(OrderIdMismatch), s)
    ensures r.result.StatusCode() == 400 <==> id != order.id || !Orders.IsValidOrderUpdate(Some(order))
    ensures r.result.StatusCode() == 404 <==> id == order.id && Orders.IsValidOrderUpdate(Some(order)) && id !in s.orders
    ensures r.result.StatusCode() == 204 <==> id == order.id && Orders.IsValidOrderUpdate(Some(order)) && id in s.orders
    ensures r.result.StatusCode() != 204 ==> r.after == s
    ensures r.result.StatusCode() == 204 ==> r.after.orders == s.orders[id := order]
    ensures r.after.outbox == s.outbox
  {
    if id != order.id then
      Exchange(BadRequest(OrderIdMismatch), s)
    else
      var step := Orders.Update(s, Some(order));
      Exchange(NoContentOrError(step.completion), step.after)
  }

  /** DELETE api/orders/{id}: 400 for the zero id and 404 for an absent one,
      both leaving the store as it was; otherwise 204 and that order is gone. */
  function DeleteOrder(s: Orders.Store, id: int32): (r: Exchange<Orders.Order, Orders.Store>)
    ensures r.result.StatusCode() == 400 <==> id == 0
    ensures r.result.StatusCode() == 404 <==> id != 0 && id !in s.orders
    ensures r.result.StatusCode() == 204 <==> id != 0 && id in s.orders
    ensures r.result.StatusCode() != 204 ==> r.after == s
    ensures r.result.StatusCode() == 204 ==> r.after.orders.Keys == s.orders.Keys - {id}
    ensures r.result.StatusCode() == 204 ==> forall k | k in r.after.orders :: r.after.orders[k] == s.orders[k]
    ensures r.after.outbox == s.outbox
  {
    var step := Orders.Delete(s, id);
    Exchange(NoContentOrError(step.completion), step.after)
  }

  /** A created order can be read back at the route the 201 response names. */
  lemma CreatedOrderIsReadable(s: Orders.Store, order: Orders.Order)
    requires AddOrder(s, order).result.CreatedAtAction?
    ensures GetOrderById(AddOrder(s, order).after, AddOrder(s, order).result.routeId) == Ok(order)
  {
  }
}
