# A verified model of the MicroServiceProject core

This project models three parts of a small .NET microservice system and
proves properties about them in Dafny:

- **The CRUD service layer.** This is `OrderService` and `UserService`.
  - Every operation is a guarded change to a repository keyed by id.
  - Validation comes first and throws `ArgumentException`.
  - An existence check comes next and throws `KeyNotFoundException`.
  - Only then is the repository written.
  - A successful order add also publishes one "order created" `Event` on the message bus.

  The repository is a `map<int32, Order>` (or `map<int32, User>`), and the
  message bus is an append-only outbox `seq<Event>`. The pure functions
  `Orders.Add`, `Orders.Update` and `Orders.Delete` (and their `Users`
  counterparts) state what one call does. The classes `Orders.OrderService`
  and `Users.UserService` perform the calls step by step and are proved
  against those functions.
- **The HTTP controllers.** `OrdersController` and `UsersController` map the route/body id check, and how the
  service call ended, to a status: 200, 201, 204, 400, 404, or an uncaught
  exception (500). Each action is composed with the service model, so its
  contract states both the response and the store it leaves behind.
- **The notification consumer.** This is `NotificationHandler`.
  - Connecting uses a bounded retry loop: five attempts, with a warning and a five-second wait between them.
  - `ProcessMessageAsync` decides whether a message was processed.
  - The `Received` callback settles each delivery with exactly one ack or reject on its own tag.

  The callback is modelled against an abstract AMQP 0-9-1 channel
  (`Broker`). The channel has:
  - a ready queue;
  - the unacknowledged deliveries by tag;
  - the settle calls issued.

  Tags are issued from 1 upwards. An ack removes a delivery. A reject with
  requeue puts the message back at the head of the queue. Settling an
  unknown tag closes the channel.

Modules:

| file | module | models |
|---|---|---|
| Shared.dfy | `Shared` | null as `Option`, C#'s 32-bit `int`, `string.IsNullOrWhiteSpace`, the two exceptions, `Shared.Models.Event` |
| Orders.dfy | `Orders` | OrderService/Services/OrderService.cs |
| Users.dfy | `Users` | UserService/Services/UserService.cs |
| Http.dfy | `Http` | the action results and the catch-block mappings both controllers share |
| OrdersApi.dfy | `OrdersApi` | OrderService/Controllers/OrdersController.cs |
| UsersApi.dfy | `UsersApi` | UserService/Controllers/UsersController.cs |
| Broker.dfy | `Broker` | the broker channel the consumer talks to (environment, not repository code) |
| Notifications.dfy | `Notifications` | NotificationService/Services/NotificationHandler.cs |

Two pieces of environment code become parameters:

- **The connection factory** is an oracle `dial: nat -> DialOutcome`. `dial(k)` is how the k-th call of `CreateConnection` ends.
- **UTF-8 decoding and JSON deserialization** form an oracle `Codec`. The deserializer yields an event, `null`, or an exception.

A property the model makes explicit concerns poison messages. A message whose body never deserializes to a non-null event is rejected with requeue on every delivery. No redelivery cap and no dead-letter route exists, so it is redelivered forever (`Notifications.PoisonMessageIsRedeliveredForever`). The model delivers one message at a time, so there the poison message also blocks the queue behind it; the real consumer does not block this way (see "## Left out").

## Model

| member | source | states |
|---|---|---|
| Orders.EventOf | OrderService/Services/OrderService.cs:37-43 | the published event copies Id, Product, Quantity and UserId from the order; it satisfies the event invariant iff the order passed the add validation |
| Orders.GetAllOrders | OrderService/Services/OrderService.cs:19-22 | every stored order is returned, and nothing else |
| Orders.GetOrderById | OrderService/Services/OrderService.cs:24-27 | null exactly when the id is absent, otherwise the stored order |
| Orders.OrderExists | OrderService/Services/OrderService.cs:77-81 | holds iff the id is in the repository |
| Orders.Add | OrderService/Services/OrderService.cs:29-45 | completes iff the order is non-null with a non-blank product, positive quantity and positive user id; otherwise `ArgumentException("Order data is invalid")` and the store and outbox unchanged; on success the order is filed under its id and exactly one mirroring event is appended |
| Orders.Update | OrderService/Services/OrderService.cs:47-60 | `ArgumentException` iff null, zero id or invalid content; `KeyNotFoundException` iff valid but absent; completes iff valid and present, replacing only that entry; any throw leaves the store unchanged; nothing is published |
| Orders.Delete | OrderService/Services/OrderService.cs:62-75 | `ArgumentException` iff id is 0; `KeyNotFoundException` iff nonzero and absent; otherwise exactly that id is removed, every other entry and the outbox kept |
| Orders.AddIgnoresId | OrderService/Services/OrderService.cs:31 | whether an add is accepted does not depend on the order's id |
| Orders.InvalidUpdateIgnoresStore | OrderService/Services/OrderService.cs:49-57 | an invalid update ends in the same `ArgumentException` whatever the store holds, even for an absent id: validation precedes the existence check |
| Orders.OnlyAddPublishes | OrderService/Services/OrderService.cs:44-75 | update and delete never change the outbox, whatever they end with |
| Orders.DeleteUndoesAdd | OrderService/Services/OrderService.cs:29-75 | deleting a freshly added order restores the repository, while its event stays published |
| Orders.ServeKeepsConsistent | OrderService/Services/OrderService.cs:29-75 | each call keeps every order filed under its own id with valid content, and every published event valid |
| Orders.ServeAllKeepsConsistent | OrderService/Services/OrderService.cs:29-75 | the same along any run of calls, by induction on the run |
| Orders.OutboxIsAppendOnly | OrderService/Services/OrderService.cs:36-44 | along any run of calls the outbox only grows at its end, by at most one event per add request |
| Orders.OrderService.constructor | OrderService/Services/OrderService.cs:13-17 | the service starts on the given repository with an empty outbox |
| Orders.OrderService.GetAllOrdersAsync | OrderService/Services/OrderService.cs:19-22 | returns every stored order and nothing else, changing nothing |
| Orders.OrderService.GetOrderByIdAsync | OrderService/Services/OrderService.cs:24-27 | returns null iff the id is absent, otherwise the stored order, changing nothing |
| Orders.OrderService.OrderExistsAsync | OrderService/Services/OrderService.cs:77-81 | true iff the id is present |
| Orders.OrderService.AddOrderAsync | OrderService/Services/OrderService.cs:29-45 | the call ends and leaves repository and outbox as `Orders.Add` says; on success it stores before it publishes (journal `[Stored, Published]`); consistency is preserved |
| Orders.OrderService.UpdateOrderAsync | OrderService/Services/OrderService.cs:47-60 | ends and leaves the state as `Orders.Update` says; writes the repository only on success; consistency is preserved |
| Orders.OrderService.DeleteOrderAsync | OrderService/Services/OrderService.cs:62-75 | ends and leaves the state as `Orders.Delete` says; removes only on success; consistency is preserved |
| Orders.OrderService.RepositoryAdd | OrderService/Services/OrderService.cs:36 | the repository files the order under its id; the outbox is untouched |
| Orders.OrderService.RepositoryUpdate | OrderService/Services/OrderService.cs:59 | the repository replaces the entry at the order's id; the outbox is untouched |
| Orders.OrderService.RepositoryDelete | OrderService/Services/OrderService.cs:74 | the repository drops the id; the outbox is untouched |
| Orders.OrderService.PublishNewOrder | OrderService/Services/OrderService.cs:44 | the event is appended to the outbox; the repository is untouched |
| Users.GetAllUsers | UserService/Services/UserService.cs:15-18 | every stored user is returned, and nothing else |
| Users.GetUserById | UserService/Services/UserService.cs:20-23 | null exactly when the id is absent, otherwise the stored user |
| Users.UserExists | UserService/Services/UserService.cs:65-69 | holds iff the id is in the repository |
| Users.Add | UserService/Services/UserService.cs:25-33 | completes iff the user is non-null with non-blank name and email; otherwise `ArgumentException("User data is invalid")` and the repository unchanged; on success only that user's entry is set |
| Users.Update | UserService/Services/UserService.cs:35-48 | `ArgumentException` iff null, zero id, blank name or email; `KeyNotFoundException` iff valid but absent; completes iff valid and present, replacing only that entry; any throw leaves the repository unchanged |
| Users.Delete | UserService/Services/UserService.cs:50-63 | `ArgumentException` iff id is 0; `KeyNotFoundException` iff nonzero and absent; otherwise exactly that user is removed and every other entry kept |
| Users.AddIgnoresId | UserService/Services/UserService.cs:27 | whether an add is accepted does not depend on the user's id |
| Users.InvalidUpdateIgnoresStore | UserService/Services/UserService.cs:37-45 | an invalid update ends in the same `ArgumentException` whatever the repository holds: validation precedes the existence check |
| Users.DeleteUndoesAdd | UserService/Services/UserService.cs:25-63 | deleting a freshly added user restores the repository |
| Users.ServeAllKeepsConsistent | UserService/Services/UserService.cs:25-63 | along any run of calls every user stays filed under its own id with a name and an email |
| Users.UserService.constructor | UserService/Services/UserService.cs:10-13 | the service starts on the given repository |
| Users.UserService.GetAllUsersAsync | UserService/Services/UserService.cs:15-18 | returns every stored user and nothing else, changing nothing |
| Users.UserService.GetUserByIdAsync | UserService/Services/UserService.cs:20-23 | returns null iff the id is absent, otherwise the stored user |
| Users.UserService.UserExistsAsync | UserService/Services/UserService.cs:65-69 | true iff the id is present |
| Users.UserService.AddUserAsync | UserService/Services/UserService.cs:25-33 | ends and leaves the repository as `Users.Add` says; consistency is preserved |
| Users.UserService.UpdateUserAsync | UserService/Services/UserService.cs:35-48 | ends and leaves the repository as `Users.Update` says; consistency is preserved |
| Users.UserService.DeleteUserAsync | UserService/Services/UserService.cs:50-63 | ends and leaves the repository as `Users.Delete` says; consistency is preserved |
| Http.NoContentOrError | OrderService/Controllers/OrdersController.cs:73-111 | 204 iff the service call completed, 400 iff it threw `ArgumentException`, 404 iff `KeyNotFoundException`, each error carrying the exception's message |
| Http.CreatedOrBadRequest | OrderService/Controllers/OrdersController.cs:49-59 | 201 naming the action, route id and body iff the call completed, 400 with the message iff `ArgumentException`, any other exception uncaught |
| OrdersApi.GetOrders | OrderService/Controllers/OrdersController.cs:22-27 | always 200 with exactly the stored orders |
| OrdersApi.GetOrderById | OrderService/Controllers/OrdersController.cs:31-42 | 404 without a body iff the id is absent, otherwise 200 with the stored order |
| OrdersApi.AddOrder | OrderService/Controllers/OrdersController.cs:46-60 | 201 at `GetOrderById` with route id `order.Id` iff the order is valid, with the order stored and its event published; 400 otherwise with store and outbox unchanged |
| OrdersApi.UpdateOrder | OrderService/Controllers/OrdersController.cs:64-89 | a route id differing from the body's gives 400 "Order ID mismatch" without calling the service; otherwise 400/404/204 exactly as the service throws or completes; only 204 changes the store; the outbox never changes |
| OrdersApi.DeleteOrder | OrderService/Controllers/OrdersController.cs:93-112 | 400 iff id is 0, 404 iff nonzero and absent, both with the store unchanged; 204 otherwise with exactly that order removed |
| OrdersApi.CreatedOrderIsReadable | OrderService/Controllers/OrdersController.cs:47-53 | after a 201 the order can be read back with 200 at the route id the response names |
| UsersApi.GetUsers | UserService/Controllers/UsersController.cs:22-27 | always 200 with exactly the stored users |
| UsersApi.GetUserById | UserService/Controllers/UsersController.cs:31-42 | 404 without a body iff the id is absent, otherwise 200 with the stored user |
| UsersApi.AddUser | UserService/Controllers/UsersController.cs:46-60 | 201 at `GetUserById` with route id `user.Id` iff name and email are non-blank; 400 iff either is blank, with the repository unchanged |
| UsersApi.UpdateUser | UserService/Controllers/UsersController.cs:64-89 | a route id differing from the body's gives 400 "User ID mismatch" without calling the service; otherwise 400/404/204 exactly as the service throws or completes; only 204 changes the repository |
| UsersApi.DeleteUser | UserService/Controllers/UsersController.cs:93-112 | 400 iff id is 0, 404 iff nonzero and absent, both with the repository unchanged; 204 otherwise with exactly that user removed |
| UsersApi.CreatedUserIsReadable | UserService/Controllers/UsersController.cs:47-53 | after a 201 the user can be read back with 200 at the route id the response names |
| Broker.Fresh | NotificationService/Services/NotificationHandler.cs:86 | a declared queue: channel open, no subscription, nothing unacknowledged, first tag 1 |
| Broker.Consume | NotificationService/Services/NotificationHandler.cs:114 | subscribing sets manual acknowledgement exactly when `autoAck` is false and changes no message |
| Broker.Dispatch | NotificationService/Services/NotificationHandler.cs:89-91 | a delivery happens iff the channel is open, subscribed and the queue non-empty; it carries the head under the next tag, which is held unacknowledged in manual mode |
| Broker.Ack | NotificationService/Services/NotificationHandler.cs:106 | acking a held tag alone removes exactly that delivery; an unknown tag closes the channel; the call is recorded |
| Broker.Reject | NotificationService/Services/NotificationHandler.cs:110 | rejecting a held tag removes it from the unacknowledged set and, with requeue, puts its body back at the head of the queue; an unknown tag closes the channel |
| Broker.Channel.constructor | NotificationService/Services/NotificationHandler.cs:86 | the channel starts as `Broker.Fresh` |
| Broker.Channel.BasicConsume | NotificationService/Services/NotificationHandler.cs:114 | the channel's state changes as `Broker.Consume` says |
| Broker.Channel.Deliver | NotificationService/Services/NotificationHandler.cs:89-91 | the delivery and the new state are those of `Broker.Dispatch` |
| Broker.Channel.BasicAck | NotificationService/Services/NotificationHandler.cs:106 | the channel's state changes as `Broker.Ack` says |
| Broker.Channel.BasicReject | NotificationService/Services/NotificationHandler.cs:110 | the channel's state changes as `Broker.Reject` says |
| Notifications.SettledAttempt | NotificationService/Services/NotificationHandler.cs:56-67 | the loop stops on an attempt between 1 and 5, every earlier attempt found the broker unreachable, and an attempt before the fifth stops only on a different outcome |
| Notifications.RetryRounds | NotificationService/Services/NotificationHandler.cs:56-69 | n retried failures leave dial, warning "attempt i of 5", 5000 ms wait, for i = 1..n in order |
| Notifications.RetryRoundsCounts | NotificationService/Services/NotificationHandler.cs:56-69 | n retried failures hold exactly n dials, n warnings, n delays and no other log line |
| Notifications.CreateConnectionWithRetry | NotificationService/Services/NotificationHandler.cs:51-74 | the loop returns the outcome of the settled attempt with the trace of retried failures followed by that attempt; the fallback throw after the loop is unreachable |
| Notifications.OpenConnection | NotificationService/Services/NotificationHandler.cs:34-47 | connecting with retry, then one information line on success or one error line on failure, with the same outcome |
| Notifications.RetryTraceCounts | NotificationService/Services/NotificationHandler.cs:53-69 | the trace holds at most five dials, one warning and one delay for each dial but the last, and ends with the last dial |
| Notifications.ConnectsAfterRetries | NotificationService/Services/NotificationHandler.cs:56-69 | if attempts 1..k-1 find the broker unreachable and attempt k connects, that connection is returned after exactly k-1 warnings and k-1 delays |
| Notifications.UnreachableBrokerGivesUp | NotificationService/Services/NotificationHandler.cs:64-73 | if every attempt finds the broker unreachable, the fifth exception is the outcome, after five dials and four warnings, with no sixth attempt |
| Notifications.OtherFailurePropagates | NotificationService/Services/NotificationHandler.cs:58-62 | any other exception on attempt k is the outcome, after exactly k dials |
| Notifications.ProcessMessage | NotificationService/Services/NotificationHandler.cs:118-134 | true iff the text deserializes to a non-null event, logging its four fields; a null result or a deserializer exception gives false and an error line, never an exception |
| Notifications.Settle | NotificationService/Services/NotificationHandler.cs:94-111 | exactly one call on the delivery's own tag: ack of that tag alone iff processing returned true, otherwise reject with requeue |
| Notifications.SettleCall | NotificationService/Services/NotificationHandler.cs:89-111 | a delivery is acked iff its body decodes to a non-null event, else rejected with requeue, always by its own tag |
| Notifications.Cycle | NotificationService/Services/NotificationHandler.cs:89-114 | one receive cycle: with nothing to deliver the channel is unchanged; otherwise exactly the settle call `Notifications.SettleCall` picks for the pushed delivery is added to the channel's calls; the channel's invariant is kept |
| Notifications.CycleSettlesHead | NotificationService/Services/NotificationHandler.cs:89-114 | one receive cycle on a manual-ack subscription issues exactly one settle call with the delivered tag; an acked message leaves the queue, a rejected one is back at its head, nothing stays unacknowledged |
| Notifications.OnlyAckRemoves | NotificationService/Services/NotificationHandler.cs:104-114 | across a cycle the queued messages lose the delivered body iff it decodes |
| Notifications.PoisonMessageIsRedeliveredForever | NotificationService/Services/NotificationHandler.cs:94-114 | a head message that never decodes keeps the queue as it was through any number of cycles, each ending in a reject with requeue |
| Notifications.NotificationHandler.constructor | NotificationService/Services/NotificationHandler.cs:20-23 | the handler keeps its channel and codec and has logged nothing |
| Notifications.NotificationHandler.StartConsuming | NotificationService/Services/NotificationHandler.cs:84-115 | the subscription is made with manual acknowledgement |
| Notifications.NotificationHandler.ProcessMessageAsync | NotificationService/Services/NotificationHandler.cs:118-134 | returns and logs what `Notifications.ProcessMessage` decides |
| Notifications.NotificationHandler.Received | NotificationService/Services/NotificationHandler.cs:89-112 | the channel performs exactly `Notifications.SettleCall` for the delivery, after one log line from processing |
| Notifications.NotificationHandler.ConsumeNext | NotificationService/Services/NotificationHandler.cs:88-114 | one push by the broker followed by the callback: returns the delivery `Broker.Dispatch` makes (none when nothing is ready), moves the channel as `Notifications.Cycle` says, and logs one processing line exactly when a delivery happened |

## Left out

- The repository implementations are not part of this model; only the interface signatures are used. Add and update are modelled as setting the entry at the entity's id. Key generation, duplicate keys and Entity Framework tracking are not modelled. A visible consequence: an order or user with id 0 passes the add validation and is filed under key 0, where `Orders.Delete` and `Users.Delete` can never remove it (they refuse id 0). A repository that generates keys would file it under a fresh key instead.
- The `Order` and `User` model classes are not part of this model. Their fields (Id, Product, Quantity, UserId; Id, Name, Email) are taken from how the services and controllers use them.
- `System.Text.Json` and `Encoding.UTF8` are oracles (`Notifications.Codec`), so no encode/decode round trip is stated.
- `Shared/Messaging/MessageBusClient.cs` is not part of this model. It opens a connection per publish and serialises the event. Publishing is the outbox append `Orders.OrderService.PublishNewOrder`, and its `Dispose` is left out.
- Concurrency is not modelled. This covers the async/await of every operation, the un-awaited publish, the callback running on the client library's thread, and the `BackgroundService` lifecycle. All of it runs sequentially here.
- `Task.Delay(5000).Wait()` is recorded as a `Slept(5000)` effect; time does not pass in the model.
- Automatic connection recovery, the recovery interval and the cancellation token are not modelled. The token is never read by the source.
- `int.Parse` of the port, the factory settings, `CreateModel`, the unused `trigger` exchange declaration and `QueueDeclare` are not modelled. `Notifications.OpenConnection` treats the steps after connecting as succeeding.
- Log message text is not modelled; only which line is logged (warning number, information, error) and the order's four fields are kept.
- `ExecuteAsync`, `Dispose`, the three `Startup.cs` files and `UserServiceClient.cs` are left out. They hold no decision logic.
- Controller model binding is not modelled. A null request body is rejected by ASP.NET Core before an action runs, so the controller functions take a non-null body, while the services still handle null.
- The 500 response for an exception no catch block handles is framework behaviour. It is represented only as `Http.ActionResult.Unhandled`.
- `GetAllOrdersAsync` and `GetAllUsersAsync` return an `IEnumerable` whose order the repository decides. The model returns the set of stored entities.
- Notifications.PoisonMessageIsRedeliveredForever: the receive cycle (`Notifications.Cycle`) keeps at most one delivery unsettled at a time, as a prefetch of 1 would. The consumer never calls `BasicQos`, so the real broker pushes every ready message without waiting for acknowledgements, and decodable messages behind a poison message are still delivered and acked. The lemma's "queue unchanged" is therefore head-of-line blocking that the program does not have. What carries over is the part about the poison body itself: each of its deliveries ends in a reject with requeue and it never leaves the broker.
- Broker: redelivered messages get a fresh tag and requeue puts them back at the head. This follows AMQP 0-9-1 and RabbitMQ, not repository code. The `redelivered` flag, prefetch and multiple consumers are not modelled.
- `Notifications.NotificationHandler.Received` never sees `ProcessMessageAsync` throw, because the model of that method never throws. The catch block at NotificationHandler.cs:99-102 is covered only by `Notifications.Settle`'s `Raised` outcome.
