# WorkerRabbit notification worker — Dafny model

This project models the decision logic of WorkerRabbit. WorkerRabbit is a background worker. It takes notification events from a RabbitMQ queue, is meant to send each one as an e-mail (the send call is commented out, see below), and writes an audit record of the outcome to MongoDB. Two pieces of it are modelled:

- **The per-delivery handler of `Worker`** (module `WorkerRabbit`, file `worker.dfy`). It decodes a delivery and stamps the notification with the send result and the current time. When MongoDB logging is on, it hands the record to `InsertOneAsync`. It then issues one acknowledgement call on the delivery's tag: `BasicAck`, `BasicNack` with or without requeue, or `BasicReject`.
  - `Worker` is a class. `mongoEnabled` and `logsConfigured` (which stands for `_notificationLogs != null`) are fixed by the constructor.
  - Two append-only logs record the calls the handler makes. `acks` holds the acknowledgement calls issued on the channel. `inserts` holds every record handed to `InsertOneAsync`, including calls that threw; it is not the collection's contents. The method `Received` appends to them.
  - The pure function `Effects` gives the handler's effect case by case. `Received` is proved to append exactly `Effects(...)`.
  - `Replay` applies the handler to a sequence of deliveries. The class invariant `Valid` ties both logs to `Replay` of the ghost `history`. The lemmas about `Replay` state what holds over any sequence of deliveries.
- **The e-mail channel of `EmailService`** (module `Services`, file `email_service.dfy`).
  - `CreateEmailMessage` is a function that returns a built message, the source's `null` (`NoMessage`), or `Threw` for an exception raised while building.
  - `SendEmailAsync` is a method over the configuration and the abstract outcomes of the foreign calls. It returns the source's boolean and also where the call stopped.

The record itself, `NotificationEvent`, is in module `Models` (file `models.dfy`). `Id`, `Type` and `Data` make up its `Identity`, which the worker never changes.

Inputs the handler cannot see are parameters (`Collaborators`):
- the decode outcome: an event, `null`, a `JsonException`, or another exception;
- the send result;
- the clock reading (`DateTime.UtcNow`);
- the outcome of the insert in the `try` block;
- the outcome of the insert in the generic `catch` block.

The handler's source sets the send result to `true` and comments out the call to `SendEmailAsync` (WorkerRabbit/Worker.cs:124-125). The model takes it as a parameter, so the failure branch is verified too. With `sendSucceeded = true` the model is exactly the code as written.

Consequences of the code as written:
- An `OrderCreated` event without `OrderId` is acknowledged and recorded as sent, because the send is hardcoded to `true` (WorkerRabbit/Worker.cs:124-125). `UnbuildableOrderIsAcknowledged` states this.
- When the first insert throws, the generic `catch` hands a second record for the same delivery to `InsertOneAsync` (WorkerRabbit/Worker.cs:160-168).
- An insert that throws turns an ack, or a nack without requeue, into a nack with requeue (WorkerRabbit/Worker.cs:134, 148, 171), unless the insert in the `catch` throws too. In that case no acknowledgement is issued (`Escapes`).

## Model

| member | source | states |
|---|---|---|
| `WorkerRabbit.Effects` | WorkerRabbit/Worker.cs:103-172 | A null or `JsonException` decode gets a single `BasicReject(requeue:false)` with no insert. Any other decode fault gets `BasicNack(requeue:true)` with no insert. A successful send sets `Sent` and `Timestamp`, inserts the record iff MongoDB is on, then `BasicAck(multiple:false)`. A failed send gets `BasicNack(requeue:false)`; `ErrorMessage` becomes "Envio de notificação falhou" and the record is inserted only with MongoDB on, otherwise `ErrorMessage` is untouched. If the first insert throws (that first record already carries `ErrorMessage` "Envio de notificação falhou" when the send failed): no ack, a second record with `Sent=false` and the exception's message, then `BasicNack(requeue:true)`, unless that insert throws too. A completed run issues exactly one acknowledgement, on its own tag. `Id`, `Type` and `Data` are never written, and no insert happens without MongoDB. |
| `WorkerRabbit.Worker.Received` | WorkerRabbit/Worker.cs:103-173 | The imperative handler appends exactly the acknowledgement calls and the inserted records that `Effects` gives, returns whether it ran to completion and the notification as it leaves it, and keeps the logs equal to the replay of all deliveries handled so far. |
| `WorkerRabbit.Worker.constructor` | WorkerRabbit/Worker.cs:31-44 | MongoDB logging is enabled iff a client is supplied and both `DatabaseName` and `CollectionName` are set and non-empty; the collection handle exists exactly when it is enabled; both logs start empty. |
| `WorkerRabbit.ReplayAcksFollowDeliveries` | WorkerRabbit/Worker.cs:115-171 | Over any sequence of deliveries, the acknowledgement log has exactly one call per delivery whose handler completed, in delivery order, each on that delivery's own tag. |
| `WorkerRabbit.ReplayNoRecordsWithoutMongo` | WorkerRabbit/Worker.cs:132-168 | With MongoDB disabled, no sequence of deliveries ever hands a record to `InsertOneAsync`. |
| `WorkerRabbit.ReplayRecordsKeepIdentity` | WorkerRabbit/Worker.cs:127-168 | Every record handed to `InsertOneAsync` (whether or not the call threw) carries the `Id`, `Type` and `Data` of an event that was actually decoded in the run. |
| `WorkerRabbit.RedeliveredMalformedPayload` | WorkerRabbit/Worker.cs:113-159 | A malformed payload delivered twice is rejected without requeue both times and leaves no audit record. |
| `WorkerRabbit.UnbuildableOrderIsAcknowledged` | WorkerRabbit/Worker.cs:124-139 | An `OrderCreated` event without "OrderId" cannot be turned into a message. As written (send fixed to true) it is still acked with `Sent = true`. With a failed send it would get `BasicNack(requeue:false)`. |
| `Services.CreateEmailMessage` | WorkerRabbit/Services/EmailService.cs:62-127 | No message (`null`) when `Data` lacks "UserEmail", whatever the type. The same for an `OrderCreated` without "OrderId" and for any unsupported type. A `null` `Data` throws. It throws when the `Subject` setter refuses an order subject because `OrderId` holds a carriage return or line feed. A message is built iff the type is supported, its required keys are present, the mail library accepts the sender and recipient addresses and, for an order, `OrderId` is a single line. A built message has a single-line subject and has `Data["UserEmail"]` as the one address text handed to `To.Add`, `senderEmail` ("Sistema de Notificações") as sender, and an HTML body that greets `Data["UserName"]`, or "Cliente" when that key is missing. Its subject is "Bem-vindo ao nosso sistema!" for a registration and "Pedido #" + `OrderId` + " Criado" for an order, whose body also names the order id. |
| `Services.OrderSubjectSingleLine` | WorkerRabbit/Services/EmailService.cs:99 | The order subject "Pedido #" + `OrderId` + " Criado" contains a carriage return or line feed exactly when `OrderId` does. |
| `Services.WelcomeBody` | WorkerRabbit/Services/EmailService.cs:80-89 | The registration body contains the user name. |
| `Services.OrderBody` | WorkerRabbit/Services/EmailService.cs:100-109 | The order body contains the user name and the order id. |
| `Services.EmailService.constructor` | WorkerRabbit/Services/EmailService.cs:13-17 | The service keeps the configuration it is given. |
| `Services.EmailService.SendEmailAsync` | WorkerRabbit/Services/EmailService.cs:19-60 | Returns false when the port cannot be parsed, before anything else. Returns false when `SmtpServer` or `Username` is null or empty, before any client or message is built. Returns true iff every guard passes, the client is created, `CreateEmailMessage` builds a message and the send completes; the message sent is the one built. A `null` message gives false. |

## Left out

- Broker connection, topology, QoS, consumer registration, `StopAsync` and `Dispose` (WorkerRabbit/Worker.cs:49-101, 175-200): connection I/O with no decision logic.
- WorkerRabbit/Program.cs (host and dependency registration) is not part of this model. The MongoDB client is represented by whether one is supplied.
- JSON and UTF-8 decoding are a foreign library. Decoding is the `DecodeOutcome` input. The HTML body does not carry the whitespace of the source's verbatim string literals (leading newline, line breaks, indentation).
- Channel calls (`BasicAck`, `BasicNack`, `BasicReject`) are taken never to throw, so a closed channel is not modelled. Two paths are left out:
  - If `BasicReject` (WorkerRabbit/Worker.cs:118), `BasicAck` (138) or `BasicNack(requeue:false)` (151) throws, the handler enters the generic `catch` once. When a notification was decoded and MongoDB is on, that `catch` hands a further record, with `Sent=false` and the channel exception's message, to `InsertOneAsync` (164-168). It then calls `BasicNack(requeue:true)` (171) on the same channel; if that call throws too, the exception escapes the handler.
  - If the `BasicReject` inside the `JsonException` catch (158) throws, the exception escapes directly, because a sibling `catch` does not handle it.
- An exception that escapes the handler is modelled as a run that does not complete and issues no acknowledgement (`Escapes`). This happens when the insert in the `catch` block throws. What the runtime then does with the exception is not modelled. `Replay` also admits further deliveries after one that escaped. On the real channel none arrive, because the escaped delivery stays unacknowledged and the prefetch count is 1 (WorkerRabbit/Worker.cs:86). The lemmas about `Replay` therefore hold over a superset of the real histories.
- `CreateEmailMessage`: `To.Add` parses its argument as a comma-separated address list, so a `UserEmail` such as "a@x.com,b@y.com" gives two recipients. The model records the text handed to `To.Add` and does not model that splitting.
- The insert outcomes are free inputs. The store's uniqueness of `_id` (`[BsonId]` on `Id`, WorkerRabbit/Models/NotificationEvent.cs:8-10) is not modelled. In the real store a second insert of a stored `Id` always throws a duplicate-key error. For example, the `catch` insert stores the record and the delivery is requeued; on redelivery both inserts then throw and the handler escapes without an acknowledgement. The model also admits runs in which two stored records share an `Id`.
- `InsertOneAsync` is modelled as taking a copy of the record at the time of the call. Any change the MongoDB driver makes to the document, such as generating an id, is not modelled.
- Logging, `async`/`await` and the threading of the event callback are not modelled.
- `RetryCount` is never read or written, so it is not represented.
- `int.Parse`, `new SmtpClient`, `MailAddress` and `To.Add` address validation, and `SendMailAsync` are foreign calls. They are abstract outcomes in `SmtpOutcomes`. A null or empty sender and an empty recipient are always refused. Beyond that, the mail library's address grammar is the `addressesAccepted` flag. The `Subject` setter's refusal of a carriage return or line feed is modelled (`SingleLine`).
- `Data` values that are JSON `null` are not represented. Each value in the map is a string.
- The `NotificationType` enumeration is not part of this model. Every value other than `UserRegistration` and `OrderCreated` is folded into `Other`.
