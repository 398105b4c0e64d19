/** The queue consumer: the per-delivery handler that decodes a notification,
    stamps it with the send outcome, appends audit records when MongoDB is
    configured, and issues exactly one acknowledgement call per delivery that
    runs to completion. */
module WorkerRabbit {
  import opened Models
  import Services

  /** What `JsonSerializer.Deserialize` comes to for one message body. */
  datatype DecodeOutcome =
    | Decoded(event: NotificationEvent)
    | NullEvent                      // the payload decodes to `null`
    | JsonFault                      // a `JsonException`
    | OtherFault(message: string)    // any other exception, with its `Message`

  /** One delivery from the broker: its tag and what its body decodes to. */
  datatype Delivery = Delivery(deliveryTag: nat, decoded: DecodeOutcome)

  /** What one `InsertOneAsync` call does. */
  datatype InsertResult = Stored | InsertThrows(message: string)

  /** What the world does during one run of the handler: the send result,
      the clock reading, the insert inside the `try` block and the insert
      inside the generic `catch` block. */
  datatype Collaborators = Collaborators(
    sendSucceeded: bool,
    now: DateTime,
    insert: InsertResult,
    retryInsert: InsertResult)

  /** The acknowledgement calls on the channel. */
  datatype AckCall =
    | BasicAck(deliveryTag: nat, multiple: bool)
    | BasicNack(deliveryTag: nat, multiple: bool, requeue: bool)
    | BasicReject(deliveryTag: nat, requeue: bool)

  /** What one run of the handler does: the acknowledgement calls it issues,
      the records it hands to `InsertOneAsync` (in order), whether it runs to
      completion, and the decoded notification as it leaves it. */
  datatype Effect = Effect(
    acks: seq<AckCall>,
    records: seq<NotificationEvent>,
    completed: bool,
    notification: Option<NotificationEvent>)

  const SendFailedMessage: string := "Envio de notificação falhou"

  /** The one way out of the handler without an acknowledgement: the insert
      in the generic `catch` throws, which happens only after the insert in
      the `try` block threw. */
  predicate Escapes(mongoEnabled: bool, d: Delivery, env: Collaborators)
  {
    mongoEnabled && d.decoded.Decoded? && env.insert.InsertThrows? && env.retryInsert.InsertThrows?
  }

  /** The handler's effect, case by case over the decode outcome, the send
      result and the insert outcomes. */
  function Effects(mongoEnabled: bool, d: Delivery, env: Collaborators): (e: Effect)
    // malformed payloads are rejected without requeue and leave no record
    ensures d.decoded.NullEvent? || d.decoded.JsonFault? ==>
              e.acks == [BasicReject(d.deliveryTag, false)] && e.records == [] && e.notification == None
    // any other decode fault is requeued and leaves no record
    ensures d.decoded.OtherFault? ==>
              e.acks == [BasicNack(d.deliveryTag, false, true)] && e.records == [] && e.notification == None
    // exactly one acknowledgement, on this delivery's tag, unless the handler escapes
    ensures e.completed <==> !Escapes(mongoEnabled, d, env)
    ensures e.completed ==> |e.acks| == 1 && e.acks[0].deliveryTag == d.deliveryTag
    ensures !e.completed ==> e.acks == []
    // no insert without MongoDB
    ensures !mongoEnabled ==> e.records == []
    ensures |e.records| <= 2
    // the notification is the decoded one, with only Sent, Timestamp and ErrorMessage written
    ensures e.notification.Some? <==> d.decoded.Decoded?
    ensures e.notification.Some? ==>
              Identity(e.notification.value) == Identity(d.decoded.event) && e.notification.value.timestamp == env.now
    ensures forall i :: 0 <= i < |e.records| ==>
              d.decoded.Decoded? && Identity(e.records[i]) == Identity(d.decoded.event)
              && e.records[i].timestamp == env.now
    // delivered: Sent and Timestamp set, inserted iff MongoDB is on, then acknowledged
    ensures d.decoded.Decoded? && env.sendSucceeded && (!mongoEnabled || env.insert.Stored?) ==>
              && e.acks == [BasicAck(d.deliveryTag, false)]
              && e.notification.value.sent
              && e.notification.value.errorMessage == d.decoded.event.errorMessage
              && e.records == (if mongoEnabled then [e.notification.value] else [])
    // send failed: discarded with a nack; the error text is written only when a record is kept
    ensures d.decoded.Decoded? && !env.sendSucceeded && (!mongoEnabled || env.insert.Stored?) ==>
              && e.acks == [BasicNack(d.deliveryTag, false, false)]
              && !e.notification.value.sent
              && (mongoEnabled ==> e.notification.value.errorMessage == Some(SendFailedMessage)
                                   && e.records == [e.notification.value])
              && (!mongoEnabled ==> e.notification.value.errorMessage == d.decoded.event.errorMessage)
    // the first insert throws: no ack or plain nack, a second record carrying the fault, then a requeue
    ensures d.decoded.Decoded? && mongoEnabled && env.insert.InsertThrows? ==>
              && |e.records| == 2
              && e.records[0].sent == env.sendSucceeded
              && e.records[0].errorMessage ==
                   (if env.sendSucceeded then d.decoded.event.errorMessage else Some(SendFailedMessage))
              && e.records[1] == e.records[0].(sent := false, errorMessage := Some(env.insert.message))
              && e.notification == Some(e.records[1])
              && e.acks == (if env.retryInsert.Stored? then [BasicNack(d.deliveryTag, false, true)] else [])
    // a positive acknowledgement always follows a successful send
    ensures BasicAck(d.deliveryTag, false) in e.acks ==> d.decoded.Decoded? && env.sendSucceeded
  {
    var tag := d.deliveryTag;
    match d.decoded
    case NullEvent => Effect([BasicReject(tag, false)], [], true, None)
    case JsonFault => Effect([BasicReject(tag, false)], [], true, None)
    case OtherFault(_) => Effect([BasicNack(tag, false, true)], [], true, None)
    case Decoded(ev) =>
      var stamped := ev.(sent := env.sendSucceeded, timestamp := env.now);
      var verdict := if env.sendSucceeded then BasicAck(tag, false) else BasicNack(tag, false, false);
      if !mongoEnabled then
        Effect([verdict], [], true, Some(stamped))
      else
        var logged := if env.sendSucceeded then stamped
                      else stamped.(errorMessage := Some(SendFailedMessage));
        match env.insert
        case Stored => Effect([verdict], [logged], true, Some(logged))
        case InsertThrows(message) =>
          var faulted := logged.(errorMessage := Some(message), sent := false);
          var retried := env.retryInsert.Stored?;
          Effect(if retried then [BasicNack(tag, false, true)] else [], [logged, faulted], retried, Some(faulted))
  }

  /** One delivery together with what the world did while it was handled. */
  datatype Attempt = Attempt(delivery: Delivery, env: Collaborators)

  /** The channel's acknowledgement calls and the audit inserts, in order. */
  datatype Log = Log(acks: seq<AckCall>, records: seq<NotificationEvent>)

  /** The logs after the handler has run once per attempt, in order. Later
      attempts are admitted after one that escaped, a superset of the runs
      the channel allows. */
  function Replay(mongoEnabled: bool, h: seq<Attempt>): Log
  {
    if h == [] then Log([], [])
    else
      var before := Replay(mongoEnabled, h[..|h| - 1]);
      var e := Effects(mongoEnabled, h[|h| - 1].delivery, h[|h| - 1].env);
      Log(before.acks + e.acks, before.records + e.records)
  }

  /** Reference: the tags of the deliveries whose handler ran to completion. */
  function CompletedTags(mongoEnabled: bool, h: seq<Attempt>): seq<nat>
  {
    if h == [] then []
    else
      var last := h[|h| - 1];
      CompletedTags(mongoEnabled, h[..|h| - 1])
        + (if Escapes(mongoEnabled, last.delivery, last.env) then [] else [last.delivery.deliveryTag])
  }

  /** Reference: the identities (Id, Type, Data) of the events that decoded. */
  function DecodedIdentities(h: seq<Attempt>): set<(Guid, NotificationType, Option<map<string, string>>)>
  {
    set i | 0 <= i < |h| && h[i].delivery.decoded.Decoded? :: Identity(h[i].delivery.decoded.event)
  }

  /** Over any run of deliveries, the channel sees one acknowledgement per
      completed delivery, on that delivery's own tag, in delivery order. */
  lemma {:induction false} ReplayAcksFollowDeliveries(mongoEnabled: bool, h: seq<Attempt>)
    ensures |Replay(mongoEnabled, h).acks| == |CompletedTags(mongoEnabled, h)|
    ensures forall i :: 0 <= i < |Replay(mongoEnabled, h).acks| ==>
              Replay(mongoEnabled, h).acks[i].deliveryTag == CompletedTags(mongoEnabled, h)[i]
  {
    if h != [] {
      ReplayAcksFollowDeliveries(mongoEnabled, h[..|h| - 1]);
    }
  }

  /** With MongoDB disabled, no run of deliveries ever hands a record to
      `InsertOneAsync`. */
  lemma {:induction false} ReplayNoRecordsWithoutMongo(h: seq<Attempt>)
    ensures Replay(false, h).records == []
  {
    if h != [] {
      ReplayNoRecordsWithoutMongo(h[..|h| - 1]);
    }
  }

  /** Every record handed to `InsertOneAsync`, whether or not the call threw,
      carries the Id, Type and Data of an event that was actually decoded in
      the run. */
  lemma {:induction false} ReplayRecordsKeepIdentity(mongoEnabled: bool, h: seq<Attempt>)
    ensures forall i :: 0 <= i < |Replay(mongoEnabled, h).records| ==>
              Identity(Replay(mongoEnabled, h).records[i]) in DecodedIdentities(h)
  {
    if h != [] {
      var prefix := h[..|h| - 1];
      ReplayRecordsKeepIdentity(mongoEnabled, prefix);
      assert DecodedIdentities(prefix) <= DecodedIdentities(h) by {
        forall x | x in DecodedIdentities(prefix) ensures x in DecodedIdentities(h) {
          var i :| 0 <= i < |prefix| && prefix[i].delivery.decoded.Decoded?
                   && x == Identity(prefix[i].delivery.decoded.event);
          assert h[i] == prefix[i];
        }
      }
      var last := h[|h| - 1];
      if last.delivery.decoded.Decoded? {
        assert Identity(last.delivery.decoded.event) in DecodedIdentities(h);
      }
    }
  }

  /** A malformed payload delivered twice is rejected twice, and neither
      delivery leaves an audit record. */
  lemma RedeliveredMalformedPayload(mongoEnabled: bool, first: Attempt, second: Attempt)
    requires first.delivery.decoded.NullEvent? || first.delivery.decoded.JsonFault?
    requires second.delivery.decoded == first.delivery.decoded
    ensures Replay(mongoEnabled, [first, second]) ==
              Log([BasicReject(first.delivery.deliveryTag, false), BasicReject(second.delivery.deliveryTag, false)], [])
  {
    assert [first, second][..1] == [first];
    assert [first][..0] == [];
    assert Replay(mongoEnabled, [first]) == Log([BasicReject(first.delivery.deliveryTag, false)], []);
  }

  /** An order notification without "OrderId" cannot be turned into a mail
      message, yet with the send result fixed to true, as the handler has it,
      it is acknowledged and recorded as sent; had the send been called, its
      false result would discard the delivery with a nack. */
  lemma UnbuildableOrderIsAcknowledged(mongoEnabled: bool, tag: nat, ev: NotificationEvent, now: DateTime,
                                       senderEmail: Option<string>, addressesAccepted: bool)
    requires ev.kind == OrderCreated && ev.data.Some? && "OrderId" !in ev.data.value
    ensures Services.CreateEmailMessage(ev, senderEmail, addressesAccepted) == Services.NoMessage
    ensures var e := Effects(mongoEnabled, Delivery(tag, Decoded(ev)), Collaborators(true, now, Stored, Stored));
            e.acks == [BasicAck(tag, false)] && e.notification.value.sent
    ensures var e := Effects(mongoEnabled, Delivery(tag, Decoded(ev)), Collaborators(false, now, Stored, Stored));
            e.acks == [BasicNack(tag, false, false)] && !e.notification.value.sent
  {
  }

  /** `Worker`: `_mongoEnabled` and `_notificationLogs` are fixed by the
      constructor; the channel and the collection are represented by the
      logs of the calls made on them. */
  class Worker {
    const mongoEnabled: bool
    const logsConfigured: bool    // `_notificationLogs != null`
    var acks: seq<AckCall>
    var inserts: seq<NotificationEvent>
    ghost var history: seq<Attempt>

    ghost predicate Valid()
      reads this
    {
      && logsConfigured == mongoEnabled
      && acks == Replay(mongoEnabled, history).acks
      && inserts == Replay(mongoEnabled, history).records
    }

    /** MongoDB logging is on iff a client is supplied and both the database
        name and the collection name are set and non-empty. */
    constructor (mongoClientSupplied: bool, databaseName: Option<string>, collectionName: Option<string>)
      ensures Valid()
      ensures mongoEnabled <==>
                mongoClientSupplied && !IsNullOrEmpty(databaseName) && !IsNullOrEmpty(collectionName)
      ensures acks == [] && inserts == [] && history == []
    {
      var enabled := mongoClientSupplied && !IsNullOrEmpty(databaseName) && !IsNullOrEmpty(collectionName);
      mongoEnabled := enabled;
      logsConfigured := enabled && mongoClientSupplied;
      acks, inserts := [], [];
      history := [];
    }

    /** The `Received` handler for one delivery. Returns whether it ran to
        completion and the decoded notification as it leaves it. */
    method Received(d: Delivery, env: Collaborators) returns (completed: bool, notification: Option<NotificationEvent>)
      requires Valid()
      modifies this
      ensures Valid()
      ensures history == old(history) + [Attempt(d, env)]
      ensures var e := Effects(mongoEnabled, d, env);
              && acks == old(acks) + e.acks
              && inserts == old(inserts) + e.records
              && completed == e.completed
              && notification == e.notification
    {
      var tag := d.deliveryTag;
      notification := None;
      completed := true;
      var caught: Option<string> := None;   // the message of an exception bound for the generic catch

      match d.decoded {
        case NullEvent =>
          acks := acks + [BasicReject(tag, false)];
        case JsonFault =>
          acks := acks + [BasicReject(tag, false)];
        case OtherFault(message) =>
          caught := Some(message);
        case Decoded(ev) =>
          var success := env.sendSucceeded;
          var n := ev.(sent := success, timestamp := env.now);
          notification := Some(n);
          if success {
            if mongoEnabled && logsConfigured {
              inserts := inserts + [n];
              if env.insert.InsertThrows? {
                caught := Some(env.insert.message);
              }
            }
            if caught.None? {
              acks := acks + [BasicAck(tag, false)];
            }
          } else {
            if mongoEnabled && logsConfigured {
              n := n.(errorMessage := Some(SendFailedMessage));
              notification := Some(n);
              inserts := inserts + [n];
              if env.insert.InsertThrows? {
                caught := Some(env.insert.message);
              }
            }
            if caught.None? {
              acks := acks + [BasicNack(tag, false, false)];
            }
          }
      }

      if caught.Some? {
        if notification.Some? && mongoEnabled && logsConfigured {
          var n := notification.value.(errorMessage := Some(caught.value), sent := false);
          notification := Some(n);
          inserts := inserts + [n];
          if env.retryInsert.InsertThrows? {
            completed := false;
          }
        }
        if completed {
          acks := acks + [BasicNack(tag, false, true)];
        }
      }

      history := history + [Attempt(d, env)];
      assert history[..|history| - 1] == old(history);
    }
  }
}
