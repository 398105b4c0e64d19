/** The notification record that travels through the queue and into the audit
    store, and the small value types it is built from. */
module Models {

  /** A nullable reference: `None` stands for C#'s `null`. */
  datatype Option<+T> = None | Some(value: T)

  /** `string.IsNullOrEmpty` over a nullable string. */
  predicate IsNullOrEmpty(s: Option<string>)
  {
    s.None? || s.value == ""
  }

  /** A 128-bit identifier, kept as its sixteen bytes; it is only ever copied. */
  type Guid = s: seq<bv8> | |s| == 16 witness seq(16, i => 0 as bv8)

  /** An instant, as the tick count of `DateTime`. */
  type DateTime = nat

  /** `NotificationType`: the two kinds the mail templates know, and every
      other value of the enumeration folded into `Other`. */
  datatype NotificationType = UserRegistration | OrderCreated | Other

  /** `NotificationEvent`. `data` and `errorMessage` are reference-typed in the
      source and are `null` when the JSON payload leaves them out.
      `RetryCount` is never read or written and is not represented. */
  datatype NotificationEvent = NotificationEvent(
    id: Guid,
    kind: NotificationType,
    timestamp: DateTime,
    data: Option<map<string, string>>,
    sent: bool,
    errorMessage: Option<string>)

  /** The fields the worker must never touch: `Id`, `Type` and `Data`. */
  function Identity(ev: NotificationEvent): (Guid, NotificationType, Option<map<string, string>>)
  {
    (ev.id, ev.kind, ev.data)
  }
}
