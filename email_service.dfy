/** The e-mail notification channel: which notifications can be turned into a
    mail message (recipient, greeting, subject, body), and the guard chain
    around the SMTP send that reduces every failure to `false`. */
module Services {
  import opened Models

  /** `MailAddress`: the address text handed to `new MailAddress`, which the
      mail library trims and parses, with its display name. */
  datatype MailAddress = MailAddress(address: string, displayName: string)

  /** The parts of `MailMessage` the service sets; `to` holds the text handed
      to `To.Add`, which the mail library may split into several addresses. */
  datatype MailMessage = MailMessage(
    from: MailAddress,
    to: seq<string>,
    subject: string,
    body: string,
    isBodyHtml: bool)

  /** What building the message comes to: a message, the `null` the source
      returns when it declines, or an exception thrown while building it. */
  datatype Composed = Built(message: MailMessage) | NoMessage | Threw

  const SenderDisplayName: string := "Sistema de Notificações"
  const DefaultUserName: string := "Cliente"
  const WelcomeSubject: string := "Bem-vindo ao nosso sistema!"

  /** The kinds a mail template exists for; `Other` kinds are not supported
      whatever their data. */
  predicate Supported(kind: NotificationType)
  {
    !kind.Other?
  }

  /** The data keys a notification kind needs before a message can be built. */
  function RequiredKeys(kind: NotificationType): set<string>
  {
    match kind
    case UserRegistration => {"UserEmail"}
    case OrderCreated => {"UserEmail", "OrderId"}
    case Other => {}
  }

  /** `t` occurs in `s` as a contiguous piece. */
  ghost predicate Contains(s: string, t: string)
  {
    exists p: string, q: string :: s == p + t + q
  }

  lemma ContainsMiddle(p: string, t: string, q: string)
    ensures Contains(p + t + q, t)
  {
  }

  /** The name the greeting uses: `UserName` when present, else "Cliente". */
  function GreetingName(data: map<string, string>): string
  {
    if "UserName" in data then data["UserName"] else DefaultUserName
  }

  function OrderSubject(orderId: string): string
  {
    "Pedido #" + orderId + " Criado"
  }

  /** The HTML bodies, without the whitespace (leading newline, line breaks
      and indentation) the source's verbatim literals carry between the tags. */
  const WelcomeHead: string := "<html><body><h2>Olá "
  const WelcomeTail: string :=
    "!</h2><p>Seu cadastro foi realizado com sucesso em nosso sistema.</p>"
    + "<p>Agora você pode aproveitar todos os nossos recursos.</p>"
    + "<br/><p>Atenciosamente,<br/>Equipe de Notificações</p></body></html>"
  const OrderHead: string := "<html><body><h2>Olá "
  const OrderMiddle: string := "!</h2><p>Seu pedido #"
  const OrderTail: string :=
    " foi criado com sucesso.</p>"
    + "<p>Acompanhe o status do seu pedido em nossa plataforma.</p>"
    + "<br/><p>Atenciosamente,<br/>Equipe de Notificações</p></body></html>"

  function WelcomeBody(userName: string): (body: string)
    ensures Contains(body, userName)
  {
    ContainsMiddle(WelcomeHead, userName, WelcomeTail);
    WelcomeHead + userName + WelcomeTail
  }

  function OrderBody(userName: string, orderId: string): (body: string)
    ensures Contains(body, userName) && Contains(body, orderId)
  {
    var head, tail := OrderHead + userName + OrderMiddle, OrderTail;
    ContainsMiddle(OrderHead, userName, OrderMiddle + orderId + OrderTail);
    assert OrderHead + userName + (OrderMiddle + orderId + OrderTail) == head + orderId + tail;
    ContainsMiddle(head, orderId, tail);
    head + orderId + tail
  }

  /** A text without carriage return or line feed: the only subjects the
      `MailMessage.Subject` setter accepts. */
  predicate SingleLine(s: string)
  {
    '\r' !in s && '\n' !in s
  }

  /** The order subject is a single line exactly when the order id is. */
  lemma OrderSubjectSingleLine(orderId: string)
    ensures SingleLine(OrderSubject(orderId)) <==> SingleLine(orderId)
  {
  }

  /** Whether `new MailAddress(senderEmail, ...)` and `To.Add(recipient)` both
      succeed. A null or empty sender and an empty recipient are always
      refused; `accepted` stands for the address grammar of the mail library. */
  predicate AddressesUsable(senderEmail: Option<string>, recipient: string, accepted: bool)
  {
    !IsNullOrEmpty(senderEmail) && recipient != "" && accepted
  }

  /** `CreateEmailMessage`: decides from the kind and the data whether a
      message can be built, and builds it. */
  function CreateEmailMessage(n: NotificationEvent, senderEmail: Option<string>, addressesAccepted: bool): (r: Composed)
    // a missing data map makes the first lookup throw
    ensures n.data.None? ==> r == Threw
    ensures n.data.Some? ==> (r.NoMessage? <==> !Supported(n.kind) || !(RequiredKeys(n.kind) <= n.data.value.Keys))
    ensures n.data.Some? && "UserEmail" !in n.data.value ==> r == NoMessage
    ensures n.data.Some? && n.kind.OrderCreated? && "OrderId" !in n.data.value ==> r == NoMessage
    ensures n.data.Some? && n.kind.Other? ==> r == NoMessage
    // the Subject setter refuses an order subject carrying the order id's line break
    ensures n.data.Some? && n.kind.OrderCreated? && RequiredKeys(n.kind) <= n.data.value.Keys ==>
              (!SingleLine(n.data.value["OrderId"]) ==> r == Threw)
    ensures r.Built? <==>
      n.data.Some? && Supported(n.kind) && RequiredKeys(n.kind) <= n.data.value.Keys
      && AddressesUsable(senderEmail, n.data.value["UserEmail"], addressesAccepted)
      && (n.kind.OrderCreated? ==> SingleLine(n.data.value["OrderId"]))
    ensures r.Built? ==>
      var d, m := n.data.value, r.message;
      && m.to == [d["UserEmail"]]
      && m.from == MailAddress(senderEmail.value, SenderDisplayName)
      && m.isBodyHtml
      && SingleLine(m.subject)
      && Contains(m.body, GreetingName(d))
      && (n.kind.UserRegistration? ==> m.subject == WelcomeSubject)
      && (n.kind.OrderCreated? ==> m.subject == OrderSubject(d["OrderId"]) && Contains(m.body, d["OrderId"]))
  {
    if n.data.None? then Threw
    else
      var data := n.data.value;
      if "UserEmail" !in data then NoMessage
      else
        var recipientEmail := data["UserEmail"];
        var userName := GreetingName(data);
        var content: Option<(string, string)> :=
          match n.kind
          case UserRegistration => Some((WelcomeSubject, WelcomeBody(userName)))
          case OrderCreated =>
            if "OrderId" !in data then None
            else
              (OrderSubjectSingleLine(data["OrderId"]);
               Some((OrderSubject(data["OrderId"]), OrderBody(userName, data["OrderId"]))))
          case Other => None;
        if content.None? then NoMessage
        // `new MailAddress` and the `Subject` setter both run before `To.Add`; each may throw
        else if !AddressesUsable(senderEmail, recipientEmail, addressesAccepted) || !SingleLine(content.value.0) then Threw
        else Built(MailMessage(MailAddress(senderEmail.value, SenderDisplayName), [recipientEmail],
                               content.value.0, content.value.1, true))
  }

  /** The `Email:*` configuration entries, each `None` when unset. */
  datatype EmailSettings = EmailSettings(
    smtpServer: Option<string>,
    smtpPort: Option<string>,
    username: Option<string>,
    password: Option<string>,
    senderEmail: Option<string>)

  /** What the foreign calls of one send do: `int.Parse` of the configured port
      text (`None` when it throws), whether `new SmtpClient` accepts the server
      and port, whether the mail library accepts the two addresses, and
      whether `SendMailAsync` completes. */
  datatype SmtpOutcomes = SmtpOutcomes(
    portParse: Option<int>,
    clientAccepted: bool,
    addressesAccepted: bool,
    sendCompleted: bool)

  /** Where a call of `SendEmailAsync` left off; only `Delivered` returns true. */
  datatype SendExit =
    | PortUnparsable
    | IncompleteSettings
    | ClientRefused
    | ComposeFault
    | Undeliverable
    | SendFault
    | Delivered(message: MailMessage)

  class EmailService {
    const configuration: EmailSettings

    constructor (configuration: EmailSettings)
      ensures this.configuration == configuration
    {
      this.configuration := configuration;
    }

    /** `SendEmailAsync`: true only once a built message has been sent; every
        guard that fails and every exception caught yields false. */
    method SendEmailAsync(n: NotificationEvent, smtp: SmtpOutcomes) returns (ok: bool, exit: SendExit)
      ensures ok <==> exit.Delivered?
      // the port is parsed first: a missing or malformed port fails before anything else
      ensures configuration.smtpPort.None? || smtp.portParse.None? ==> exit == PortUnparsable
      // incomplete settings fail before any client or message is built
      ensures configuration.smtpPort.Some? && smtp.portParse.Some?
              && (IsNullOrEmpty(configuration.smtpServer) || IsNullOrEmpty(configuration.username))
              ==> exit == IncompleteSettings
      ensures ok <==>
        && configuration.smtpPort.Some? && smtp.portParse.Some?
        && !IsNullOrEmpty(configuration.smtpServer) && !IsNullOrEmpty(configuration.username)
        && smtp.clientAccepted
        && CreateEmailMessage(n, configuration.senderEmail, smtp.addressesAccepted).Built?
        && smtp.sendCompleted
      ensures ok ==> exit.message == CreateEmailMessage(n, configuration.senderEmail, smtp.addressesAccepted).message
      ensures exit == Undeliverable <==>
        && configuration.smtpPort.Some? && smtp.portParse.Some?
        && !IsNullOrEmpty(configuration.smtpServer) && !IsNullOrEmpty(configuration.username)
        && smtp.clientAccepted
        && CreateEmailMessage(n, configuration.senderEmail, smtp.addressesAccepted).NoMessage?
    {
      var smtpServer := configuration.smtpServer;
      // int.Parse(null) throws as well
      var smtpPort := if configuration.smtpPort.None? then None else smtp.portParse;
      if smtpPort.None? {
        return false, PortUnparsable;
      }
      var smtpUsername := configuration.username;
      var senderEmail := configuration.senderEmail;

      if IsNullOrEmpty(smtpServer) || IsNullOrEmpty(smtpUsername) {
        return false, IncompleteSettings;
      }

      if !smtp.clientAccepted {
        return false, ClientRefused;
      }

      var mailMessage := CreateEmailMessage(n, senderEmail, smtp.addressesAccepted);
      match mailMessage {
        case Threw =>
          return false, ComposeFault;
        case NoMessage =>
          return false, Undeliverable;
        case Built(m) =>
          if !smtp.sendCompleted {
            return false, SendFault;
          }
          return true, Delivered(m);
      }
    }
  }
}
