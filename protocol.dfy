/** The values the session coordinator exchanges: the session status, the
    events the messaging client raises, the messages pushed to observers over
    the socket, and the replies of the HTTP command surface. */
module Protocol {
  import opened Wrappers

  /** The values `clientStatus` takes. */
  datatype Status = Disconnected | Qr | Authenticated | Ready | AuthFailure
  {
    /** The string stored in `clientStatus` and sent in `status` pushes. */
    function Name(): string
    {
      match this
      case Disconnected => "disconnected"
      case Qr => "qr"
      case Authenticated => "authenticated"
      case Ready => "ready"
      case AuthFailure => "auth_failure"
    }
  }

  /** Observers can tell every status from the string sent for it. */
  lemma NameInjective(a: Status, b: Status)
    ensures a.Name() == b.Name() <==> a == b
  {
  }

  /** A contact as returned by `msg.getContact()`; any field may be missing. */
  datatype Contact = Contact(pushname: Option<string>, name: Option<string>, number: Option<string>)

  /** The fields of a messaging-client message that the coordinator reads.
      `id` is `msg.id._serialized`; `author` is only set in group chats. */
  datatype WaMessage = WaMessage(
    from: string, to: string, author: Option<string>, body: string,
    timestamp: int, fromMe: bool, hasMedia: bool, msgType: string, id: string)

  /** An event raised by the messaging client, together with the outcome of
      the library call its handler makes: the rendered QR image (`None` when
      `qrcode.toDataURL` rejects) and the looked-up contact (`None` when
      `msg.getContact()` rejects). */
  datatype ClientEvent =
    | OnQr(code: string, image: Option<string>)
    | OnReady
    | OnAuthenticated
    | OnAuthFailure(failure: string)
    | OnDisconnected(reason: string)
    | OnLoadingScreen(percent: int, text: string)
    | OnMessage(msg: WaMessage, contact: Option<Contact>)
    | OnMessageCreate(msg: WaMessage, contact: Option<Contact>)
  {
    /** The message hooks; they never touch the session state. */
    predicate IsContent()
    {
      OnMessage? || OnMessageCreate?
    }
  }

  /** A message pushed to socket observers: its event name and JSON payload. */
  datatype Push =
    | StatusPush(status: Status)                               // 'status' {status}
    | QrPush(qr: Option<string>, qrString: string)             // 'qr' {qr, qrString}
    | AuthenticatedPush                                        // 'authenticated'
    | ReadyPush                                                // 'ready'
    | AuthFailurePush(message: string)                         // 'auth_failure' {message}
    | DisconnectedPush(reason: string)                         // 'disconnected' {reason}
    | LoadingPush(percent: int, message: string)               // 'loading' {percent, message}
    | MessageReceivedPush(
        from: string, author: Option<string>, contactId: Option<string>,
        contactName: Option<string>, body: string, timestamp: int, fromMe: bool,
        hasMedia: bool, msgType: string, isGroup: bool, id: string)
    | MessageSentPush(
        to: string, contactName: Option<string>, body: string, timestamp: int,
        hasMedia: bool, msgType: string, isGroup: bool, id: string)

  /** The reply of `GET /api/status`. */
  datatype StatusReply = StatusReply(status: Status, hasQr: bool)

  /** The reply of `POST /api/send-message`. */
  datatype SendReply =
    | Sent(messageId: string)          // 200 {success: true, message, messageId}
    | MissingFields                    // 400 {error}
    | NotConnected                     // 400 {error}
    | SendFailed(details: string)      // 500 {error, details}
  {
    /** The HTTP status code of the reply. */
    function Code(): (c: int)
      ensures c == 200 <==> Sent?
      ensures c == 400 <==> (MissingFields? || NotConnected?)
      ensures c == 500 <==> SendFailed?
    {
      match this
      case Sent(_) => 200
      case MissingFields => 400
      case NotConnected => 400
      case SendFailed(_) => 500
    }

    /** The `error` field of a failure reply, or the `message` field of a success. */
    function Text(): string
    {
      match this
      case Sent(_) => "Mensagem enviada com sucesso"
      case MissingFields => "Número e mensagem são obrigatórios"
      case NotConnected => "WhatsApp não está conectado"
      case SendFailed(_) => "Erro ao enviar mensagem"
    }
  }

  /** The two 400 replies of the send route carry different error texts, so
      a caller can tell missing fields from a session that is not connected. */
  lemma RejectionTextsDistinct(a: SendReply, b: SendReply)
    requires a.Code() == 400 && b.Code() == 400
    ensures a.Text() == b.Text() <==> a == b
  {
    assert MissingFields.Text()[0] != NotConnected.Text()[0];
  }

  /** The `message` of `POST /api/initialize` when it creates the client. */
  const InitializedText: string := "Cliente WhatsApp inicializado"
  /** The `message` of `POST /api/initialize` when a client already exists. */
  const AlreadyInitializedText: string := "Cliente já está inicializado"
}
