/** The session coordinator of server.js as the source runs it: the
    module-level `clientStatus`, `qrCodeData` and `whatsappClient` become the
    fields of one object, each client event handler and HTTP route a method
    that updates them in place, and `io.emit` an append to `outbox`, the
    sequence of pushes every connected observer receives in order. */
module Server {
  import opened Wrappers
  import opened JsStrings
  import opened Protocol
  import opened Attribution
  import opened Recipient
  import opened SessionSpec

  class Coordinator {
    var status: Status
    var qr: Option<string>
    var clientPresent: bool
    var outbox: seq<Push>

    /** The session state the fields hold. */
    function State(): Session
      reads this
    {
      Session(status, qr, clientPresent)
    }

    ghost predicate Valid()
      reads this
    {
      Coherent(State())
    }

    /** Process start (server.js:32-34): no client, no QR, status `disconnected`. */
    constructor ()
      ensures Valid() && State() == Initial && outbox == []
    {
      status, qr, clientPresent, outbox := Disconnected, None, false, [];
    }

    /** `initializeWhatsApp` behind `POST /api/initialize` (server.js:36-42, 174-181):
        creates the client only when the slot is empty and answers which of
        the two happened; starting the client is asynchronous and changes
        nothing here. */
    method Initialize() returns (text: string)
      requires Valid()
      modifies this
      ensures Valid()
      ensures old(clientPresent) ==> text == AlreadyInitializedText && unchanged(this)
      ensures !old(clientPresent) ==> text == InitializedText && clientPresent
      ensures status == old(status) && qr == old(qr) && outbox == old(outbox)
    {
      if !clientPresent {
        clientPresent := true;
        text := InitializedText;
      } else {
        text := AlreadyInitializedText;
      }
    }

    /** The `qr` handler (server.js:50-63), from any state: stores the code,
        sets status `qr` and pushes one `qr` message carrying the raw code and
        the rendered image, or a null image when rendering failed. */
    method HandleQr(code: string, image: Option<string>)
      requires Valid()
      modifies this
      ensures Valid()
      ensures status == Qr && qr == Some(code) && clientPresent == old(clientPresent)
      ensures outbox == old(outbox) + [QrPush(image, code)]
    {
      qr := Some(code);
      status := Qr;
      outbox := outbox + [QrPush(image, code)];
    }

    /** The `ready` handler (server.js:65-71): status `ready`, QR cleared,
        pushes `ready` then `status`. */
    method HandleReady()
      requires Valid()
      modifies this
      ensures Valid()
      ensures status == Ready && qr == None && clientPresent == old(clientPresent)
      ensures outbox == old(outbox) + [ReadyPush, StatusPush(Ready)]
    {
      status := Ready;
      qr := None;
      outbox := outbox + [ReadyPush];
      outbox := outbox + [StatusPush(Ready)];
    }

    /** The `authenticated` handler (server.js:73-78): sets the status and
        leaves the stored QR as it was. */
    method HandleAuthenticated()
      requires Valid()
      modifies this
      ensures Valid()
      ensures status == Authenticated && qr == old(qr) && clientPresent == old(clientPresent)
      ensures outbox == old(outbox) + [AuthenticatedPush, StatusPush(Authenticated)]
    {
      status := Authenticated;
      outbox := outbox + [AuthenticatedPush];
      outbox := outbox + [StatusPush(Authenticated)];
    }

    /** The `auth_failure` handler (server.js:80-85): sets the status, leaves
        the stored QR, and relays the failure message. */
    method HandleAuthFailure(failure: string)
      requires Valid()
      modifies this
      ensures Valid()
      ensures status == AuthFailure && qr == old(qr) && clientPresent == old(clientPresent)
      ensures outbox == old(outbox) + [AuthFailurePush(failure), StatusPush(AuthFailure)]
    {
      status := AuthFailure;
      outbox := outbox + [AuthFailurePush(failure)];
      outbox := outbox + [StatusPush(AuthFailure)];
    }

    /** The `disconnected` handler (server.js:87-94): status `disconnected`,
        QR cleared, pushes `disconnected` then `status`, and empties the client
        slot so that a later initialize creates a new client. */
    method HandleDisconnected(reason: string)
      requires Valid()
      modifies this
      ensures Valid()
      ensures status == Disconnected && qr == None && !clientPresent
      ensures outbox == old(outbox) + [DisconnectedPush(reason), StatusPush(Disconnected)]
    {
      status := Disconnected;
      qr := None;
      outbox := outbox + [DisconnectedPush(reason)];
      outbox := outbox + [StatusPush(Disconnected)];
      clientPresent := false;
    }

    /** The `loading_screen` handler (server.js:96-99): relays the progress
        and changes neither the status nor the QR. */
    method HandleLoadingScreen(percent: int, text: string)
      requires Valid()
      modifies this
      ensures Valid()
      ensures State() == old(State())
      ensures outbox == old(outbox) + [LoadingPush(percent, text)]
    {
      outbox := outbox + [LoadingPush(percent, text)];
    }

    /** The `message` handler (server.js:101-131): one `message_received` push
        for every incoming message, attributed to its real sender. */
    method HandleMessage(m: WaMessage, lookup: Option<Contact>)
      requires Valid()
      modifies this
      ensures Valid()
      ensures State() == old(State())
      ensures outbox == old(outbox) + [ReceivedPush(m, lookup)]
    {
      var isGroup := EndsWith(m.from, GroupSuffix);
      var contactId := if isGroup then m.author else Some(m.from);
      var contactName := ContactName(lookup);
      outbox := outbox + [MessageReceivedPush(
        m.from, m.author, contactId, contactName, m.body, m.timestamp,
        m.fromMe, m.hasMedia, m.msgType, isGroup, m.id)];
    }

    /** The `message_create` handler (server.js:133-160): a `message_sent`
        push for a message this account sent, nothing for any other. */
    method HandleMessageCreate(m: WaMessage, lookup: Option<Contact>)
      requires Valid()
      modifies this
      ensures Valid()
      ensures State() == old(State())
      ensures outbox == old(outbox) + SentPushes(m, lookup)
    {
      if m.fromMe {
        var isGroup := EndsWith(m.to, GroupSuffix);
        outbox := outbox + [MessageSentPush(
          m.to, ContactName(lookup), m.body, m.timestamp, m.hasMedia, m.msgType, isGroup, m.id)];
      }
    }

    /** The client delivering one event to the handler registered for it:
        the handlers together do what the state machine `Step` says. */
    method Dispatch(e: ClientEvent)
      requires Valid()
      modifies this
      ensures Valid()
      ensures State() == Step(old(State()), e).next
      ensures outbox == old(outbox) + Step(old(State()), e).emitted
    {
      match e
      case OnQr(code, image) => HandleQr(code, image);
      case OnReady => HandleReady();
      case OnAuthenticated => HandleAuthenticated();
      case OnAuthFailure(failure) => HandleAuthFailure(failure);
      case OnDisconnected(reason) => HandleDisconnected(reason);
      case OnLoadingScreen(percent, text) => HandleLoadingScreen(percent, text);
      case OnMessage(m, lookup) => HandleMessage(m, lookup);
      case OnMessageCreate(m, lookup) => HandleMessageCreate(m, lookup);
    }

    /** `GET /api/status` (server.js:167-172): the current status and whether
        a QR is stored (JavaScript truthiness: an empty code counts as none). */
    method QueryStatus() returns (reply: StatusReply)
      requires Valid()
      ensures reply.status == status
      ensures reply.hasQr <==> qr.Some? && qr.value != ""
      ensures status == Ready || status == Disconnected ==> !reply.hasQr
    {
      reply := StatusReply(status, Truthy(qr));
    }

    /** `io.on('connection')` (server.js:217-228): what a newly connected
        socket is sent, given the outcome of rendering the stored QR. */
    method Resync(image: Option<string>) returns (sent: seq<Push>)
      ensures sent == ResyncPushes(State(), image)
    {
      sent := [StatusPush(status)];
      if Truthy(qr) && status == Qr {
        sent := sent + [QrPush(image, qr.value)];
      }
    }

    /** `POST /api/send-message` (server.js:183-215). `delivery` is what the
        client's `sendMessage` resolves to (the new message's id) or rejects
        with (the error message); `dispatched` is the call made to the
        client, if any: the chat id and the text. */
    method SendMessage(phone: Option<string>, message: Option<string>, delivery: Result<string, string>)
      returns (reply: SendReply, dispatched: Option<(string, string)>)
      ensures !Truthy(phone) || !Truthy(message) ==> reply == MissingFields
      ensures Truthy(phone) && Truthy(message) && (!clientPresent || status != Ready) ==> reply == NotConnected
      ensures Truthy(phone) && Truthy(message) && clientPresent && status == Ready ==>
        dispatched == Some((ChatId(phone.value), message.value))
      ensures reply.Code() == 400 <==> dispatched == None
      ensures dispatched.Some? ==>
        dispatched == Some((ChatId(phone.value), message.value)) && Includes(dispatched.value.0, ContactSuffix)
      ensures dispatched.Some? && delivery.Success? ==> reply == Sent(delivery.value)
      ensures dispatched.Some? && delivery.Failure? ==> reply == SendFailed(delivery.error)
    {
      if !Truthy(phone) || !Truthy(message) {
        return MissingFields, None;
      }
      if !clientPresent || status != Ready {
        return NotConnected, None;
      }
      var chatId := ChatId(phone.value);
      dispatched := Some((chatId, message.value));
      match delivery
      case Success(id) => reply := Sent(id);
      case Failure(details) => reply := SendFailed(details);
    }
  }

  /** A fresh process: the status query reports `disconnected` without a QR;
      initialize creates the client; once the client issues a QR the query
      reports status `qr` with a QR, and every observer has received it. */
  method FreshSessionScenario(code: string, image: Option<string>)
    returns (before: StatusReply, text: string, after: StatusReply, pushed: seq<Push>)
    requires code != ""
    ensures before == StatusReply(Disconnected, false)
    ensures text == InitializedText
    ensures after == StatusReply(Qr, true)
    ensures pushed == [QrPush(image, code)]
  {
    var c := new Coordinator();
    before := c.QueryStatus();
    text := c.Initialize();
    c.HandleQr(code, image);
    after := c.QueryStatus();
    pushed := c.outbox;
  }

  /** Initialize twice creates one client; after a disconnection initialize
      creates a new one. */
  method InitializeScenario() returns (first: string, second: string, third: string)
    ensures first == InitializedText && second == AlreadyInitializedText && third == InitializedText
  {
    var c := new Coordinator();
    first := c.Initialize();
    second := c.Initialize();
    c.HandleDisconnected("LOGOUT");
    third := c.Initialize();
  }
}
