/** How the `message` and `message_create` hooks attribute a message to a
    contact and turn it into an observer push (server.js:101-160). */
module Attribution {
  import opened Wrappers
  import opened JsStrings
  import opened Protocol

  /** The suffix of group chat ids. */
  const GroupSuffix: string := "@g.us"

  /** A chat id names a group chat exactly when it ends with `@g.us`. */
  predicate IsGroupChat(chatId: string)
  {
    EndsWith(chatId, GroupSuffix)
  }

  /** The real sender of a received message: the author in a group chat
      (possibly missing), the chat itself otherwise. */
  function ContactId(m: WaMessage): (id: Option<string>)
    ensures IsGroupChat(m.from) ==> id == m.author
    ensures !IsGroupChat(m.from) ==> id == Some(m.from)
  {
    if IsGroupChat(m.from) then m.author else Some(m.from)
  }

  /** `contact.pushname || contact.name || contact.number`, or `null` when the
      lookup rejected. JavaScript's `||` yields the first truthy operand, and
      the last operand as it is when none is truthy. */
  function ContactName(lookup: Option<Contact>): (name: Option<string>)
    ensures lookup.None? ==> name.None?
    ensures lookup.Some? ==>
      (Truthy(name) <==> Truthy(lookup.value.pushname) || Truthy(lookup.value.name) || Truthy(lookup.value.number))
    ensures lookup.Some? ==> name in {lookup.value.pushname, lookup.value.name, lookup.value.number}
    ensures lookup.Some? && Truthy(lookup.value.pushname) ==> name == lookup.value.pushname
    ensures lookup.Some? && !Truthy(lookup.value.pushname) && Truthy(lookup.value.name) ==> name == lookup.value.name
    ensures lookup.Some? && !Truthy(lookup.value.pushname) && !Truthy(lookup.value.name) ==> name == lookup.value.number
  {
    match lookup
    case None => None
    case Some(c) =>
      if Truthy(c.pushname) then c.pushname
      else if Truthy(c.name) then c.name
      else c.number
  }

  /** The `message_received` push for an incoming message. */
  function ReceivedPush(m: WaMessage, lookup: Option<Contact>): (p: Push)
    ensures p.MessageReceivedPush?
    ensures p.isGroup <==> EndsWith(m.from, GroupSuffix)
    ensures p.isGroup ==> p.contactId == m.author
    ensures !p.isGroup ==> p.contactId == Some(m.from)
    ensures p.contactName == ContactName(lookup)
    ensures p.from == m.from && p.author == m.author && p.body == m.body && p.id == m.id
    ensures p.timestamp == m.timestamp && p.fromMe == m.fromMe && p.hasMedia == m.hasMedia && p.msgType == m.msgType
  {
    MessageReceivedPush(
      m.from, m.author, ContactId(m), ContactName(lookup), m.body, m.timestamp,
      m.fromMe, m.hasMedia, m.msgType, IsGroupChat(m.from), m.id)
  }

  /** The `message_sent` pushes for a created message: one for a message this
      account sent, none for any other. Group detection uses the recipient. */
  function SentPushes(m: WaMessage, lookup: Option<Contact>): (ps: seq<Push>)
    ensures !m.fromMe <==> ps == []
    ensures m.fromMe ==> |ps| == 1 && ps[0].MessageSentPush?
    ensures m.fromMe ==> ps[0].isGroup == EndsWith(m.to, GroupSuffix) && ps[0].contactName == ContactName(lookup)
    ensures m.fromMe ==> ps[0].to == m.to && ps[0].body == m.body && ps[0].id == m.id
    ensures m.fromMe ==> ps[0].timestamp == m.timestamp && ps[0].hasMedia == m.hasMedia && ps[0].msgType == m.msgType
  {
    if m.fromMe then
      [MessageSentPush(
        m.to, ContactName(lookup), m.body, m.timestamp, m.hasMedia, m.msgType,
        IsGroupChat(m.to), m.id)]
    else []
  }
}
