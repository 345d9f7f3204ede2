/** The chat WebSocket consumer and the part of the channel layer it uses:
    named groups of channels, and a queue of delivered events per channel.
    Each consumer call runs to completion before the next one starts. */
module ChatConsumer {
  import opened Base
  import opened Query
  import opened Users
  import opened ChatModels
  import opened Db

  /** f'chat_{chat_id}' */
  function RoomName(chatId: string): (r: string)
    ensures |r| == 5 + |chatId| && r[..5] == "chat_" && r[5..] == chatId
  {
    "chat_" + chatId
  }

  /** Different chats never share a room. */
  lemma RoomNameInjective(a: string, b: string)
    requires RoomName(a) == RoomName(b)
    ensures a == b
  {
    assert a == RoomName(a)[5..];
  }

  /** The channels of a group; a group nobody joined is empty. */
  function Members(groups: map<string, set<string>>, group: string): set<string>
  {
    if group in groups then groups[group] else {}
  }

  /** group_add(group, channel) */
  function AddMember(groups: map<string, set<string>>, group: string, channel: string): (r: map<string, set<string>>)
    ensures Members(r, group) == Members(groups, group) + {channel}
    ensures forall g :: g != group ==> Members(r, g) == Members(groups, g)
  {
    groups[group := Members(groups, group) + {channel}]
  }

  /** group_discard(group, channel) */
  function RemoveMember(groups: map<string, set<string>>, group: string, channel: string): (r: map<string, set<string>>)
    ensures Members(r, group) == Members(groups, group) - {channel}
    ensures forall g :: g != group ==> Members(r, g) == Members(groups, g)
  {
    groups[group := Members(groups, group) - {channel}]
  }

  /** Joining and then leaving a group one was not in leaves every group as
      it was. */
  lemma JoinThenLeave(groups: map<string, set<string>>, group: string, channel: string)
    requires channel !in Members(groups, group)
    ensures forall g :: Members(RemoveMember(AddMember(groups, group, channel), group, channel), g) == Members(groups, g)
  {
    var after := RemoveMember(AddMember(groups, group, channel), group, channel);
    assert Members(after, group) == Members(groups, group);
  }

  /** The group event receive publishes. */
  datatype ChatEvent = ChatEvent(kind: string, message: string, userId: string, username: string)

  /** The JSON frame chat_message writes to the socket. */
  datatype Frame = Frame(message: string, userId: string, username: string)

  function Queue(inbox: map<string, seq<ChatEvent>>, channel: string): seq<ChatEvent>
  {
    if channel in inbox then inbox[channel] else []
  }

  /** group_send(group, event): every member channel, and no other, gets the
      event at the end of its queue. */
  function Deliver(inbox: map<string, seq<ChatEvent>>, members: set<string>, e: ChatEvent): (r: map<string, seq<ChatEvent>>)
    ensures forall c :: c in members ==> Queue(r, c) == Queue(inbox, c) + [e]
    ensures forall c :: c !in members ==> Queue(r, c) == Queue(inbox, c)
  {
    map c | c in inbox.Keys + members :: if c in members then Queue(inbox, c) + [e] else inbox[c]
  }

  /** The channel layer shared by all consumers. */
  class ChannelLayer {
    var groups: map<string, set<string>>
    var inbox: map<string, seq<ChatEvent>>

    constructor ()
      ensures groups == map[] && inbox == map[]
    {
      groups := map[];
      inbox := map[];
    }

    method GroupAdd(group: string, channel: string)
      modifies this`groups
      ensures groups == AddMember(old(groups), group, channel)
    {
      groups := AddMember(groups, group, channel);
    }

    method GroupDiscard(group: string, channel: string)
      modifies this`groups
      ensures groups == RemoveMember(old(groups), group, channel)
    {
      groups := RemoveMember(groups, group, channel);
    }

    method GroupSend(group: string, e: ChatEvent)
      modifies this`inbox
      ensures inbox == Deliver(old(inbox), Members(groups, group), e)
    {
      inbox := Deliver(inbox, Members(groups, group), e);
    }
  }

  /** The text frame a client sends, after json.loads: malformed, or an
      object whose `message` and `user_id` keys may be missing. */
  datatype Inbound = Malformed | Payload(message: Option<string>, userId: Option<string>)

  /** Chat.objects.get(id=self.chat_id) for the id taken from the URL. */
  function ChatByRouteId(chats: seq<Chat>, chatId: string): (r: Option<nat>)
    requires KeyUnique(chats, ChatIdOf)
    ensures r.Some? <==> ParseId(chatId).Some? && IsChat(chats, ParseId(chatId).value)
    ensures r.Some? ==> r.value < |chats| && chats[r.value].id == ParseId(chatId).value
  {
    match ParseId(chatId)
    case None => None
    case Some(id) =>
      var l := Get(chats, (c: Chat) => ChatIdOf(c) == id);
      if l.Found? then Some(l.index)
      else if l.DoesNotExist? then None
      else
        assert false;
        None
  }

  /** What happened to a received frame: saved and published, or an
      exception that ends the handler (and closes the socket). */
  datatype ReceiveOutcome = Published(e: ChatEvent) | Raised

  class ChatConsumer {
    const channelName: string
    var chatId: string
    var roomGroupName: string
    var accepted: bool
    var sent: seq<Frame>

    constructor (channelName: string)
      ensures this.channelName == channelName && !accepted && sent == []
    {
      this.channelName := channelName;
      chatId, roomGroupName := "", "";
      accepted := false;
      sent := [];
    }

    /** connect(): join the room of the chat named in the URL, then accept;
        nothing is checked first. */
    method Connect(layer: ChannelLayer, routeChatId: string)
      modifies this, layer`groups
      ensures chatId == routeChatId && roomGroupName == RoomName(routeChatId)
      ensures layer.groups == AddMember(old(layer.groups), RoomName(routeChatId), channelName)
      ensures accepted && sent == old(sent)
    {
      chatId := routeChatId;
      roomGroupName := RoomName(chatId);
      layer.GroupAdd(roomGroupName, channelName);
      accepted := true;
    }

    /** disconnect(close_code): leave the room; the other members stay. */
    method Disconnect(layer: ChannelLayer, closeCode: int)
      modifies layer`groups
      ensures layer.groups == RemoveMember(old(layer.groups), roomGroupName, channelName)
    {
      layer.GroupDiscard(roomGroupName, channelName);
    }

    /** receive(text_data): save the message as sent by the `user_id` the
        client names, in this consumer's chat, then publish it with the
        sender's username to the whole room. */
    method Receive(layer: ChannelLayer, db: Database, textData: Inbound, now: int) returns (outcome: ReceiveOutcome)
      requires db.Valid()
      modifies layer`inbox, db`messages, db`nextId
      ensures db.Valid()
      ensures outcome.Raised? ==>
        db.messages == old(db.messages) && db.nextId == old(db.nextId) && layer.inbox == old(layer.inbox)
      ensures outcome.Published? <==>
        && textData.Payload? && textData.message.Some? && textData.userId.Some?
        && LookupById(db.users, textData.userId.value).Some?
        && ChatByRouteId(db.chats, chatId).Some?
      ensures outcome.Published? ==>
        var sender := db.users[LookupById(db.users, textData.userId.value).value];
        var chat := db.chats[ChatByRouteId(db.chats, chatId).value];
        && db.messages == old(db.messages) + [MessageRow(old(db.nextId), chat.id, sender.id, textData.message.value, now)]
        && db.nextId == old(db.nextId) + 1
        && outcome.e == ChatEvent("chat_message", textData.message.value, textData.userId.value, sender.username)
        && layer.inbox == Deliver(old(layer.inbox), Members(layer.groups, roomGroupName), outcome.e)
    {
      if !textData.Payload? || textData.message.None? || textData.userId.None? {
        return Raised;
      }
      var message, userId := textData.message.value, textData.userId.value;
      var u := LookupById(db.users, userId);
      var c := ChatByRouteId(db.chats, chatId);
      if u.None? || c.None? {
        return Raised;
      }
      SaveMessage(db, db.users[u.value].id, db.chats[c.value].id, message, now);
      var e := ChatEvent("chat_message", message, userId, db.users[u.value].username);
      layer.GroupSend(roomGroupName, e);
      outcome := Published(e);
    }

    /** chat_message(event): relay the event's three fields to the socket
        unchanged. */
    method ChatMessage(e: ChatEvent)
      modifies this`sent
      ensures sent == old(sent) + [Frame(e.message, e.userId, e.username)]
    {
      sent := sent + [Frame(e.message, e.userId, e.username)];
    }
  }

  /** save_message: Message.objects.create(chat=, sender=, content=). */
  method SaveMessage(db: Database, sender: nat, chat: nat, content: string, now: int)
    requires db.Valid() && IsUser(db.users, sender) && IsChat(db.chats, chat)
    modifies db`messages, db`nextId
    ensures db.Valid()
    ensures db.messages == old(db.messages) + [MessageRow(old(db.nextId), chat, sender, content, now)]
    ensures db.nextId == old(db.nextId) + 1
  {
    var t := db.messages + [MessageRow(db.nextId, chat, sender, content, now)];
    forall a, b | 0 <= a < b < |t| ensures t[a].id != t[b].id {
      if b == |db.messages| { assert t[a].id < db.nextId; }
    }
    db.messages := t;
    db.nextId := db.nextId + 1;
  }

  /** After connect, the sender's own channel is in the room, so a published
      message comes back to it as well. */
  lemma SenderGetsEcho(groups: map<string, set<string>>, inbox: map<string, seq<ChatEvent>>, chatId: string,
                       channel: string, e: ChatEvent)
    ensures var joined := AddMember(groups, RoomName(chatId), channel);
      Queue(Deliver(inbox, Members(joined, RoomName(chatId)), e), channel) == Queue(inbox, channel) + [e]
  {
  }
}
