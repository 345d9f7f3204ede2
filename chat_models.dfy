/** The Chat and Message tables of the content app, as migration 0006
    creates them: columns, defaults, the unique (creator, subscriber) pair
    and the two default orderings. */
module ChatModels {
  import opened Base
  import opened Query
  import opened Ordering

  datatype Chat = Chat(id: nat, creator: nat, subscriber: nat, isActive: bool, createdAt: int, updatedAt: int)

  /** A message belongs to exactly one chat and has exactly one sender: both
      are non-null foreign keys. */
  datatype Message = Message(id: nat, chat: nat, sender: nat, content: string, createdAt: int, isRead: bool)

  function ChatPair(c: Chat): (nat, nat) { (c.creator, c.subscriber) }

  function ChatIdOf(c: Chat): nat { c.id }

  function MessageIdOf(m: Message): nat { m.id }

  predicate ChatsValid(chats: seq<Chat>, nextId: nat)
  {
    && KeyUnique(chats, ChatPair)
    && KeyUnique(chats, ChatIdOf)
    && forall i :: 0 <= i < |chats| ==> chats[i].id < nextId
  }

  predicate IsChat(chats: seq<Chat>, id: nat)
  {
    exists i :: 0 <= i < |chats| && chats[i].id == id
  }

  predicate MessagesValid(messages: seq<Message>, nextId: nat)
  {
    && KeyUnique(messages, MessageIdOf)
    && forall i :: 0 <= i < |messages| ==> messages[i].id < nextId
  }

  /** The row Chat.objects.create(creator=, subscriber=) writes. */
  function ChatRow(id: nat, creator: nat, subscriber: nat, now: int): (c: Chat)
    ensures c.isActive
    ensures c.createdAt == now && c.updatedAt == now
    ensures ChatPair(c) == (creator, subscriber)
  {
    Chat(id, creator, subscriber, true, now, now)
  }

  /** Chat.objects.create(...) under unique_together (creator, subscriber). */
  function CreateChat(chats: seq<Chat>, id: nat, creator: nat, subscriber: nat, now: int): (r: Option<seq<Chat>>)
    ensures r.None? <==> exists i :: 0 <= i < |chats| && ChatPair(chats[i]) == (creator, subscriber)
    ensures r.Some? ==> r.value == chats + [ChatRow(id, creator, subscriber, now)]
    ensures r.Some? && ChatsValid(chats, id) ==> ChatsValid(r.value, id + 1)
  {
    var row := ChatRow(id, creator, subscriber, now);
    var r := InsertUnique(chats, row, ChatPair);
    if r.Some? && ChatsValid(chats, id) then
      assert forall i, j :: 0 <= i < j < |r.value| ==> r.value[i].id != r.value[j].id by {
        forall i, j | 0 <= i < j < |r.value| ensures r.value[i].id != r.value[j].id {
          if j == |chats| { assert r.value[i].id < id; }
        }
      }
      r
    else r
  }

  /** The constraint is on the ordered pair: once a chat with A as creator
      and B as subscriber is created, one with B as creator and A as
      subscriber can still be created, provided that pair was free. */
  lemma ReversedPairIsDistinct(chats: seq<Chat>, id: nat, id2: nat, a: nat, b: nat, now: int)
    requires a != b
    requires forall i :: 0 <= i < |chats| ==> ChatPair(chats[i]) != (a, b) && ChatPair(chats[i]) != (b, a)
    ensures var first := CreateChat(chats, id, a, b, now);
      first.Some? && CreateChat(first.value, id2, b, a, now).Some?
  {
    var first := CreateChat(chats, id, a, b, now);
    assert first.value == chats + [ChatRow(id, a, b, now)];
    assert forall i :: 0 <= i < |first.value| ==> ChatPair(first.value[i]) != (b, a) by {
      forall i | 0 <= i < |first.value| ensures ChatPair(first.value[i]) != (b, a) {
        if i < |chats| { assert first.value[i] == chats[i]; }
      }
    }
  }

  /** The row Message.objects.create(chat=, sender=, content=) writes. */
  function MessageRow(id: nat, chat: nat, sender: nat, content: string, now: int): (m: Message)
    ensures !m.isRead
    ensures m.chat == chat && m.sender == sender && m.content == content && m.createdAt == now
  {
    Message(id, chat, sender, content, now, false)
  }

  function MessageCreatedAt(m: Message): int { m.createdAt }

  function ChatUpdatedAt(c: Chat): int { c.updatedAt }

  /** chat.messages.all(): one chat's messages, oldest first. */
  function MessagesOf(messages: seq<Message>, chatId: nat): (r: seq<Message>)
    ensures SortedAsc(r, MessageCreatedAt)
    ensures forall m :: m in r <==> m in messages && m.chat == chatId
  {
    var own := Filter(messages, (m: Message) => m.chat == chatId);
    var r := SortAsc(own, MessageCreatedAt);
    SortedMembers(own, r);
    r
  }

  /** Chat.objects.all(): most recently updated first. */
  function ChatListing(chats: seq<Chat>): (r: seq<Chat>)
    ensures SortedDesc(r, ChatUpdatedAt)
    ensures multiset(r) == multiset(chats)
  {
    SortDesc(chats, ChatUpdatedAt)
  }
}
