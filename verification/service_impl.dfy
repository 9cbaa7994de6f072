/**
  The services of package service.impl: the chat-room resolver whose hit
  answers the record's chatId, and the chat-message service built on it.
  The repositories are in-memory tables held by the services.
 */
module ServiceImpl {
  import opened Documents
  import opened ChatRooms

  /**
    getChatRoomId as a function of the room table: the chatId of the record
    stored under (senderId, recipientId); on a miss, with creation enabled,
    the id senderId_recipientId and the table with the mirrored pair added.
   */
  function ResolveChatId(rooms: seq<ChatRoom>, senderId: string, recipientId: string, createNewRoomIfNotExists: bool): (res: Resolution)
    ensures createNewRoomIfNotExists ==> res.chatId.Some?
    ensures NoRoomFor(rooms, senderId, recipientId) && !createNewRoomIfNotExists ==> res == Resolution(None, rooms)
    ensures NoRoomFor(rooms, senderId, recipientId) && createNewRoomIfNotExists ==>
      res == Resolution(Some(ChatIdOf(senderId, recipientId)), WithRoomPair(rooms, senderId, recipientId))
  {
    match FindRoom(rooms, senderId, recipientId)
    case Some(room) => Resolution(Some(room.chatId), rooms)
    case None =>
      if createNewRoomIfNotExists then Resolution(Some(ChatIdOf(senderId, recipientId)), WithRoomPair(rooms, senderId, recipientId))
      else Resolution(None, rooms)
  }

  /** A hit answers the chatId of the record stored under the key, whatever the flag, and stores nothing. */
  lemma ResolveChatIdHit(rooms: seq<ChatRoom>, i: int, createNewRoomIfNotExists: bool)
    requires Valid(rooms)
    requires 0 <= i < |rooms|
    ensures ResolveChatId(rooms, rooms[i].senderId, rooms[i].recipientId, createNewRoomIfNotExists)
         == Resolution(Some(rooms[i].chatId), rooms)
  {
    FindRoomUnique(rooms, i);
  }

  /** Every call keeps the room table valid. */
  lemma ResolveChatIdValid(rooms: seq<ChatRoom>, senderId: string, recipientId: string, createNewRoomIfNotExists: bool)
    requires Valid(rooms)
    requires createNewRoomIfNotExists ==> senderId != recipientId
    ensures Valid(ResolveChatId(rooms, senderId, recipientId, createNewRoomIfNotExists).rooms)
  {
    if NoRoomFor(rooms, senderId, recipientId) && createNewRoomIfNotExists {
      WithRoomPairValid(rooms, senderId, recipientId);
    }
  }

  /**
    Symmetry: once (a, b) has been resolved with creation enabled, resolving
    (b, a) answers the same conversation id and stores nothing.
   */
  lemma ResolveChatIdSymmetric(rooms: seq<ChatRoom>, a: string, b: string, createNewRoomIfNotExists: bool)
    requires Valid(rooms)
    requires a != b
    ensures var first := ResolveChatId(rooms, a, b, true);
            ResolveChatId(first.rooms, b, a, createNewRoomIfNotExists) == Resolution(first.chatId, first.rooms)
  {
    var first := ResolveChatId(rooms, a, b, true);
    ResolveChatIdValid(rooms, a, b, true);
    if NoRoomFor(rooms, a, b) {
      WithRoomPairValid(rooms, a, b);
    } else {
      LookupSymmetric(rooms, a, b);
    }
    assert LookupChatId(first.rooms, b, a) == first.chatId by {
      LookupSymmetric(first.rooms, a, b);
    }
  }

  /** Idempotence: resolving (a, b) again answers the same id and stores nothing. */
  lemma ResolveChatIdIdempotent(rooms: seq<ChatRoom>, a: string, b: string, createNewRoomIfNotExists: bool)
    requires Valid(rooms)
    requires a != b
    ensures var first := ResolveChatId(rooms, a, b, true);
            ResolveChatId(first.rooms, a, b, createNewRoomIfNotExists) == Resolution(first.chatId, first.rooms)
  {
    if NoRoomFor(rooms, a, b) {
      WithRoomPairValid(rooms, a, b);
    }
  }

  /** findByChatId: the stored messages of one conversation, in insertion order. */
  function FindByChatId(messages: seq<ChatMessage>, chatId: string): (found: seq<ChatMessage>)
    ensures |found| <= |messages|
    ensures forall m :: m in found <==> m in messages && m.chatId == Some(chatId)
  {
    if messages == [] then []
    else
      var rest := FindByChatId(messages[..|messages| - 1], chatId);
      var last := messages[|messages| - 1];
      assert messages == messages[..|messages| - 1] + [last];
      if last.chatId == Some(chatId) then rest + [last] else rest
  }

  /** Appending a message extends its conversation, in order, and no other conversation. */
  lemma FindByChatIdAppend(messages: seq<ChatMessage>, m: ChatMessage, chatId: string)
    ensures FindByChatId(messages + [m], chatId)
         == FindByChatId(messages, chatId) + (if m.chatId == Some(chatId) then [m] else [])
  {
    assert (messages + [m])[..|messages|] == messages;
  }

  /** findChatMessages: the conversation's messages, or none when no room exists; never creates a room. */
  function ChatHistory(rooms: seq<ChatRoom>, messages: seq<ChatMessage>, senderId: string, recipientId: string): (history: seq<ChatMessage>)
    ensures NoRoomFor(rooms, senderId, recipientId) ==> history == []
    ensures !NoRoomFor(rooms, senderId, recipientId) ==>
      forall m :: m in history <==> m in messages && m.chatId == LookupChatId(rooms, senderId, recipientId)
  {
    match ResolveChatId(rooms, senderId, recipientId, false).chatId
    case Some(chatId) => FindByChatId(messages, chatId)
    case None => []
  }

  /** What save leaves behind: the stored message and both tables. */
  datatype Saved = Saved(stored: ChatMessage, rooms: seq<ChatRoom>, messages: seq<ChatMessage>)

  /** The message repository's save: a message without an id gets the next generated id. */
  function WithGeneratedId(messages: seq<ChatMessage>, m: ChatMessage): (stored: ChatMessage)
    ensures stored.id.Some?
    ensures m.id.Some? ==> stored == m
    ensures stored == m.(id := stored.id)
  {
    if m.id.None? then m.(id := Some(ObjectId(|messages|))) else m
  }

  /**
    save as a function of the tables: resolve the room with creation
    enabled, stamp the chatId on the message and append it.
   */
  function SaveMessage(rooms: seq<ChatRoom>, messages: seq<ChatMessage>, m: ChatMessage): (out: Saved)
    ensures out.stored.id.Some? && (m.id.Some? ==> out.stored.id == m.id)
    ensures var res := ResolveChatId(rooms, m.senderId, m.recipientId, true);
            out.rooms == res.rooms && out.stored.chatId == res.chatId
    ensures out.stored.senderId == m.senderId && out.stored.recipientId == m.recipientId
    ensures out.stored.content == m.content
    ensures out.messages == messages + [out.stored]
  {
    var res := ResolveChatId(rooms, m.senderId, m.recipientId, true);
    var stamped := m.(chatId := Some(res.chatId.value));
    var stored := WithGeneratedId(messages, stamped);
    Saved(stored, res.rooms, messages + [stored])
  }

  /** The stored message's chatId is the one the resolver answers afterwards, from either side. */
  lemma SaveMessageStampsResolvedId(rooms: seq<ChatRoom>, messages: seq<ChatMessage>, m: ChatMessage)
    requires Valid(rooms)
    requires m.senderId != m.recipientId
    ensures var out := SaveMessage(rooms, messages, m);
            && Valid(out.rooms)
            && ResolveChatId(out.rooms, m.senderId, m.recipientId, false).chatId == out.stored.chatId
            && ResolveChatId(out.rooms, m.recipientId, m.senderId, false).chatId == out.stored.chatId
  {
    ResolveChatIdValid(rooms, m.senderId, m.recipientId, true);
    ResolveChatIdIdempotent(rooms, m.senderId, m.recipientId, false);
    ResolveChatIdSymmetric(rooms, m.senderId, m.recipientId, false);
  }

  /**
    After save, the history of the conversation seen from either participant
    ends with the stored message; when the room already existed the history
    is the earlier one with the message appended.
   */
  lemma SavedMessageInBothHistories(rooms: seq<ChatRoom>, messages: seq<ChatMessage>, m: ChatMessage)
    requires Valid(rooms)
    requires m.senderId != m.recipientId
    ensures var out := SaveMessage(rooms, messages, m);
            var before := FindByChatId(messages, out.stored.chatId.value);
            && ChatHistory(out.rooms, out.messages, m.senderId, m.recipientId) == before + [out.stored]
            && ChatHistory(out.rooms, out.messages, m.recipientId, m.senderId) == before + [out.stored]
            && (!NoRoomFor(rooms, m.senderId, m.recipientId) ==> ChatHistory(rooms, messages, m.senderId, m.recipientId) == before)
            && (!NoRoomFor(rooms, m.senderId, m.recipientId) ==> ChatHistory(rooms, messages, m.recipientId, m.senderId) == before)
  {
    var out := SaveMessage(rooms, messages, m);
    SaveMessageStampsResolvedId(rooms, messages, m);
    FindByChatIdAppend(messages, out.stored, out.stored.chatId.value);
    if !NoRoomFor(rooms, m.senderId, m.recipientId) {
      LookupSymmetric(rooms, m.senderId, m.recipientId);
    }
  }

  /** The first message into empty tables is the whole history of both participants. */
  lemma FirstMessageHistory(m: ChatMessage)
    requires m.senderId != m.recipientId
    ensures var first := SaveMessage([], [], m);
            && Valid(first.rooms)
            && !NoRoomFor(first.rooms, m.senderId, m.recipientId)
            && ChatHistory(first.rooms, first.messages, m.senderId, m.recipientId) == [first.stored]
            && ChatHistory(first.rooms, first.messages, m.recipientId, m.senderId) == [first.stored]
  {
    var first := SaveMessage([], [], m);
    assert Valid([]);
    SavedMessageInBothHistories([], [], m);
    SaveMessageStampsResolvedId([], [], m);
    assert FindByChatId([], first.stored.chatId.value) == [];
  }

  /**
    Two messages between a and b, sent into empty tables in either
    direction, make up the whole history of both participants, in order.
   */
  lemma TwoMessagesInOrder(m1: ChatMessage, m2: ChatMessage)
    requires m1.senderId != m1.recipientId
    requires || (m2.senderId == m1.senderId && m2.recipientId == m1.recipientId)
             || (m2.senderId == m1.recipientId && m2.recipientId == m1.senderId)
    ensures var first := SaveMessage([], [], m1);
            var second := SaveMessage(first.rooms, first.messages, m2);
            && ChatHistory(second.rooms, second.messages, m1.senderId, m1.recipientId) == [first.stored, second.stored]
            && ChatHistory(second.rooms, second.messages, m1.recipientId, m1.senderId) == [first.stored, second.stored]
  {
    var first := SaveMessage([], [], m1);
    FirstMessageHistory(m1);
    if m2.senderId == m1.senderId {
      SavedMessageInBothHistories(first.rooms, first.messages, m2);
    } else {
      assert !NoRoomFor(first.rooms, m2.senderId, m2.recipientId) by {
        LookupSymmetric(first.rooms, m1.senderId, m1.recipientId);
      }
      SavedMessageInBothHistories(first.rooms, first.messages, m2);
    }
  }

  /** The chat-room service of package service.impl, holding the room repository. */
  class ChatRoomServiceImpl {
    var rooms: seq<ChatRoom>

    ghost predicate Valid()
      reads this
    {
      ChatRooms.Valid(rooms)
    }

    constructor ()
      ensures Valid() && rooms == []
    {
      rooms := [];
    }

    method GetChatRoomId(senderId: string, recipientId: string, createNewRoomIfNotExists: bool) returns (chatId: Option<string>)
      requires Valid()
      requires createNewRoomIfNotExists ==> senderId != recipientId
      modifies this
      ensures Valid()
      ensures Resolution(chatId, rooms) == ResolveChatId(old(rooms), senderId, recipientId, createNewRoomIfNotExists)
    {
      ResolveChatIdValid(rooms, senderId, recipientId, createNewRoomIfNotExists);
      match FindRoom(rooms, senderId, recipientId)
      case Some(room) =>
        chatId := Some(room.chatId);
      case None =>
        if createNewRoomIfNotExists {
          var created := CreateChatId(senderId, recipientId);
          chatId := Some(created);
        } else {
          chatId := None;
        }
    }

    /** Stores the two mirrored records, sender to recipient first, sharing one new chatId. */
    method CreateChatId(senderId: string, recipientId: string) returns (chatId: string)
      modifies this
      ensures chatId == ChatIdOf(senderId, recipientId)
      ensures rooms == WithRoomPair(old(rooms), senderId, recipientId)
    {
      chatId := ChatIdOf(senderId, recipientId);
      var senderRecipient := ChatRoom(ObjectId(|rooms|), chatId, senderId, recipientId);
      var recipientSender := ChatRoom(ObjectId(|rooms| + 1), chatId, recipientId, senderId);
      rooms := rooms + [senderRecipient];
      rooms := rooms + [recipientSender];
    }
  }

  /** The chat-message service, holding the message repository and using the resolver above. */
  class ChatMessageServiceImpl {
    const chatRoomService: ChatRoomServiceImpl
    var messages: seq<ChatMessage>

    ghost predicate Valid()
      reads this, chatRoomService
    {
      chatRoomService.Valid()
    }

    constructor (chatRoomService: ChatRoomServiceImpl)
      requires chatRoomService.Valid()
      ensures Valid()
      ensures this.chatRoomService == chatRoomService && messages == []
    {
      this.chatRoomService := chatRoomService;
      messages := [];
    }

    method FindChatMessages(senderId: string, recipientId: string) returns (history: seq<ChatMessage>)
      requires Valid()
      modifies chatRoomService
      ensures Valid()
      ensures chatRoomService.rooms == old(chatRoomService.rooms)
      ensures history == ChatHistory(chatRoomService.rooms, messages, senderId, recipientId)
    {
      var chatId := chatRoomService.GetChatRoomId(senderId, recipientId, false);
      match chatId
      case Some(id) => history := FindByChatId(messages, id);
      case None => history := [];
    }

    method Save(chatMessage: ChatMessage) returns (saved: ChatMessage)
      requires Valid()
      requires chatMessage.senderId != chatMessage.recipientId
      modifies this, chatRoomService
      ensures Valid()
      ensures Saved(saved, chatRoomService.rooms, messages) == SaveMessage(old(chatRoomService.rooms), old(messages), chatMessage)
    {
      var chatId := chatRoomService.GetChatRoomId(chatMessage.senderId, chatMessage.recipientId, true);
      // orElseThrow never throws: with creation enabled the resolver always answers an id
      saved := chatMessage.(chatId := Some(chatId.value));
      if saved.id.None? {
        saved := saved.(id := Some(ObjectId(|messages|)));
      }
      messages := messages + [saved];
    }
  }
}
