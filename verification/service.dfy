/**
  The chat-room resolver of package service. It stores the same mirrored
  records as the one in service.impl, but a hit answers the record's own
  generated id instead of its chatId.
 */
module Service {
  import opened Documents
  import opened ChatRooms
  import ServiceImpl

  /** getChatRoomId of this package as a function of the room table. */
  function ResolveRecordId(rooms: seq<ChatRoom>, senderId: string, recipientId: string, createNewRoomIfNotExists: bool): (res: Resolution)
    ensures createNewRoomIfNotExists ==> res.chatId.Some?
    ensures NoRoomFor(rooms, senderId, recipientId) && !createNewRoomIfNotExists ==> res == Resolution(None, rooms)
    ensures NoRoomFor(rooms, senderId, recipientId) && createNewRoomIfNotExists ==>
      res == Resolution(Some(ChatIdOf(senderId, recipientId)), WithRoomPair(rooms, senderId, recipientId))
  {
    match FindRoom(rooms, senderId, recipientId)
    case Some(room) => Resolution(Some(room.id), rooms)
    case None =>
      if createNewRoomIfNotExists then Resolution(Some(ChatIdOf(senderId, recipientId)), WithRoomPair(rooms, senderId, recipientId))
      else Resolution(None, rooms)
  }

  /** A hit answers the id of the record stored under the key, not its chatId. */
  lemma ResolveRecordIdHit(rooms: seq<ChatRoom>, i: int, createNewRoomIfNotExists: bool)
    requires Valid(rooms)
    requires 0 <= i < |rooms|
    ensures ResolveRecordId(rooms, rooms[i].senderId, rooms[i].recipientId, createNewRoomIfNotExists)
         == Resolution(Some(rooms[i].id), rooms)
    ensures rooms[i].chatId != rooms[i].id ==>
      ResolveRecordId(rooms, rooms[i].senderId, rooms[i].recipientId, createNewRoomIfNotExists).chatId
        != ServiceImpl.ResolveChatId(rooms, rooms[i].senderId, rooms[i].recipientId, createNewRoomIfNotExists).chatId
  {
    FindRoomUnique(rooms, i);
  }

  /** On a miss both resolvers behave alike: same answer, same records stored. */
  lemma ResolversAgreeOnMiss(rooms: seq<ChatRoom>, senderId: string, recipientId: string, createNewRoomIfNotExists: bool)
    requires NoRoomFor(rooms, senderId, recipientId)
    ensures ResolveRecordId(rooms, senderId, recipientId, createNewRoomIfNotExists)
         == ServiceImpl.ResolveChatId(rooms, senderId, recipientId, createNewRoomIfNotExists)
  {
  }

  /** Every call keeps the room table valid. */
  lemma ResolveRecordIdValid(rooms: seq<ChatRoom>, senderId: string, recipientId: string, createNewRoomIfNotExists: bool)
    requires Valid(rooms)
    requires createNewRoomIfNotExists ==> senderId != recipientId
    ensures Valid(ResolveRecordId(rooms, senderId, recipientId, createNewRoomIfNotExists).rooms)
  {
    if NoRoomFor(rooms, senderId, recipientId) && createNewRoomIfNotExists {
      WithRoomPairValid(rooms, senderId, recipientId);
    }
  }

  /**
    After a creating call for (a, b), the later lookups from the two sides
    answer two different ids, and neither is the id the creating call gave.
   */
  lemma RecordIdLookupsDiverge(rooms: seq<ChatRoom>, a: string, b: string, createNewRoomIfNotExists: bool)
    requires Valid(rooms)
    requires a != b
    requires NoRoomFor(rooms, a, b)
    ensures var first := ResolveRecordId(rooms, a, b, true);
            var again := ResolveRecordId(first.rooms, a, b, createNewRoomIfNotExists);
            var mirror := ResolveRecordId(first.rooms, b, a, createNewRoomIfNotExists);
            && again.chatId == Some(ObjectId(|rooms|))
            && mirror.chatId == Some(ObjectId(|rooms| + 1))
            && again.chatId != mirror.chatId
            && again.chatId != first.chatId
            && mirror.chatId != first.chatId
  {
    var first := ResolveRecordId(rooms, a, b, true);
    var n := |rooms|;
    WithRoomPairValid(rooms, a, b);
    ResolveRecordIdHit(first.rooms, n, createNewRoomIfNotExists);
    ResolveRecordIdHit(first.rooms, n + 1, createNewRoomIfNotExists);
    ObjectIdInjective(n, n + 1);
    ObjectIdHasNoSeparator(n);
    ObjectIdHasNoSeparator(n + 1);
    assert '_' in first.chatId.value by {
      assert first.chatId.value[|a|] == '_';
    }
  }

  /**
    With this resolver the first message of a conversation, stamped with the
    id the creating call gave, is missing from the history read back by
    either participant.
   */
  lemma FirstMessageMissingFromHistory(rooms: seq<ChatRoom>, messages: seq<ChatMessage>, m: ChatMessage)
    requires Valid(rooms)
    requires m.senderId != m.recipientId
    requires NoRoomFor(rooms, m.senderId, m.recipientId)
    ensures var first := ResolveRecordId(rooms, m.senderId, m.recipientId, true);
            var stored := m.(chatId := first.chatId);
            var readA := ResolveRecordId(first.rooms, m.senderId, m.recipientId, false);
            var readB := ResolveRecordId(first.rooms, m.recipientId, m.senderId, false);
            && readA.chatId.Some? && readB.chatId.Some?
            && stored !in ServiceImpl.FindByChatId(messages + [stored], readA.chatId.value)
            && stored !in ServiceImpl.FindByChatId(messages + [stored], readB.chatId.value)
  {
    RecordIdLookupsDiverge(rooms, m.senderId, m.recipientId, false);
  }

  /** The chat-room service of package service, holding the room repository. */
  class ChatRoomServiceImpl {
    var rooms: seq<ChatRoom>

    ghost predicate Valid()
      reads this
    {
      ChatRooms.Valid(rooms)
    }

    constructor ()
      ensures Valid() && rooms == []
    {
      rooms := [];
    }

    method GetChatRoomId(senderId: string, recipientId: string, createNewRoomIfNotExists: bool) returns (chatId: Option<string>)
      requires Valid()
      requires createNewRoomIfNotExists ==> senderId != recipientId
      modifies this
      ensures Valid()
      ensures Resolution(chatId, rooms) == ResolveRecordId(old(rooms), senderId, recipientId, createNewRoomIfNotExists)
    {
      ResolveRecordIdValid(rooms, senderId, recipientId, createNewRoomIfNotExists);
      match FindRoom(rooms, senderId, recipientId)
      case Some(room) =>
        chatId := Some(room.id);
      case None =>
        if createNewRoomIfNotExists {
          var created := CreateChatId(senderId, recipientId);
          chatId := Some(created);
        } else {
          chatId := None;
        }
    }

    /** Stores the two mirrored records, sender to recipient first, sharing one new chatId. */
    method CreateChatId(senderId: string, recipientId: string) returns (chatId: string)
      modifies this
      ensures chatId == ChatIdOf(senderId, recipientId)
      ensures rooms == WithRoomPair(old(rooms), senderId, recipientId)
    {
      chatId := ChatIdOf(senderId, recipientId);
      var senderRecipient := ChatRoom(ObjectId(|rooms|), chatId, senderId, recipientId);
      var recipientSender := ChatRoom(ObjectId(|rooms| + 1), chatId, recipientId, senderId);
      rooms := rooms + [senderRecipient];
      rooms := rooms + [recipientSender];
    }
  }
}
