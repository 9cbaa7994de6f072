/**
  The chat-room table shared by both chat-room resolvers: the directional
  lookup the repository offers, the pair of mirrored records the create
  path stores, and the invariant every reachable table satisfies.
 */
module ChatRooms {
  import opened Documents

  /** What a call to getChatRoomId answers, together with the table it leaves behind. */
  datatype Resolution = Resolution(chatId: Option<string>, rooms: seq<ChatRoom>)

  predicate HasKey(room: ChatRoom, senderId: string, recipientId: string) {
    room.senderId == senderId && room.recipientId == recipientId
  }

  predicate NoRoomFor(rooms: seq<ChatRoom>, senderId: string, recipientId: string) {
    forall i :: 0 <= i < |rooms| ==> !HasKey(rooms[i], senderId, recipientId)
  }

  /** findBySenderIdAndRecipientId: a record stored under exactly the directional key. */
  function FindRoom(rooms: seq<ChatRoom>, senderId: string, recipientId: string): (found: Option<ChatRoom>)
    ensures found.Some? ==> found.value in rooms && HasKey(found.value, senderId, recipientId)
    ensures found.None? <==> NoRoomFor(rooms, senderId, recipientId)
  {
    if rooms == [] then None
    else if HasKey(rooms[0], senderId, recipientId) then Some(rooms[0])
    else
      var rest := FindRoom(rooms[1..], senderId, recipientId);
      assert forall i :: 1 <= i < |rooms| ==> rooms[i] == rooms[1..][i - 1];
      rest
  }

  /** The chatId of the record found under the directional key, if any. */
  function LookupChatId(rooms: seq<ChatRoom>, senderId: string, recipientId: string): (chatId: Option<string>)
    ensures chatId.Some? <==> !NoRoomFor(rooms, senderId, recipientId)
  {
    match FindRoom(rooms, senderId, recipientId)
    case Some(room) => Some(room.chatId)
    case None => None
  }

  /** The conversation id built on first contact: "%s_%s" of sender and recipient. */
  function ChatIdOf(senderId: string, recipientId: string): (chatId: string)
    ensures |chatId| == |senderId| + 1 + |recipientId|
    ensures chatId[..|senderId|] == senderId && chatId[|senderId|] == '_'
    ensures chatId[|senderId| + 1..] == recipientId
  {
    senderId + "_" + recipientId
  }

  /**
    The table after createChatId's two saves: every earlier record stays in
    place, then sender to recipient and recipient to sender follow, mirroring
    each other under the new chatId, each with the next generated id.
   */
  function WithRoomPair(rooms: seq<ChatRoom>, senderId: string, recipientId: string): (after: seq<ChatRoom>)
    ensures |after| == |rooms| + 2 && after[..|rooms|] == rooms
    ensures HasKey(after[|rooms|], senderId, recipientId) && HasKey(after[|rooms| + 1], recipientId, senderId)
    ensures IsMirror(after[|rooms| + 1], after[|rooms|]) && after[|rooms|].chatId == ChatIdOf(senderId, recipientId)
    ensures after[|rooms|].id == ObjectId(|rooms|) && after[|rooms| + 1].id == ObjectId(|rooms| + 1)
  {
    var chatId := ChatIdOf(senderId, recipientId);
    rooms + [ChatRoom(ObjectId(|rooms|), chatId, senderId, recipientId),
             ChatRoom(ObjectId(|rooms| + 1), chatId, recipientId, senderId)]
  }

  predicate IsMirror(a: ChatRoom, b: ChatRoom) {
    a.senderId == b.recipientId && a.recipientId == b.senderId && a.chatId == b.chatId
  }

  /** Every stored record carries the id the store generated for its position. */
  ghost predicate IdsGenerated(rooms: seq<ChatRoom>) {
    forall i :: 0 <= i < |rooms| ==> rooms[i].id == ObjectId(i)
  }

  /** At most one record per directional key. */
  ghost predicate KeysUnique(rooms: seq<ChatRoom>) {
    forall i, j :: 0 <= i < |rooms| && 0 <= j < |rooms| && HasKey(rooms[j], rooms[i].senderId, rooms[i].recipientId) ==> i == j
  }

  ghost predicate NoSelfChat(rooms: seq<ChatRoom>) {
    forall i :: 0 <= i < |rooms| ==> rooms[i].senderId != rooms[i].recipientId
  }

  /**
    Records are stored in pairs: the last two records mirror each other (the
    other direction, the same chatId), and so do the pairs before them.
   */
  ghost predicate Mirrored(rooms: seq<ChatRoom>)
    decreases |rooms|
  {
    if |rooms| < 2 then rooms == []
    else IsMirror(rooms[|rooms| - 1], rooms[|rooms| - 2]) && Mirrored(rooms[..|rooms| - 2])
  }

  ghost predicate Valid(rooms: seq<ChatRoom>) {
    IdsGenerated(rooms) && KeysUnique(rooms) && NoSelfChat(rooms) && Mirrored(rooms)
  }

  /** Looking up a concatenation looks in the first part before the second. */
  lemma {:induction false} FindRoomAppend(rooms: seq<ChatRoom>, extra: seq<ChatRoom>, senderId: string, recipientId: string)
    ensures FindRoom(rooms + extra, senderId, recipientId)
         == if FindRoom(rooms, senderId, recipientId).Some? then FindRoom(rooms, senderId, recipientId)
            else FindRoom(extra, senderId, recipientId)
  {
    if rooms == [] {
      assert rooms + extra == extra;
    } else {
      assert (rooms + extra)[0] == rooms[0];
      assert (rooms + extra)[1..] == rooms[1..] + extra;
      FindRoomAppend(rooms[1..], extra, senderId, recipientId);
    }
  }

  /** With unique keys, the lookup finds exactly the record stored under the key. */
  lemma FindRoomUnique(rooms: seq<ChatRoom>, i: int)
    requires KeysUnique(rooms)
    requires 0 <= i < |rooms|
    ensures FindRoom(rooms, rooms[i].senderId, rooms[i].recipientId) == Some(rooms[i])
  {
    var found := FindRoom(rooms, rooms[i].senderId, rooms[i].recipientId);
    assert !NoRoomFor(rooms, rooms[i].senderId, rooms[i].recipientId) by {
      assert HasKey(rooms[i], rooms[i].senderId, rooms[i].recipientId);
    }
    var j :| 0 <= j < |rooms| && rooms[j] == found.value;
  }

  /**
    Symmetry of a valid table: looking up (a, b) and (b, a) gives the same
    answer, so either participant resolves the same conversation.
   */
  lemma LookupSymmetric(rooms: seq<ChatRoom>, a: string, b: string)
    requires Valid(rooms)
    ensures LookupChatId(rooms, b, a) == LookupChatId(rooms, a, b)
  {
    if !NoRoomFor(rooms, a, b) {
      MirrorAgrees(rooms, a, b);
    } else if !NoRoomFor(rooms, b, a) {
      MirrorAgrees(rooms, b, a);
    }
  }

  lemma MirrorAgrees(rooms: seq<ChatRoom>, a: string, b: string)
    requires KeysUnique(rooms) && Mirrored(rooms)
    requires !NoRoomFor(rooms, a, b)
    ensures LookupChatId(rooms, b, a) == LookupChatId(rooms, a, b)
  {
    var i :| 0 <= i < |rooms| && HasKey(rooms[i], a, b);
    var j := MirrorOf(rooms, i);
    FindRoomUnique(rooms, i);
    FindRoomUnique(rooms, j);
    assert FindRoom(rooms, a, b) == Some(rooms[i]);
    assert FindRoom(rooms, b, a) == Some(rooms[j]);
  }

  /** The create path keeps the table valid, and afterwards both directions find the new pair. */
  lemma WithRoomPairValid(rooms: seq<ChatRoom>, senderId: string, recipientId: string)
    requires Valid(rooms)
    requires senderId != recipientId
    requires NoRoomFor(rooms, senderId, recipientId)
    ensures Valid(WithRoomPair(rooms, senderId, recipientId))
    ensures LookupChatId(WithRoomPair(rooms, senderId, recipientId), senderId, recipientId) == Some(ChatIdOf(senderId, recipientId))
    ensures LookupChatId(WithRoomPair(rooms, senderId, recipientId), recipientId, senderId) == Some(ChatIdOf(senderId, recipientId))
  {
    assert NoRoomFor(rooms, recipientId, senderId) by {
      LookupSymmetric(rooms, senderId, recipientId);
    }
    WithRoomPairKeysUnique(rooms, senderId, recipientId);
    WithRoomPairMirrored(rooms, senderId, recipientId);
    WithRoomPairIds(rooms, senderId, recipientId);
    WithRoomPairFound(rooms, senderId, recipientId);
  }

  lemma WithRoomPairIds(rooms: seq<ChatRoom>, senderId: string, recipientId: string)
    requires IdsGenerated(rooms) && NoSelfChat(rooms)
    requires senderId != recipientId
    ensures IdsGenerated(WithRoomPair(rooms, senderId, recipientId))
    ensures NoSelfChat(WithRoomPair(rooms, senderId, recipientId))
  {
    var after := WithRoomPair(rooms, senderId, recipientId);
    forall i | 0 <= i < |after|
      ensures after[i].id == ObjectId(i) && after[i].senderId != after[i].recipientId
    {
      if i < |rooms| {
        assert after[i] == rooms[i];
      }
    }
  }

  lemma WithRoomPairFound(rooms: seq<ChatRoom>, senderId: string, recipientId: string)
    requires KeysUnique(WithRoomPair(rooms, senderId, recipientId))
    ensures LookupChatId(WithRoomPair(rooms, senderId, recipientId), senderId, recipientId) == Some(ChatIdOf(senderId, recipientId))
    ensures LookupChatId(WithRoomPair(rooms, senderId, recipientId), recipientId, senderId) == Some(ChatIdOf(senderId, recipientId))
  {
    var after := WithRoomPair(rooms, senderId, recipientId);
    FindRoomUnique(after, |rooms|);
    FindRoomUnique(after, |rooms| + 1);
  }

  lemma WithRoomPairKeysUnique(rooms: seq<ChatRoom>, senderId: string, recipientId: string)
    requires KeysUnique(rooms)
    requires senderId != recipientId
    requires NoRoomFor(rooms, senderId, recipientId) && NoRoomFor(rooms, recipientId, senderId)
    ensures KeysUnique(WithRoomPair(rooms, senderId, recipientId))
  {
    var after := WithRoomPair(rooms, senderId, recipientId);
    var n := |rooms|;
    forall i, j | 0 <= i < |after| && 0 <= j < |after| && HasKey(after[j], after[i].senderId, after[i].recipientId)
      ensures i == j
    {
      if i < n && j < n {
        assert after[i] == rooms[i] && after[j] == rooms[j];
      }
    }
  }

  lemma WithRoomPairMirrored(rooms: seq<ChatRoom>, senderId: string, recipientId: string)
    requires Mirrored(rooms)
    ensures Mirrored(WithRoomPair(rooms, senderId, recipientId))
  {
    var after := WithRoomPair(rooms, senderId, recipientId);
    assert after[..|after| - 2] == rooms;
  }

  /** In a table stored in mirrored pairs, every record has its mirror in the table. */
  lemma {:induction false} MirrorOf(rooms: seq<ChatRoom>, i: int) returns (j: int)
    requires Mirrored(rooms)
    requires 0 <= i < |rooms|
    ensures 0 <= j < |rooms| && IsMirror(rooms[j], rooms[i])
    decreases |rooms|
  {
    var n := |rooms|;
    if i == n - 1 {
      j := n - 2;
    } else if i == n - 2 {
      j := n - 1;
    } else {
      var front := rooms[..n - 2];
      assert front[i] == rooms[i];
      j := MirrorOf(front, i);
      assert front[j] == rooms[j];
    }
  }
}
