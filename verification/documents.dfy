/**
  The documents exchanged and stored by the chat relay: users, the
  directional chat-room records, chat messages and the notification pushed
  to a recipient. Document ids that the store generates are modelled by
  ObjectId, a hexadecimal rendering of a counter.
 */
module Documents {

  datatype Option<+T> = None | Some(value: T)

  /** Presence of a user. */
  datatype Status = Online | Offline

  /** A user, identified by its nickname. */
  datatype User = User(nickName: string, fullName: string, status: Status)

  /** One directional chat-room record: (senderId, recipientId) -> chatId. */
  datatype ChatRoom = ChatRoom(id: string, chatId: string, senderId: string, recipientId: string)

  /** A chat message; the id and the chatId are absent until the message is saved. */
  datatype ChatMessage = ChatMessage(
    id: Option<string>,
    chatId: Option<string>,
    senderId: string,
    recipientId: string,
    content: string)

  /** The projection of a stored message that is pushed to its recipient. */
  datatype ChatNotification = ChatNotification(id: string, senderId: string, recipientId: string, content: string)

  function HexDigit(d: nat): (c: char)
    requires d < 16
    ensures c != '_'
  {
    "0123456789abcdef"[d]
  }

  /** The n-th id generated by the document store, in hexadecimal. */
  function ObjectId(n: nat): (s: string)
    ensures |s| >= 1
    ensures |s| == 1 <==> n < 16
    decreases n
  {
    if n < 16 then [HexDigit(n)] else ObjectId(n / 16) + [HexDigit(n % 16)]
  }

  /** A generated id never contains the separator that chat ids are built with. */
  lemma {:induction false} ObjectIdHasNoSeparator(n: nat)
    ensures '_' !in ObjectId(n)
    decreases n
  {
    if n >= 16 {
      ObjectIdHasNoSeparator(n / 16);
      assert ObjectId(n) == ObjectId(n / 16) + [HexDigit(n % 16)];
    }
  }

  /** Different counters give different ids: generated ids are fresh. */
  lemma {:induction false} ObjectIdInjective(n: nat, m: nat)
    requires n != m
    ensures ObjectId(n) != ObjectId(m)
    decreases n
  {
    if n >= 16 && m >= 16 {
      if ObjectId(n) == ObjectId(m) {
        ObjectIdSplit(n);
        ObjectIdSplit(m);
        HexDigitInjective(n % 16, m % 16);
        if n / 16 != m / 16 {
          ObjectIdInjective(n / 16, m / 16);
        }
        DivModUnique(n, m);
      }
    } else if n < 16 && m < 16 {
      if ObjectId(n) == ObjectId(m) {
        assert ObjectId(n)[0] == HexDigit(n) && ObjectId(m)[0] == HexDigit(m);
        HexDigitInjective(n, m);
      }
    }
  }

  lemma ObjectIdSplit(n: nat)
    requires n >= 16
    ensures ObjectId(n)[..|ObjectId(n)| - 1] == ObjectId(n / 16)
    ensures ObjectId(n)[|ObjectId(n)| - 1] == HexDigit(n % 16)
  {
  }

  lemma HexDigitInjective(d: nat, e: nat)
    requires d < 16 && e < 16
    requires HexDigit(d) == HexDigit(e)
    ensures d == e
  {
  }

  lemma DivModUnique(n: nat, m: nat)
    requires n / 16 == m / 16 && n % 16 == m % 16
    ensures n == m
  {
    assert n == 16 * (n / 16) + n % 16;
    assert m == 16 * (m / 16) + m % 16;
  }
}
