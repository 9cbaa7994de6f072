# One-to-one chat relay: routing and chat-room resolution

A Dafny model of the server side of a one-to-one chat relay built on STOMP
over WebSocket. The model covers these parts:

- **Chat-room resolver** (`getChatRoomId` / `createChatId`). It maps a
  (sender, recipient) pair to a conversation id. The first contact creates
  two mirrored directional records that share the id `sender_recipient`.
  Two versions exist in the repository, and both are modelled:
  - `service/impl` answers the stored record's `chatId` on a hit.
  - `service` answers the record's own generated `id` on a hit.
- **Chat-message service** (`save`, `findChatMessages`). `save` stamps a
  message with the resolved chat id and appends it. `findChatMessages`
  reads a conversation back and never creates a room.
- **Presence service** (`saveUser`, `disconnect`, `findConnectedUsers`).
  These are upserts and status changes over the user table, keyed by
  nickname.
- **Controllers**. `ChatController.processMessage` stores the message and
  then pushes one notification to the recipient's private queue. The user
  handlers broadcast a user on `/user/public`.

The repositories are in-memory tables held by the services:

| repository | model |
|---|---|
| rooms | `seq<ChatRoom>` |
| messages | `seq<ChatMessage>` |
| users | `map<string, User>` keyed by nickname |

The messaging template is an outbox list. Each service and controller is a
class whose methods update these tables. Each method is specified by a pure
function of the old tables (`ResolveChatId`, `SaveMessage`, `MarkOnline`,
…), and the properties are proved as lemmas about those functions.

Ids the document store generates are modelled by `Documents.ObjectId(n)`,
the hexadecimal rendering of a counter:

- A room record's id is `ObjectId` of its position in the table.
- A message saved without an id gets `ObjectId` of the table's length.

Like a real store id, these ids are pairwise distinct (`ObjectIdInjective`).
They never contain `_` (`ObjectIdHasNoSeparator`).

The room table invariant `ChatRooms.Valid` has four parts:

- generated ids;
- at most one record per directional key;
- no record from a user to itself;
- records stored in consecutive pairs that mirror each other (reverse keys,
  the same `chatId`), so every record has its mirror
  (`ChatRooms.MirrorOf`).

Every resolver call preserves it. It is what makes a lookup from either side
find the same conversation (`ChatRooms.LookupSymmetric`).

Where the design description and the code differ, the model follows the
code:

- The code has no lock or uniqueness constraint around check-then-create, so
  the model has none.
- The disconnect handler broadcasts the payload as received, not the stored
  OFFLINE record.

## Model

| member | source | states |
|---|---|---|
| `ChatRooms.FindRoom` | src/main/java/dev/magadiflo/app/service/impl/ChatRoomServiceImpl.java:19 | the repository lookup answers a stored record with exactly the key (sender, recipient), and answers nothing exactly when no record has that key |
| `ChatRooms.ChatIdOf` | src/main/java/dev/magadiflo/app/service/impl/ChatRoomServiceImpl.java:31 | the new conversation id is the sender id, then `_`, then the recipient id |
| `ChatRooms.LookupChatId` | src/main/java/dev/magadiflo/app/service/impl/ChatRoomServiceImpl.java:19-20 | the lookup followed by taking the record's chatId answers something exactly when a record with the key (sender, recipient) is stored |
| `ChatRooms.WithRoomPair` | src/main/java/dev/magadiflo/app/service/impl/ChatRoomServiceImpl.java:34-47 | the two saves keep every earlier record in place and append sender→recipient, then recipient→sender, mirroring each other under `sender_recipient`, with the next two generated ids; its invariant and lookups are stated by `ChatRooms.WithRoomPairValid` |
| `ChatRooms.LookupSymmetric` | src/main/java/dev/magadiflo/app/service/impl/ChatRoomServiceImpl.java:34-47 | in a valid table, the lookups of (a, b) and (b, a) give the same chatId, or both give nothing |
| `ChatRooms.WithRoomPairValid` | src/main/java/dev/magadiflo/app/service/impl/ChatRoomServiceImpl.java:30-50 | on a miss for a pair of distinct users, storing the two mirrored records keeps the table valid, and afterwards both directions find the new chatId |
| `ServiceImpl.ResolveChatId` | src/main/java/dev/magadiflo/app/service/impl/ChatRoomServiceImpl.java:18-28 | with the flag set the answer is never empty; on a miss without the flag the answer is empty and the table unchanged; on a miss with the flag the answer is `sender_recipient` and exactly the two mirrored records with the next two generated ids are appended |
| `ServiceImpl.ResolveChatIdHit` | src/main/java/dev/magadiflo/app/service/impl/ChatRoomServiceImpl.java:19-20 | when a record with exactly the key is stored, the answer is that record's chatId whatever the flag, and the table is unchanged |
| `ServiceImpl.ResolveChatIdValid` | src/main/java/dev/magadiflo/app/service/impl/ChatRoomServiceImpl.java:18-50 | every call, creating or not, leaves a valid table valid |
| `ServiceImpl.ResolveChatIdSymmetric` | src/main/java/dev/magadiflo/app/service/impl/ChatRoomServiceImpl.java:19-47 | after a creating call for (a, b), resolving (b, a) with either flag answers the same id and stores nothing |
| `ServiceImpl.ResolveChatIdIdempotent` | src/main/java/dev/magadiflo/app/service/impl/ChatRoomServiceImpl.java:19-20 | a second resolution of (a, b), with either flag, answers the same id and adds no records |
| `ServiceImpl.ChatRoomServiceImpl.GetChatRoomId` | src/main/java/dev/magadiflo/app/service/impl/ChatRoomServiceImpl.java:18-28 | the answer and the new room table are those of `ResolveChatId` on the old table, and the table stays valid |
| `ServiceImpl.ChatRoomServiceImpl.CreateChatId` | src/main/java/dev/magadiflo/app/service/impl/ChatRoomServiceImpl.java:30-50 | answers `sender_recipient` and appends the record sender→recipient and then recipient→sender, both with that chatId and fresh ids; nothing else changes |
| `ServiceImpl.FindByChatId` | src/main/java/dev/magadiflo/app/service/impl/ChatMessageServiceImpl.java:23 | the answer holds exactly the stored messages whose chatId is the given id |
| `ServiceImpl.FindByChatIdAppend` | src/main/java/dev/magadiflo/app/service/impl/ChatMessageServiceImpl.java:23 | appending a message extends its own conversation at the end, in insertion order, and leaves every other conversation unchanged |
| `ServiceImpl.ChatHistory` | src/main/java/dev/magadiflo/app/service/impl/ChatMessageServiceImpl.java:21-25 | when no room exists for (sender, recipient) the history is empty; when one exists, the history holds exactly the stored messages whose chatId is the one that lookup finds |
| `ServiceImpl.WithGeneratedId` | src/main/java/dev/magadiflo/app/service/impl/ChatMessageServiceImpl.java:32 | the stored message always has an id; a message that already had one is stored unchanged; no other field changes |
| `ServiceImpl.SaveMessage` | src/main/java/dev/magadiflo/app/service/impl/ChatMessageServiceImpl.java:28-34 | the new room table and the stamped chatId are those of resolving (sender, recipient) with creation enabled; the stored message has an id, keeps its sender, recipient and content, and is appended to the message table |
| `ServiceImpl.SaveMessageStampsResolvedId` | src/main/java/dev/magadiflo/app/service/impl/ChatMessageServiceImpl.java:29-31 | the stamped chatId is the one that later non-creating resolutions answer from both sides, and the room table stays valid |
| `ServiceImpl.SavedMessageInBothHistories` | src/main/java/dev/magadiflo/app/service/impl/ChatMessageServiceImpl.java:21-33 | after save from a to b, the histories read by (a, b) and (b, a) both end with the stored message; when the room existed, each is the previous history plus that message |
| `ServiceImpl.FirstMessageHistory` | src/main/java/dev/magadiflo/app/service/impl/ChatMessageServiceImpl.java:21-33 | the first message saved into empty tables creates the room and is the whole history read by either participant |
| `ServiceImpl.TwoMessagesInOrder` | src/main/java/dev/magadiflo/app/service/impl/ChatMessageServiceImpl.java:21-33 | two messages between a and b, in either direction, saved into empty tables, are the whole history of both participants, in sending order |
| `ServiceImpl.ChatMessageServiceImpl.FindChatMessages` | src/main/java/dev/magadiflo/app/service/impl/ChatMessageServiceImpl.java:21-25 | answers `ChatHistory` of the current tables and leaves the room table unchanged |
| `ServiceImpl.ChatMessageServiceImpl.Save` | src/main/java/dev/magadiflo/app/service/impl/ChatMessageServiceImpl.java:28-34 | the answer and both new tables are those of `SaveMessage`; the resolution with creation enabled always gives an id, so the empty-answer failure is never reached |
| `Service.ResolveRecordId` | src/main/java/dev/magadiflo/app/service/ChatRoomServiceImpl.java:17-27 | with the flag set the answer is never empty; on a miss without the flag it is empty and the table unchanged; on a miss with the flag it is `sender_recipient` with the two mirrored records appended |
| `Service.ResolveRecordIdHit` | src/main/java/dev/magadiflo/app/service/ChatRoomServiceImpl.java:18-19 | on a hit the answer is the matching record's own id, and it differs from the chatId-answering resolver's answer whenever that id is not the record's chatId |
| `Service.ResolversAgreeOnMiss` | src/main/java/dev/magadiflo/app/service/ChatRoomServiceImpl.java:20-26 | on a miss both resolvers give the same answer and store the same records |
| `Service.ResolveRecordIdValid` | src/main/java/dev/magadiflo/app/service/ChatRoomServiceImpl.java:17-49 | every call leaves a valid table valid |
| `Service.RecordIdLookupsDiverge` | src/main/java/dev/magadiflo/app/service/ChatRoomServiceImpl.java:19 | after a creating call for (a, b), later lookups of (a, b) and (b, a) answer two different ids, and neither is the id the creating call answered |
| `Service.FirstMessageMissingFromHistory` | src/main/java/dev/magadiflo/app/service/ChatRoomServiceImpl.java:19-23 | a first message stamped with the id of the creating call is missing from the conversation read back by either participant |
| `Service.ChatRoomServiceImpl.GetChatRoomId` | src/main/java/dev/magadiflo/app/service/ChatRoomServiceImpl.java:17-27 | the answer and the new room table are those of `ResolveRecordId` on the old table, and the table stays valid |
| `Service.ChatRoomServiceImpl.CreateChatId` | src/main/java/dev/magadiflo/app/service/ChatRoomServiceImpl.java:29-49 | answers `sender_recipient` and appends exactly the two mirrored records sharing that chatId |
| `Presence.MarkOnline` | src/main/java/dev/magadiflo/app/service/UserServiceImpl.java:19-22 | the user, with status ONLINE, replaces the whole record under its nickname (or adds one); every other user is unchanged |
| `Presence.MarkOffline` | src/main/java/dev/magadiflo/app/service/UserServiceImpl.java:25-32 | for a stored nickname only that record's status becomes OFFLINE; an unknown nickname leaves the table unchanged |
| `Presence.OnlineUsers` | src/main/java/dev/magadiflo/app/service/UserServiceImpl.java:35-37 | the roster holds every stored user whose status is ONLINE and nothing else |
| `Presence.UpdatesKeepKeys` | src/main/java/dev/magadiflo/app/service/UserServiceImpl.java:21-30 | both updates keep every user stored under its own nickname |
| `Presence.OnlineUsersExact` | src/main/java/dev/magadiflo/app/service/UserServiceImpl.java:35-37 | a user is on the roster exactly when it is the record stored under its nickname and its status is ONLINE |
| `Presence.RosterAfterSaveUser` | src/main/java/dev/magadiflo/app/service/UserServiceImpl.java:19-22 | after saveUser the roster is the old roster without the nickname's previous record, plus the user with status ONLINE |
| `Presence.RosterAfterDisconnect` | src/main/java/dev/magadiflo/app/service/UserServiceImpl.java:25-32 | after disconnect the roster is the old roster without any user of that nickname, including when the nickname was never stored |
| `Presence.ConnectThenDisconnect` | src/main/java/dev/magadiflo/app/service/UserServiceImpl.java:19-36 | a saved user is on the roster; after disconnecting it the stored record is OFFLINE with the same names, and it is off the roster |
| `Presence.UserServiceImpl.SaveUser` | src/main/java/dev/magadiflo/app/service/UserServiceImpl.java:19-22 | the user comes back with status ONLINE, and the table becomes `MarkOnline` of the old one |
| `Presence.UserServiceImpl.Disconnect` | src/main/java/dev/magadiflo/app/service/UserServiceImpl.java:25-32 | the table becomes `MarkOffline` of the old one for the argument's nickname; the argument itself is a value and is not changed |
| `Presence.UserServiceImpl.FindConnectedUsers` | src/main/java/dev/magadiflo/app/service/UserServiceImpl.java:35-37 | answers exactly the stored users whose status is ONLINE |
| `Controller.NotificationOf` | src/main/java/dev/magadiflo/app/controller/ChatController.java:27-32 | the notification's id, senderId, recipientId and content are those of the stored message |
| `Controller.MessageFrames` | src/main/java/dev/magadiflo/app/controller/ChatController.java:51 | a processed message sends exactly one frame, to the recipient's `/queue/messages`, and nothing to the sender |
| `Controller.ChatController.ProcessMessage` | src/main/java/dev/magadiflo/app/controller/ChatController.java:25-52 | both tables become those of `SaveMessage`, and the outbox gets exactly the one notification frame of the stored message, addressed to the recipient; nothing is returned |
| `Controller.ChatController.FindChatMessages` | src/main/java/dev/magadiflo/app/controller/ChatController.java:54-57 | answers the service's history unchanged and creates no room |
| `Controller.UserController.AddUser` | src/main/java/dev/magadiflo/app/controller/UserController.java:21-26 | answers, and broadcasts on `/user/public`, the user with status ONLINE whatever status it arrived with; the user table becomes `MarkOnline` of the old one |
| `Controller.UserController.Disconnect` | src/main/java/dev/magadiflo/app/controller/UserController.java:28-33 | answers, and broadcasts on `/user/public`, the payload user unchanged; the user table becomes `MarkOffline` of the old one |
| `Controller.UserController.FindConnectedUsers` | src/main/java/dev/magadiflo/app/controller/UserController.java:35-38 | answers the service's roster unchanged |

## Findings

| source | as written | input that shows it | evidently intended | confidence | as-written member | corrected member |
|---|---|---|---|---|---|---|
| src/main/java/dev/magadiflo/app/service/ChatRoomServiceImpl.java:19 | a hit answers the directional record's own generated id, so (a, b) and (b, a) answer different ids, and neither is the `a_b` that the creating call answered and that the first message was stamped with | into empty tables, save a message from `a` to `b`, then read the history of (`a`, `b`) or of (`b`, `a`): it is empty, and later messages go to two separate conversations | answer the record's `chatId`, as `service/impl/ChatRoomServiceImpl.java` does, so both directions share one conversation | high (not executed) | `Service.RecordIdLookupsDiverge` | `ServiceImpl.ResolveChatIdSymmetric` |

The chat-message service and the controllers use the corrected resolver
(`ServiceImpl`).

## Left out

- Self-chat: every resolver call with creation enabled, and so `save` and `processMessage`, requires sender ≠ recipient. With equal ids the code would store two records under one key, and a later single-result lookup in the real store would fail.
- Concurrency: calls are modelled as sequential. The code has no lock or uniqueness constraint around check-then-create, so the race between simultaneous first contacts is not modelled.
- Generated ids are modelled as `ObjectId` of a counter. This gives distinct ids that contain no `_`, but not the real 24-digit store format.
- Message ids: a message that arrives with its own id is appended with it. The store's replace-by-id behaviour is not modelled; the client never sends an id.
- `Service.ResolveRecordId`: a stored record with a null id, which `Optional.map` would turn into a miss, is not modelled. Stored records always carry a generated id.
- `Presence.OnlineUsers`: the roster is a set. The list order of the store's iteration is not modelled.
- `ServiceImpl.FindByChatId`: the store's `findByChatId` order is assumed to be insertion order.
- `Presence.UserServiceImpl.SaveUser`: the argument is changed in place in the code. The model is on values, so it answers the updated user instead, and the aliasing of that object is not captured.
- `Controller.ChatController.ProcessMessage`: its contract states the final tables and outbox. That persistence happens before the send shows only in the order of the method body.
- ChatMessage.java, User.java, ChatNotification.java and the Mongo repositories are not part of this model. Their fields and queries are taken from how the core uses them. The message timestamp is not modelled.
- Chat-id collisions: the `sender_recipient` id is not injective. For example, (`a_b`, `c`) and (`a`, `b_c`) build the same id. The model does not claim otherwise and does not treat this.
- Transport: delivery is an append to the outbox. Broker fan-out, sessions, dropping frames for offline users, the HTTP response wrapper, the WebSocket configuration and the browser client are outside the model.
- Storage failures and exceptions: the store is assumed to be always available.
- Wiring: the message service is built on the `service/impl` resolver. Wiring both same-named resolver classes in one application is not modelled.
