/**
  The router layer: ChatController and UserController, and the messaging
  template they hand outbound frames to. Outbound delivery is an append to
  the template's outbox; what the broker does with it is not modelled.
 */
module Controller {
  import opened Documents
  import opened ChatRooms
  import opened ServiceImpl
  import opened Presence

  /** The private-queue destination a notification is sent to. */
  const MessagesQueue: string := "/queue/messages"

  /** The public topic every presence change is broadcast to. */
  const PublicTopic: string := "/user/public"

  /** One outbound frame: a notification for one user's private queue, or a user broadcast on a topic. */
  datatype Outbound =
    | ToUser(user: string, destination: string, notification: ChatNotification)
    | ToTopic(destination: string, payload: User)

  /** The projection of a stored message that is pushed to its recipient. */
  function NotificationOf(stored: ChatMessage): (n: ChatNotification)
    requires stored.id.Some?
    ensures n.id == stored.id.value
    ensures n.senderId == stored.senderId && n.recipientId == stored.recipientId && n.content == stored.content
  {
    ChatNotification(stored.id.value, stored.senderId, stored.recipientId, stored.content)
  }

  /** The frames a processed message sends: exactly one, to the recipient's private queue. */
  function MessageFrames(chatMessage: ChatMessage, stored: ChatMessage): (frames: seq<Outbound>)
    requires stored.id.Some?
    ensures |frames| == 1
    ensures frames[0].ToUser? && frames[0].user == chatMessage.recipientId && frames[0].destination == MessagesQueue
    ensures chatMessage.senderId != chatMessage.recipientId ==> forall f :: f in frames ==> f.ToUser? && f.user != chatMessage.senderId
  {
    [ToUser(chatMessage.recipientId, MessagesQueue, NotificationOf(stored))]
  }

  /** The outbound side of the message broker. */
  class SimpMessagingTemplate {
    var outbox: seq<Outbound>

    constructor ()
      ensures outbox == []
    {
      outbox := [];
    }

    method ConvertAndSendToUser(user: string, destination: string, payload: ChatNotification)
      modifies this
      ensures outbox == old(outbox) + [ToUser(user, destination, payload)]
    {
      outbox := outbox + [ToUser(user, destination, payload)];
    }

    /** What a handler annotated to send its result to a topic does with that result. */
    method SendTo(destination: string, payload: User)
      modifies this
      ensures outbox == old(outbox) + [ToTopic(destination, payload)]
    {
      outbox := outbox + [ToTopic(destination, payload)];
    }
  }

  class ChatController {
    const simpMessagingTemplate: SimpMessagingTemplate
    const chatMessageService: ChatMessageServiceImpl

    ghost predicate Valid()
      reads this, chatMessageService, chatMessageService.chatRoomService
    {
      chatMessageService.Valid()
    }

    constructor (simpMessagingTemplate: SimpMessagingTemplate, chatMessageService: ChatMessageServiceImpl)
      requires chatMessageService.Valid()
      ensures Valid()
      ensures this.simpMessagingTemplate == simpMessagingTemplate && this.chatMessageService == chatMessageService
    {
      this.simpMessagingTemplate := simpMessagingTemplate;
      this.chatMessageService := chatMessageService;
    }

    /**
      Persists the message first, then sends one notification, projected from
      the stored message, to the recipient's private queue.
     */
    method ProcessMessage(chatMessage: ChatMessage)
      requires Valid()
      requires chatMessage.senderId != chatMessage.recipientId
      modifies chatMessageService, chatMessageService.chatRoomService, simpMessagingTemplate
      ensures Valid()
      ensures var out := SaveMessage(old(chatMessageService.chatRoomService.rooms), old(chatMessageService.messages), chatMessage);
              && chatMessageService.chatRoomService.rooms == out.rooms
              && chatMessageService.messages == out.messages
              && simpMessagingTemplate.outbox == old(simpMessagingTemplate.outbox) + MessageFrames(chatMessage, out.stored)
    {
      var chatMessageDB := chatMessageService.Save(chatMessage);
      var payload := ChatNotification(chatMessageDB.id.value, chatMessageDB.senderId, chatMessageDB.recipientId, chatMessageDB.content);
      simpMessagingTemplate.ConvertAndSendToUser(chatMessage.recipientId, MessagesQueue, payload);
    }

    method FindChatMessages(senderId: string, recipientId: string) returns (history: seq<ChatMessage>)
      requires Valid()
      modifies chatMessageService.chatRoomService
      ensures Valid()
      ensures chatMessageService.chatRoomService.rooms == old(chatMessageService.chatRoomService.rooms)
      ensures history == ChatHistory(chatMessageService.chatRoomService.rooms, chatMessageService.messages, senderId, recipientId)
    {
      history := chatMessageService.FindChatMessages(senderId, recipientId);
    }
  }

  class UserController {
    const simpMessagingTemplate: SimpMessagingTemplate
    const userService: UserServiceImpl

    constructor (simpMessagingTemplate: SimpMessagingTemplate, userService: UserServiceImpl)
      ensures this.simpMessagingTemplate == simpMessagingTemplate && this.userService == userService
    {
      this.simpMessagingTemplate := simpMessagingTemplate;
      this.userService := userService;
    }

    /** Connects the user and broadcasts it, ONLINE whatever status it arrived with, on the public topic. */
    method AddUser(user: User) returns (broadcast: User)
      requires userService.Valid()
      modifies userService, simpMessagingTemplate
      ensures userService.Valid()
      ensures broadcast == User(user.nickName, user.fullName, Online)
      ensures userService.users == MarkOnline(old(userService.users), user)
      ensures simpMessagingTemplate.outbox == old(simpMessagingTemplate.outbox) + [ToTopic(PublicTopic, broadcast)]
    {
      broadcast := userService.SaveUser(user);
      simpMessagingTemplate.SendTo(PublicTopic, broadcast);
    }

    /** Disconnects the user and broadcasts the payload, exactly as received, on the public topic. */
    method Disconnect(user: User) returns (broadcast: User)
      requires userService.Valid()
      modifies userService, simpMessagingTemplate
      ensures userService.Valid()
      ensures broadcast == user
      ensures userService.users == MarkOffline(old(userService.users), user.nickName)
      ensures simpMessagingTemplate.outbox == old(simpMessagingTemplate.outbox) + [ToTopic(PublicTopic, user)]
    {
      userService.Disconnect(user);
      broadcast := user;
      simpMessagingTemplate.SendTo(PublicTopic, broadcast);
    }

    method FindConnectedUsers() returns (online: set<User>)
      ensures online == OnlineUsers(userService.users)
    {
      online := userService.FindConnectedUsers();
    }
  }
}
