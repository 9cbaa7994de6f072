/**
  The presence registry (UserServiceImpl): the user table keyed by
  nickname, connecting and disconnecting users, and the roster of users
  that are online.
 */
module Presence {
  import opened Documents

  /** Every stored user sits under its own nickname. */
  ghost predicate KeyedByNickName(users: map<string, User>) {
    forall n :: n in users ==> users[n].nickName == n
  }

  /** saveUser: the user, forced ONLINE, replaces whatever was stored under its nickname. */
  function MarkOnline(users: map<string, User>, user: User): (after: map<string, User>)
    ensures after.Keys == users.Keys + {user.nickName}
    ensures after[user.nickName] == User(user.nickName, user.fullName, Online)
    ensures forall n :: n in users && n != user.nickName ==> after[n] == users[n]
  {
    users[user.nickName := user.(status := Online)]
  }

  /** disconnect: only the status of a stored user changes; an unknown nickname changes nothing. */
  function MarkOffline(users: map<string, User>, nickName: string): (after: map<string, User>)
    ensures after.Keys == users.Keys
    ensures nickName in users ==> after[nickName] == User(users[nickName].nickName, users[nickName].fullName, Offline)
    ensures forall n :: n in users && n != nickName ==> after[n] == users[n]
    ensures nickName !in users ==> after == users
  {
    if nickName in users then users[nickName := users[nickName].(status := Offline)] else users
  }

  /** findAllByStatus(ONLINE): the stored users whose status is ONLINE. */
  function OnlineUsers(users: map<string, User>): (online: set<User>)
    ensures forall u :: u in online ==> u.status == Online && u in users.Values
    ensures forall n :: n in users && users[n].status == Online ==> users[n] in online
  {
    set n | n in users && users[n].status == Online :: users[n]
  }

  /** Both updates keep every user under its own nickname. */
  lemma UpdatesKeepKeys(users: map<string, User>, user: User, nickName: string)
    requires KeyedByNickName(users)
    ensures KeyedByNickName(MarkOnline(users, user))
    ensures KeyedByNickName(MarkOffline(users, nickName))
  {
  }

  /** In a table keyed by nickname, a user is online exactly when it is the stored record and says ONLINE. */
  lemma OnlineUsersExact(users: map<string, User>, u: User)
    requires KeyedByNickName(users)
    ensures u in OnlineUsers(users) <==> u.nickName in users && users[u.nickName] == u && u.status == Online
  {
    if u in OnlineUsers(users) {
      var n :| n in users && users[n] == u;
    }
  }

  /** After saveUser the roster is the old one, minus the old record under that nickname, plus the user ONLINE. */
  lemma RosterAfterSaveUser(users: map<string, User>, user: User)
    requires KeyedByNickName(users)
    ensures OnlineUsers(MarkOnline(users, user))
         == (set u | u in OnlineUsers(users) && u.nickName != user.nickName) + {User(user.nickName, user.fullName, Online)}
  {
    var after := MarkOnline(users, user);
    UpdatesKeepKeys(users, user, user.nickName);
    forall u
      ensures u in OnlineUsers(after)
          <==> u in (set u | u in OnlineUsers(users) && u.nickName != user.nickName) + {User(user.nickName, user.fullName, Online)}
    {
      OnlineUsersExact(users, u);
      OnlineUsersExact(after, u);
    }
  }

  /**
    After disconnect the roster is the old one without any user of that
    nickname; this covers the nickname that was never stored.
   */
  lemma RosterAfterDisconnect(users: map<string, User>, nickName: string)
    requires KeyedByNickName(users)
    ensures OnlineUsers(MarkOffline(users, nickName)) == set u | u in OnlineUsers(users) && u.nickName != nickName
  {
    var after := MarkOffline(users, nickName);
    UpdatesKeepKeys(users, User(nickName, "", Offline), nickName);
    forall u
      ensures u in OnlineUsers(after) <==> u in OnlineUsers(users) && u.nickName != nickName
    {
      OnlineUsersExact(users, u);
      OnlineUsersExact(after, u);
    }
  }

  /** Connecting and then disconnecting a user leaves it stored, OFFLINE, and off the roster. */
  lemma ConnectThenDisconnect(users: map<string, User>, user: User)
    requires KeyedByNickName(users)
    ensures User(user.nickName, user.fullName, Online) in OnlineUsers(MarkOnline(users, user))
    ensures var after := MarkOffline(MarkOnline(users, user), user.nickName);
            && after[user.nickName] == User(user.nickName, user.fullName, Offline)
            && forall u :: u in OnlineUsers(after) ==> u.nickName != user.nickName
  {
    UpdatesKeepKeys(users, user, user.nickName);
    RosterAfterDisconnect(MarkOnline(users, user), user.nickName);
  }

  /** The user service, holding the user repository. */
  class UserServiceImpl {
    var users: map<string, User>

    ghost predicate Valid()
      reads this
    {
      KeyedByNickName(users)
    }

    constructor ()
      ensures Valid() && users == map[]
    {
      users := map[];
    }

    /** Forces the user ONLINE (answering the updated user) and stores it under its nickname. */
    method SaveUser(user: User) returns (online: User)
      requires Valid()
      modifies this
      ensures Valid()
      ensures online == User(user.nickName, user.fullName, Online)
      ensures users == MarkOnline(old(users), user)
    {
      online := user.(status := Online);
      users := users[online.nickName := online];
    }

    /** Sets the stored copy OFFLINE when the nickname is stored; otherwise does nothing. */
    method Disconnect(user: User)
      requires Valid()
      modifies this
      ensures Valid()
      ensures users == MarkOffline(old(users), user.nickName)
    {
      if user.nickName in users {
        var stored := users[user.nickName];
        stored := stored.(status := Offline);
        users := users[user.nickName := stored];
      }
    }

    method FindConnectedUsers() returns (online: set<User>)
      ensures online == OnlineUsers(users)
      ensures forall u :: u in online <==> u in users.Values && u.status == Online
    {
      online := OnlineUsers(users);
    }
  }
}
