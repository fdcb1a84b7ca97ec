/**
  The server's stores as objects and its handlers as methods that issue one store command after the
  other.  Each handler is proved to take the step that module Store gives for its event.
*/
module Server {
  import opened Base
  import opened Chat
  import opened Store
  import opened ClientPackets

  // ---------------------------------------------------------------- MongoDB

  class MongoStore {
    var users: map<int, UserDoc>
    var rooms: map<int, RoomDoc>
    var userSeq: int
    var roomSeq: int

    ghost function View(): Mongo
      reads this
    {
      Mongo(users, rooms, userSeq, roomSeq)
    }

    /** `mongodb_init` empties the collections and starts both counters at 1. */
    constructor ()
      ensures View() == INIT.mongo
    {
      users, rooms, userSeq, roomSeq := map[], map[], 1, 1;
    }

    method NextUserId() returns (id: int)
      modifies this`userSeq
      ensures id == userSeq == old(userSeq) + 1
    {
      userSeq := userSeq + 1;
      id := userSeq;
    }

    method NextRoomId() returns (id: int)
      modifies this`roomSeq
      ensures id == roomSeq == old(roomSeq) + 1
    {
      roomSeq := roomSeq + 1;
      id := roomSeq;
    }

    method UserGetId(name: string) returns (id: int)
      requires Distinct(DocNames(users))
      ensures id == IdNamed(View(), name)
    {
      if k :| k in users && users[k].name == name {
        assert DocNames(users)[k] == name;
        return k;
      }
      assert forall k :: k in DocNames(users) ==> k in users && DocNames(users)[k] == users[k].name;
      return -1;
    }

    method UserGetName(id: int) returns (name: string)
      ensures name == NameOf(View(), id)
    {
      name := if id in users then users[id].name else "Unknown";
    }

    method UserRead(name: string) returns (user: Option<UserDoc>)
      requires Distinct(DocNames(users))
      ensures match IdOf(DocNames(users), name)
              case None => user == None
              case Some(k) => user == Some(Trimmed(users[k]))
    {
      if k :| k in users && users[k].name == name {
        var doc := users[k];
        var friends, chats := [], [];
        while |friends| < |doc.friends| && |friends| < FRIENDS_MAX
          invariant friends <= doc.friends && |friends| <= FRIENDS_MAX
        {
          friends := friends + [doc.friends[|friends|]];
        }
        while |chats| < |doc.chats| && |chats| < ROOM_MAX
          invariant chats <= doc.chats && |chats| <= ROOM_MAX
        {
          chats := chats + [doc.chats[|chats|]];
        }
        assert DocNames(users)[k] == name;
        assert friends == Trimmed(doc).friends && chats == Trimmed(doc).chats;
        return Some(doc.(name := name, friends := friends, chats := chats));
      }
      assert forall k :: k in DocNames(users) ==> k in users && DocNames(users)[k] == users[k].name;
      return None;
    }

    /** Replaces the document with that id, or inserts it. */
    method UserWrite(user: UserDoc)
      requires SizedUser(user)
      modifies this`users
      ensures users == old(users)[user.id := user]
    {
      var friends, chats := [], [];
      for i := 0 to user.friendsNum
        invariant friends == user.friends[..i]
      {
        friends := friends + [user.friends[i]];
      }
      for i := 0 to user.chatsNum
        invariant chats == user.chats[..i]
      {
        chats := chats + [user.chats[i]];
      }
      assert friends == user.friends && chats == user.chats;
      users := users[user.id := user.(friends := friends, chats := chats)];
    }

    method AddChatToUser(id: int, chat: int)
      modifies this`users
      ensures users == if id !in old(users) then old(users) else
        old(users)[id := old(users)[id].(chats := old(users)[id].chats + [chat],
                                         chatsNum := old(users)[id].chatsNum + 1)]
    {
      if id in users {
        users := users[id := users[id].(chats := users[id].chats + [chat], chatsNum := users[id].chatsNum + 1)];
      }
    }

    method RoomRead(id: int) returns (room: Option<RoomDoc>)
      requires id in rooms ==> |rooms[id].users| <= ROOM_MAX
      ensures room == if id in rooms then Some(rooms[id].(id := id, messages := CutAll(rooms[id].messages))) else None
    {
      if id !in rooms {
        return None;
      }
      var doc := rooms[id];
      var members, messages := [], [];
      while |members| < |doc.users| && |members| < ROOM_MAX
        invariant members <= doc.users
      {
        members := members + [doc.users[|members|]];
      }
      for i := 0 to |doc.messages|
        invariant messages == CutAll(doc.messages[..i])
      {
        messages := messages + [Cut(doc.messages[i])];
      }
      assert doc.messages[..|doc.messages|] == doc.messages && members == doc.users;
      return Some(RoomDoc(id, members, doc.userAmount, messages, doc.messageAmount));
    }

    method RoomWrite(room: RoomDoc)
      requires SizedRoom(room)
      modifies this`rooms
      ensures rooms == old(rooms)[room.id := room]
    {
      var members, messages := [], [];
      for i := 0 to room.userAmount
        invariant members == room.users[..i]
      {
        members := members + [room.users[i]];
      }
      for i := 0 to room.messageAmount
        invariant messages == room.messages[..i]
      {
        messages := messages + [room.messages[i]];
      }
      assert members == room.users && messages == room.messages;
      rooms := rooms[room.id := room.(users := members, messages := messages)];
    }
  }

  // ---------------------------------------------------------------- Redis

  class RedisStore {
    var users: map<int, UserKeys>
    var invites: map<int, seq<int>>
    var online: set<int>
    var sockets: map<int, SocketHash>
    var sessions: map<string, int>
    var rooms: map<int, RoomKeys>

    ghost function View(): Redis
      reads this
    {
      Redis(users, invites, online, sockets, sessions, rooms)
    }

    constructor ()
      ensures View() == COLD
    {
      users, invites, online, sockets, sessions, rooms := map[], map[], {}, map[], map[], map[];
    }

    method SessionRead(session: string) returns (id: int)
      ensures id == if session in sessions then sessions[session] else -1
    {
      id := if session in sessions then sessions[session] else -1;
    }

    /** HSET answers 0, read as a failure, when the field was already there; the value is set all the same. */
    method SessionWrite(session: string, id: int) returns (ok: bool)
      modifies this`sessions
      ensures sessions == old(sessions)[session := id]
      ensures ok <==> session !in old(sessions)
    {
      ok := session !in sessions;
      sessions := sessions[session := id];
    }

    method UserExist(id: int) returns (exist: bool)
      ensures exist <==> id in users
    {
      exist := id in users;
    }

    method SocketWrite(id: int, session: string, socket: int)
      modifies this`users, this`sockets
      ensures View() == Attach(old(View()), id, session, socket)
    {
      var keys := if id in users then users[id] else NO_USER;
      users := users[id := keys.(socket := Some(socket))];
      sockets := sockets[socket := SocketHash(id, session)];
    }

    method SocketRead(id: int) returns (socket: Option<int>)
      ensures socket == if id in users then users[id].socket else None
    {
      socket := if id in users then users[id].socket else None;
    }

    method Online(id: int)
      modifies this`online
      ensures online == old(online) + {id}
    {
      online := online + {id};
    }

    method UserWrite(user: UserDoc, mongo: MongoStore)
      requires SizedUser(user)
      modifies this`users
      ensures users == old(users)[user.id :=
        Filled(mongo.View(), if user.id in old(users) then old(users)[user.id] else NO_USER, user)]
    {
      var info := Info(user.name, user.password, user.friendsNum, user.chatsNum);
      users := users[user.id := (if user.id in users then users[user.id] else NO_USER).(info := Some(info))];
      PushFriends(user.id, user.friends, mongo);
      PushChats(user.id, user.chats);
    }

    /** Its first loop: the friends' names. */
    method PushFriends(id: int, friends: seq<int>, mongo: MongoStore)
      requires id in users
      modifies this`users
      ensures users == old(users)[id := old(users)[id].(
        friends := old(users)[id].friends + NamesOf(mongo.View(), friends))]
    {
      ghost var before := users[id];
      assert before.friends + NamesOf(mongo.View(), []) == before.friends;
      for i := 0 to |friends|
        invariant id in users && users == old(users)[id := users[id]]
        invariant users[id] == before.(friends := before.friends + NamesOf(mongo.View(), friends[..i]))
      {
        var name := mongo.UserGetName(friends[i]);
        assert NamesOf(mongo.View(), friends[..i + 1]) == NamesOf(mongo.View(), friends[..i]) + [name];
        users := users[id := users[id].(friends := users[id].friends + [name])];
      }
      assert friends[..|friends|] == friends;
    }

    /** Its second loop: the chats. */
    method PushChats(id: int, chats: seq<int>)
      requires id in users
      modifies this`users
      ensures users == old(users)[id := old(users)[id].(chats := old(users)[id].chats + chats)]
    {
      ghost var before := users[id];
      assert before.chats + [] == before.chats;
      for i := 0 to |chats|
        invariant id in users && users == old(users)[id := users[id]]
        invariant users[id] == before.(chats := before.chats + chats[..i])
      {
        assert chats[..i + 1] == chats[..i] + [chats[i]];
        users := users[id := users[id].(chats := users[id].chats + [chats[i]])];
      }
      assert chats[..|chats|] == chats;
    }

    method UserRead(session: string, mongo: MongoStore) returns (user: Option<UserDoc>)
      requires Distinct(DocNames(mongo.users))
      requires forall id :: id in users ==> SizedKeys(users[id])
      ensures user == ReadUser(World(mongo.View(), View()), session)
    {
      var id := SessionRead(session);
      if session !in sessions || id !in users || users[id].info.None? {
        return None;
      }
      var keys := users[id];
      var friends, chats := [], [];
      for i := 0 to |keys.friends|
        invariant friends == IdsNamed(mongo.View(), keys.friends[..i])
      {
        var friend := mongo.UserGetId(keys.friends[i]);
        friends := friends + [friend];
      }
      assert keys.friends[..|keys.friends|] == keys.friends;
      for i := 0 to |keys.chats|
        invariant chats == keys.chats[..i]
      {
        chats := chats + [keys.chats[i]];
      }
      assert chats == keys.chats;
      var info := keys.info.value;
      return Some(UserDoc(id, info.name, info.password, friends, info.friendsNum, chats, info.chatsNum));
    }

    method AddFriend(id: int, friend: int, mongo: MongoStore)
      requires id in users && users[id].info.Some?
      modifies this`users
      ensures users == old(users)[id := old(users)[id].(
        friends := old(users)[id].friends + [NameOf(mongo.View(), friend)],
        info := Some(old(users)[id].info.value.(friendsNum := old(users)[id].info.value.friendsNum + 1)))]
    {
      var name := mongo.UserGetName(friend);
      users := users[id := users[id].(friends := users[id].friends + [name])];
      var info := users[id].info.value;
      users := users[id := users[id].(info := Some(info.(friendsNum := info.friendsNum + 1)))];
    }

    method AddChatToUser(id: int, chat: int)
      requires id in users && users[id].info.Some?
      modifies this`users
      ensures users == old(users)[id := old(users)[id].(
        chats := old(users)[id].chats + [chat],
        info := Some(old(users)[id].info.value.(chatsNum := old(users)[id].info.value.chatsNum + 1)))]
    {
      users := users[id := users[id].(chats := users[id].chats + [chat])];
      var info := users[id].info.value;
      users := users[id := users[id].(info := Some(info.(chatsNum := info.chatsNum + 1)))];
    }

    /** `redis_user_offline` with `redis_user_cleanup`: it reports a missing socket, and deletes the keys anyway. */
    method Offline(id: int) returns (ok: bool)
      requires id in users
      modifies this`online, this`sockets, this`users
      ensures View() == Forget(old(View()), id)
      ensures ok <==> old(users)[id].socket.Some?
    {
      online := online - {id};
      var socket := SocketRead(id);
      ok := socket.Some?;
      if ok {
        sockets := sockets - {socket.value};
      }
      users := users - {id};
    }

    method CheckFriendInvite(inviter: int, invited: int) returns (pending: bool)
      ensures pending <==> inviter in At(invites, invited)
    {
      pending := invited in invites && inviter in invites[invited];
    }

    method AddFriendInvite(inviter: int, invited: int)
      modifies this`invites
      ensures invites == old(invites)[invited := At(old(invites), invited) + [inviter]]
    {
      invites := invites[invited := At(invites, invited) + [inviter]];
    }

    method RemoveFriendInvite(inviter: int, invited: int)
      modifies this`invites
      ensures invites == old(invites)[invited := Without(At(old(invites), invited), inviter)]
    {
      invites := invites[invited := Without(At(invites, invited), inviter)];
    }

    method RoomExist(id: int) returns (exist: bool)
      ensures exist <==> id in rooms
    {
      exist := id in rooms;
    }

    method RoomWrite(room: RoomDoc)
      requires SizedRoom(room)
      modifies this`rooms
      ensures rooms == old(rooms)[room.id :=
        Written(if room.id in old(rooms) then old(rooms)[room.id] else NO_ROOM, room)]
    {
      var keys := if room.id in rooms then rooms[room.id] else NO_ROOM;
      var members := keys.users;
      for i := 0 to room.userAmount
        invariant members == keys.users + room.users[..i]
      {
        members := members + [room.users[i]];
      }
      assert members == keys.users + room.users;
      keys := keys.(userAmount := room.userAmount, messageAmount := room.messageAmount, users := members);
      ghost var headed := keys;
      for i := 0 to room.messageAmount
        invariant keys == PushAll(headed, room.messages[..i])
      {
        keys := Push(keys, room.messages[i]);
        assert room.messages[..i + 1][..i] == room.messages[..i];
      }
      assert room.messages[..room.messageAmount] == room.messages;
      rooms := rooms[room.id := keys];
    }

    method RoomRead(id: int) returns (room: RoomDoc)
      requires id in rooms && SizedRoomKeys(rooms[id])
      ensures room == Snapshot(id, rooms[id])
    {
      var keys := rooms[id];
      var members, messages := [], [];
      for i := 0 to keys.userAmount
        invariant members == keys.users[..i]
      {
        members := members + [keys.users[i]];
      }
      for i := 0 to keys.messageAmount
        invariant messages == CutAll(Listed(keys))[..i]
      {
        messages := messages + [Cut(Stored(keys, keys.ids[i]))];
      }
      assert members == keys.users && messages == CutAll(Listed(keys));
      return RoomDoc(id, members, keys.userAmount, messages, keys.messageAmount);
    }

    method RoomBelongsToUser(session: string, room: int, mongo: MongoStore) returns (belongs: bool)
      requires Distinct(DocNames(mongo.users))
      requires forall id :: id in users ==> SizedKeys(users[id])
      ensures belongs <==> room in rooms && ReadUser(World(mongo.View(), View()), session).Some?
                           && room in ReadUser(World(mongo.View(), View()), session).value.chats
    {
      if room !in rooms {
        return false;
      }
      var user := UserRead(session, mongo);
      if user.None? {
        return false;
      }
      assert SizedKeys(users[user.value.id]);
      for i := 0 to user.value.chatsNum
        invariant room !in user.value.chats[..i]
      {
        if user.value.chats[i] == room {
          return true;
        }
      }
      assert user.value.chats[..user.value.chatsNum] == user.value.chats;
      return false;
    }

    method RoomMessageNext(sender: int, room: int, text: string, date: int) returns (msg: Message)
      requires room in rooms
      modifies this`rooms
      ensures msg == Message(old(rooms)[room].messageAmount + 1, sender, Clip(text, MESSAGE_MAX_SIZE), date)
      ensures rooms == old(rooms)[room := old(rooms)[room].(messageAmount := msg.id)]
    {
      var id := rooms[room].messageAmount + 1;
      rooms := rooms[room := rooms[room].(messageAmount := id)];
      msg := Message(id, sender, Clip(text, MESSAGE_MAX_SIZE), date);
    }

    method RoomMessageWrite(room: int, msg: Message)
      requires room in rooms
      modifies this`rooms
      ensures rooms == old(rooms)[room := Push(old(rooms)[room], msg)]
    {
      rooms := rooms[room := Push(rooms[room], msg)];
    }
  }

  // ---------------------------------------------------------------- handlers

  datatype Packet = Fail | NumberedFail(room: int) | RoomMessage(room: int, msg: Message)
  datatype Delivery = Delivery(socket: int, packet: Packet)

  /** A message goes on to every other member who is online and has a socket. */
  function Forwards(users: map<int, UserKeys>, online: set<int>, members: seq<int>, sender: int, packet: Packet)
    : seq<Delivery>
  {
    if members == [] then []
    else
      var before := Forwards(users, online, members[..|members| - 1], sender, packet);
      var m := members[|members| - 1];
      if m != sender && m in online && m in users && users[m].socket.Some?
      then before + [Delivery(users[m].socket.value, packet)]
      else before
  }

  function SendEvent(packet: string, date: int): Option<Event>
    requires SizeIsNatural(packet)
  {
    if ExtractThirdNumber(packet).None? || ExtractMessage(packet).None? || ExtractSession(packet).None? then None
    else Some(Send(ExtractSession(packet).value, ExtractThirdNumber(packet).value, ExtractMessage(packet).value, date))
  }

  /** What a message request sends back and on. */
  ghost function Replies(w: World, replySocket: int, packet: string, date: int): seq<Delivery>
    requires SizeIsNatural(packet)
  {
    var e := SendEvent(packet, date);
    if ExtractThirdNumber(packet).None? then [Delivery(replySocket, Fail)]
    else if e.None? || !Accepted(w, e.value)
    then [Delivery(replySocket, NumberedFail(ExtractThirdNumber(packet).value))]
    else
      var keys := w.redis.rooms[e.value.room];
      var sender := w.redis.sessions[e.value.session];
      var passed := RoomMessage(e.value.room,
        Message(keys.messageAmount + 1, sender, Clip(e.value.text, MESSAGE_MAX_SIZE), date));
      [Delivery(replySocket, passed)] + Forwards(w.redis.users, w.redis.online, keys.users, sender, passed)
  }

  ghost predicate Accepted(w: World, e: Event) {
    && e.Send? && e.room in w.redis.rooms
    && e.session in w.redis.sessions && ReadUser(w, e.session).Some?
    && e.room in ReadUser(w, e.session).value.chats
  }

  /** A logout that runs to the end: a loaded user, a socket, and every chat in Redis. */
  ghost predicate LeavesCleanly(w: World, session: string) {
    var user := ReadUser(w, session);
    && user.Some? && w.redis.users[user.value.id].socket.Some?
    && Present(user.value.chats, w.redis.rooms.Keys) == user.value.chats
  }

  /** A load that runs to the end: a known user all of whose chats are in one store or the other. */
  ghost predicate LoadsCleanly(w: World, session: string) {
    && session in w.redis.sessions && w.redis.sessions[session] in w.mongo.users
    && w.mongo.users[w.redis.sessions[session]].name != "Unknown"
    && var chats := w.mongo.users[w.redis.sessions[session]].chats;
       Present(chats, w.redis.rooms.Keys + w.mongo.rooms.Keys) == chats
  }

  ghost predicate RightPassword(m: Mongo, name: string, password: string) {
    IdNamed(m, name) in m.users && m.users[IdNamed(m, name)].password == password
  }

  /** A login packet answered for a freshly drawn session key. */
  ghost function AfterLogin(w: World, packet: string, session: string): World {
    match ExtractCredentials(packet)
    case None => w
    case Some(c) => Store.Step(w, LogIn(c.0, c.1, session))
  }

  /** The login is answered with the key, not with a failure. */
  ghost predicate LoginOk(w: World, packet: string, session: string) {
    && ExtractCredentials(packet).Some? && session !in w.redis.sessions
    && RightPassword(w.mongo, ExtractCredentials(packet).value.0, ExtractCredentials(packet).value.1)
  }

  /** A friend request is answered ok unless the name, the sender or the pair makes no sense. */
  ghost predicate AskMakesSense(w: World, e: Event)
    requires e.AddFriend?
  {
    && IdNamed(w.mongo, e.friend) != -1 && ReadUser(w, e.session).Some?
    && ReadUser(w, e.session).value.id != IdNamed(w.mongo, e.friend)
  }

  function AddFriendEvent(packet: string): Option<Event> {
    if ExtractSession(packet).None? || ExtractFriendName(packet).None? then None
    else Some(AddFriend(ExtractSession(packet).value, ExtractFriendName(packet).value))
  }

  ghost function Next(w: World, e: Option<Event>): World {
    match e
    case None => w
    case Some(event) => Store.Step(w, event)
  }

  class ChatServer {
    const mongo: MongoStore
    const redis: RedisStore

    ghost function View(): World
      reads mongo, redis
    {
      World(mongo.View(), redis.View())
    }

    ghost predicate Valid()
      reads mongo, redis
    {
      Sound(View())
    }

    constructor ()
      ensures View() == INIT && Valid() && fresh(mongo) && fresh(redis)
    {
      mongo := new MongoStore();
      redis := new RedisStore();
    }

    method OnAccountCreate(packet: string) returns (ok: bool)
      requires Valid()
      modifies mongo
      ensures View() == match ExtractCredentials(packet)
                        case None => old(View())
                        case Some(c) => Store.Step(old(View()), CreateAccount(c.0, c.1))
      ensures ok <==> ExtractCredentials(packet).Some?
                      && IdNamed(old(mongo.View()), ExtractCredentials(packet).value.0) <= 0
    {
      var credentials := ExtractCredentials(packet);
      if credentials.None? {
        return false;
      }
      var (name, password) := credentials.value;
      var taken := mongo.UserGetId(name);
      if taken > 0 {
        return false;
      }
      var id := mongo.NextUserId();
      mongo.UserWrite(UserDoc(id, name, password, [], 0, [], 0));
      ok := true;
    }

    /** The id of the user with these credentials, or -1. */
    method Auth(name: string, password: string) returns (id: int)
      requires Valid()
      ensures id == if RightPassword(mongo.View(), name, password) then IdNamed(mongo.View(), name) else -1
    {
      var known := mongo.UserGetId(name);
      if known < 1 {
        return -1;
      }
      var user := mongo.UserRead(name);
      if user.None? || user.value.password != password {
        return -1;
      }
      id := user.value.id;
    }

    method OnLogIn(packet: string, session: string) returns (ok: bool)
      requires Valid()
      modifies redis
      ensures View() == AfterLogin(old(View()), packet, session)
      ensures ok <==> LoginOk(old(View()), packet, session)
    {
      var credentials := ExtractCredentials(packet);
      if credentials.None? {
        return false;
      }
      var (name, password) := credentials.value;
      var id := Auth(name, password);
      if id == -1 {
        return false;
      }
      ok := redis.SessionWrite(session, id);
      if !ok {
        return false;
      }
      redis.Online(id);
    }

    /** The import loop of `mongodb_to_redis`: it stops at a chat neither store has. */
    method ImportChats(chats: seq<int>) returns (ok: bool)
      requires DocsSound(mongo.View())
      modifies redis`rooms
      ensures var known := old(redis.rooms).Keys + mongo.rooms.Keys;
              && redis.rooms == Import(old(View()), Present(chats, known))
              && (ok <==> Present(chats, known) == chats)
    {
      hide Import, PushAll;
      ghost var w := View();
      ghost var known := redis.rooms.Keys + mongo.rooms.Keys;
      ImportNext(w, [], 0);
      for i := 0 to |chats|
        invariant redis.rooms == Import(w, chats[..i])
        invariant forall k :: 0 <= k < i ==> chats[k] in known
      {
        ImportNext(w, chats[..i], chats[i]);
        assert chats[..i + 1] == chats[..i] + [chats[i]];
        var exist := redis.RoomExist(chats[i]);
        if !exist {
          var room := mongo.RoomRead(chats[i]);
          if room.None? {
            PresentUpTo(chats, known, i);
            return false;
          }
          redis.RoomWrite(room.value);
        }
      }
      assert chats[..|chats|] == chats;
      PresentAll(chats, known);
      ok := true;
    }

    /** `mongodb_to_redis`. */
    method MongoToRedis(name: string) returns (ok: bool)
      requires DocsSound(mongo.View())
      requires forall k :: k in mongo.users && mongo.users[k].name == name ==> Capped(mongo.users[k])
      modifies redis
      ensures View() == Fetch(old(View()), name)
      ensures match IdOf(DocNames(mongo.users), name)
              case None => !ok
              case Some(k) => ok <==>
                Present(mongo.users[k].chats, old(redis.rooms).Keys + mongo.rooms.Keys) == mongo.users[k].chats
    {
      var user := mongo.UserRead(name);
      if user.None? {
        return false;
      }
      var imported := ImportChats(user.value.chats);
      if !imported {
        return false;
      }
      redis.Online(user.value.id);
      redis.UserWrite(user.value, mongo);
      ok := true;
    }

    method OnDataRequest(packet: string, socket: int) returns (ok: bool)
      requires Valid()
      requires ExtractSession(packet).Some? ==> Fits(View(), LoadData(ExtractSession(packet).value, socket))
      modifies redis
      ensures View() == match ExtractSession(packet)
                        case None => old(View())
                        case Some(session) => Store.Step(old(View()), LoadData(session, socket))
      ensures ok <==> ExtractSession(packet).Some? && LoadsCleanly(old(View()), ExtractSession(packet).value)
    {
      var session := ExtractSession(packet);
      if session.None? {
        return false;
      }
      var id := redis.SessionRead(session.value);
      if id < 1 {
        return false;
      }
      var name := mongo.UserGetName(id);
      if name == "Unknown" {
        return false;
      }
      redis.SocketWrite(id, session.value, socket);
      NamedBy(mongo.View(), id, name);
      ok := MongoToRedis(name);
    }

    method OnMessageRequest(replySocket: int, packet: string, date: int) returns (out: seq<Delivery>)
      requires Valid() && SizeIsNatural(packet)
      modifies redis`rooms
      ensures View() == Next(old(View()), SendEvent(packet, date))
      ensures out == Replies(old(View()), replySocket, packet, date)
    {
      hide Posted, Forwards;
      var room := ExtractThirdNumber(packet);
      if room.None? {
        return [Delivery(replySocket, Fail)];
      }
      var refusal := [Delivery(replySocket, NumberedFail(room.value))];
      var text := ExtractMessage(packet);
      var session := ExtractSession(packet);
      if text.None? || session.None? {
        return refusal;
      }
      var exist := redis.RoomExist(room.value);
      if !exist {
        return refusal;
      }
      var belongs := redis.RoomBelongsToUser(session.value, room.value, mongo);
      if !belongs {
        return refusal;
      }
      var sender := redis.SessionRead(session.value);
      out := PostMessage(replySocket, sender, room.value, text.value, date);
    }

    /** The accepted part of a message request: draw an id, store, reply, pass on. */
    method PostMessage(replySocket: int, sender: int, room: int, text: string, date: int) returns (out: seq<Delivery>)
      requires Valid() && room in redis.rooms
      modifies redis`rooms
      ensures redis.rooms == old(redis.rooms)[room := Posted(old(redis.rooms)[room], sender, text, date)]
      ensures var passed := RoomMessage(room,
                Message(old(redis.rooms)[room].messageAmount + 1, sender, Clip(text, MESSAGE_MAX_SIZE), date));
              out == [Delivery(replySocket, passed)]
                + Forwards(redis.users, redis.online, old(redis.rooms)[room].users, sender, passed)
    {
      var doc := redis.RoomRead(room);
      var msg := redis.RoomMessageNext(sender, room, text, date);
      redis.RoomMessageWrite(room, msg);
      var forwards := ForwardAll(doc.users, sender, RoomMessage(room, msg));
      out := [Delivery(replySocket, RoomMessage(room, msg))] + forwards;
    }

    /** The loop that passes a message on. */
    method ForwardAll(members: seq<int>, sender: int, packet: Packet) returns (out: seq<Delivery>)
      ensures out == Forwards(redis.users, redis.online, members, sender, packet)
    {
      out := [];
      for i := 0 to |members|
        invariant out == Forwards(redis.users, redis.online, members[..i], sender, packet)
      {
        assert members[..i + 1][..i] == members[..i];
        if members[i] != sender {
          if members[i] in redis.online {
            var socket := redis.SocketRead(members[i]);
            if socket.Some? {
              out := out + [Delivery(socket.value, packet)];
            }
          }
        }
      }
      assert members[..|members|] == members;
    }

    method OnFriendAddRequest(packet: string) returns (ok: bool)
      requires Valid()
      requires AddFriendEvent(packet).Some? ==> Fits(View(), AddFriendEvent(packet).value)
      modifies mongo, redis
      ensures View() == Next(old(View()), AddFriendEvent(packet))
      ensures ok <==> AddFriendEvent(packet).Some? && AskMakesSense(old(View()), AddFriendEvent(packet).value)
    {
      hide Accept, Without;
      var session := ExtractSession(packet);
      var friend := ExtractFriendName(packet);
      if session.None? || friend.None? {
        return false;
      }
      var v := mongo.UserGetId(friend.value);
      if v == -1 {
        return false;
      }
      var user := redis.UserRead(session.value, mongo);
      if user.None? || user.value.id == v {
        return false;
      }
      var u := user.value.id;
      var repeated := redis.CheckFriendInvite(u, v);
      if repeated {
        return true;
      }
      var answered := redis.CheckFriendInvite(v, u);
      if answered {
        redis.RemoveFriendInvite(v, u);
        AcceptApart(old(View()), u, v, redis.invites);
        MakeFriends(u, v, friend.value);
      } else {
        redis.AddFriendInvite(u, v);
      }
      ok := true;
    }

    /** `room_creation`: a fresh id, the room in MongoDB and in Redis. */
    method RoomCreation(members: seq<int>) returns (room: int)
      modifies mongo`roomSeq, mongo`rooms, redis`rooms
      ensures room == mongo.roomSeq == old(mongo.roomSeq) + 1
      ensures mongo.rooms == old(mongo.rooms)[room := RoomDoc(room, members, |members|, [], 0)]
      ensures redis.rooms == old(redis.rooms)[room :=
        Written(if room in old(redis.rooms) then old(redis.rooms)[room] else NO_ROOM,
                RoomDoc(room, members, |members|, [], 0))]
    {
      room := mongo.NextRoomId();
      mongo.RoomWrite(RoomDoc(room, members, |members|, [], 0));
      redis.RoomWrite(RoomDoc(room, members, |members|, [], 0));
    }

    /** The inviter's answerer: friend, new room and chat, all in Redis; the room in MongoDB too. */
    method JoinSender(u: int, v: int) returns (room: int)
      requires Valid() && u in redis.users
      modifies mongo`roomSeq, mongo`rooms, redis`rooms, redis`users
      ensures room == mongo.roomSeq == old(mongo.roomSeq) + 1
      ensures mongo.rooms == old(mongo.rooms)[room := RoomDoc(room, [u, v], 2, [], 0)]
      ensures redis.rooms == old(redis.rooms)[room :=
        Written(if room in old(redis.rooms) then old(redis.rooms)[room] else NO_ROOM, RoomDoc(room, [u, v], 2, [], 0))]
      ensures redis.users == old(redis.users)[u := Joined(old(redis.users)[u], NameOf(mongo.View(), v), room)]
    {
      redis.AddFriend(u, v, mongo);
      room := RoomCreation([u, v]);
      redis.AddChatToUser(u, room);
    }

    /** The other side, in the store that holds it. */
    method JoinReceiver(v: int, u: int, friend: string, room: int)
      requires DocsSound(mongo.View()) && v in mongo.users && mongo.users[v].name == friend
      requires if v in redis.users then redis.users[v].info.Some? else Capped(mongo.users[v])
      modifies mongo`users, redis`users
      ensures v in old(redis.users) ==> mongo.users == old(mongo.users)
      ensures v in old(redis.users) ==>
        redis.users == old(redis.users)[v := Joined(old(redis.users)[v], NameOf(mongo.View(), u), room)]
      ensures v !in old(redis.users) ==> redis.users == old(redis.users)
      ensures v !in old(redis.users) ==>
        mongo.users == old(mongo.users)[v := JoinedDoc(old(mongo.users)[v], u, room)]
    {
      var online := redis.UserExist(v);
      if online {
        redis.AddFriend(v, u, mongo);
        redis.AddChatToUser(v, room);
      } else {
        NamedBy(mongo.View(), v, friend);
        var doc := mongo.UserRead(friend);
        mongo.UserWrite(doc.value.(friends := doc.value.friends + [u], friendsNum := doc.value.friendsNum + 1));
        mongo.AddChatToUser(v, room);
      }
    }

    /** The accepting part of `on_friend_add_request`, after the invite is removed. */
    method MakeFriends(u: int, v: int, friend: string)
      requires Valid() && u in redis.users && u != v && v in mongo.users
      requires mongo.users[v].name == friend && (v !in redis.users ==> Capped(mongo.users[v]))
      modifies mongo, redis
      ensures View() == Accept(old(View()), u, v).(
        redis := Accept(old(View()), u, v).redis.(invites := old(redis.invites)))
    {
      var room := JoinSender(u, v);
      assert DocNames(mongo.users) == DocNames(old(mongo.users));
      assert v in redis.users ==> old(redis.users)[v].info.Some?;
      JoinReceiver(v, u, friend, room);
    }

    /** `mongodb_room_any_online`. */
    method RoomAnyOnline(id: int, room: RoomDoc) returns (any: bool)
      requires SizedRoom(room)
      ensures any <==> AnyOther(room.users, redis.View(), id)
    {
      for i := 0 to room.userAmount
        invariant forall k :: 0 <= k < i ==> room.users[k] == id || room.users[k] !in redis.users
      {
        if room.users[i] != id {
          var exist := redis.UserExist(room.users[i]);
          if exist {
            return true;
          }
        }
      }
      return false;
    }

    /** The flush loop of `redis_to_mongodb`, over the chats of a user already taken offline. */
    method FlushChats(id: int, chats: seq<int>) returns (ok: bool)
      requires forall r :: r in redis.rooms ==> SizedRoomKeys(redis.rooms[r])
      modifies mongo`rooms
      ensures var present := Present(chats, redis.rooms.Keys);
              && mongo.rooms == Flush(old(mongo.rooms), redis.View(), id, present)
              && (ok <==> present == chats)
    {
      ghost var rooms := mongo.rooms;
      FlushNext(rooms, redis.View(), id, [], 0);
      for i := 0 to |chats|
        invariant mongo.rooms == Flush(rooms, redis.View(), id, chats[..i])
        invariant forall k :: 0 <= k < i ==> chats[k] in redis.rooms
      {
        var exist := redis.RoomExist(chats[i]);
        if !exist {
          PresentUpTo(chats, redis.rooms.Keys, i);
          return false;
        }
        FlushNext(rooms, redis.View(), id, chats[..i], chats[i]);
        assert chats[..i + 1] == chats[..i] + [chats[i]];
        var room := redis.RoomRead(chats[i]);
        var any := RoomAnyOnline(id, room);
        if !any {
          mongo.RoomWrite(room);
        }
      }
      assert chats[..|chats|] == chats;
      PresentAll(chats, redis.rooms.Keys);
      ok := true;
    }

    /** `redis_to_mongodb`: save the user, take them offline, flush the rooms they leave empty. */
    method RedisToMongo(session: string) returns (ok: bool)
      requires Valid()
      modifies mongo, redis
      ensures View() == Leave(old(View()), session)
      ensures ok <==> LeavesCleanly(old(View()), session)
    {
      var user := redis.UserRead(session, mongo);
      if user.None? {
        return false;
      }
      assert SizedKeys(redis.users[user.value.id]);
      mongo.UserWrite(user.value);
      var clean := redis.Offline(user.value.id);
      if !clean {
        return false;
      }
      ok := FlushChats(user.value.id, user.value.chats);
    }

    method OnLogOutRequest(packet: string) returns (ok: bool)
      requires Valid()
      modifies mongo, redis
      ensures View() == match ExtractSession(packet)
                        case None => old(View())
                        case Some(session) => Store.Step(old(View()), LogOut(session))
      ensures ok <==> ExtractSession(packet).Some? && LeavesCleanly(old(View()), ExtractSession(packet).value)
    {
      var session := ExtractSession(packet);
      if session.None? {
        return false;
      }
      ok := RedisToMongo(session.value);
    }

    /** A closed connection logs out the session its socket was attached with. */
    method OnDisconnect(socket: int)
      requires Valid()
      modifies mongo, redis
      ensures View() == if socket in old(redis.sockets) && |old(redis.sockets)[socket].session| == SESSION_KEY_SIZE
                        then Store.Step(old(View()), LogOut(old(redis.sockets)[socket].session)) else old(View())
    {
      if socket in redis.sockets && |redis.sockets[socket].session| == SESSION_KEY_SIZE {
        var _ := RedisToMongo(redis.sockets[socket].session);
      }
    }
  }

  lemma FlushNext(rooms: map<int, RoomDoc>, r: Redis, id: int, chats: seq<int>, c: int)
    ensures Flush(rooms, r, id, []) == rooms
    ensures c in r.rooms && AnyOther(r.rooms[c].users, r, id) ==>
      Flush(rooms, r, id, chats + [c]) == Flush(rooms, r, id, chats)
    ensures c in r.rooms && !AnyOther(r.rooms[c].users, r, id) ==>
      Flush(rooms, r, id, chats + [c]) == Flush(rooms, r, id, chats)[c := Snapshot(c, r.rooms[c])]
  {
    hide AnyOther, Snapshot;
    assert forall k :: k in chats + [c] <==> k in chats || k == c;
  }

  lemma NamedBy(m: Mongo, id: int, name: string)
    requires Distinct(DocNames(m.users)) && id in m.users && m.users[id].name == name
    ensures forall k :: k in m.users && m.users[k].name == name ==> k == id
    ensures IdOf(DocNames(m.users), name) == Some(id)
  {
    assert DocNames(m.users)[id] == name;
    forall k | k in m.users && m.users[k].name == name ensures k == id {
      assert DocNames(m.users)[k] == DocNames(m.users)[id];
    }
  }
}
