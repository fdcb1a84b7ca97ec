/**
  MongoDB plus Redis is the single chat service of module Chat: every event on the two stores is the
  same event on the service, and loading or unloading a user is invisible there.  The relation that
  makes this true says what each store may know: coherence.
*/
module Simulation {
  import opened Base
  import opened Chat
  import opened Store

  // ---------------------------------------------------------------- abstraction

  /** A user as seen through whichever store holds them. */
  ghost function ProfileOf(w: World, id: int): Profile
    requires id in w.mongo.users
  {
    if id in w.redis.users && w.redis.users[id].info.Some? then
      var keys := w.redis.users[id];
      Profile(keys.info.value.name, keys.info.value.password, IdsNamed(w.mongo, keys.friends), keys.chats)
    else
      var d := w.mongo.users[id];
      Profile(d.name, d.password, d.friends, d.chats)
  }

  /** A room's history is Redis's once the room is there, and Mongo's before. */
  function RoomOf(w: World, r: int): Room
    requires r in w.mongo.rooms
  {
    Room(w.mongo.rooms[r].users,
         if r in w.redis.rooms then Listed(w.redis.rooms[r]) else w.mongo.rooms[r].messages)
  }

  ghost function Profiles(w: World): map<int, Profile> {
    map id | id in w.mongo.users :: ProfileOf(w, id)
  }

  function Rooms(w: World): map<int, Room> {
    map r | r in w.mongo.rooms :: RoomOf(w, r)
  }

  ghost function Abs(w: World): Service {
    Service(Profiles(w), Rooms(w), w.redis.invites, w.redis.sessions, w.redis.users.Keys,
            w.mongo.userSeq, w.mongo.roomSeq)
  }

  // ---------------------------------------------------------------- coherence

  ghost predicate UserDocsOk(m: Mongo) {
    forall id :: id in m.users ==>
      && m.users[id].id == id && SizedUser(m.users[id])
      && (forall f :: f in m.users[id].friends ==> f in m.users)
  }

  ghost predicate RoomDocsOk(m: Mongo) {
    forall r :: r in m.rooms ==>
      && m.rooms[r].id == r && SizedRoom(m.rooms[r]) && |m.rooms[r].users| <= ROOM_MAX
      && m.rooms[r].messages == CutAll(m.rooms[r].messages)
  }

  /** Redis's copy of a user extends Mongo's, and all the user's chats are in Redis. */
  ghost predicate LoadedUser(w: World, id: int)
    requires id in w.redis.users
  {
    var keys := w.redis.users[id];
    && id in w.mongo.users && id in w.redis.online
    && keys.info.Some? && SizedKeys(keys) && keys.socket.Some?
    && keys.info.value.name == w.mongo.users[id].name
    && keys.info.value.password == w.mongo.users[id].password
    && (forall n :: n in keys.friends ==> IdOf(DocNames(w.mongo.users), n).Some?)
    && NamesOf(w.mongo, w.mongo.users[id].friends) <= keys.friends
    && w.mongo.users[id].chats <= keys.chats
    && (forall r :: r in keys.chats ==> r in w.redis.rooms)
  }

  ghost predicate LoadedUsersOk(w: World) {
    forall id :: id in w.redis.users ==> LoadedUser(w, id)
  }

  /** No message is listed twice and each has its body; ids run to the amount. */
  ghost predicate Complete(keys: RoomKeys) {
    NoDup(keys.ids) && forall i :: i in keys.ids ==> 1 <= i <= keys.messageAmount && i in keys.bodies
  }

  /** Redis's copy of a room extends Mongo's. */
  ghost predicate CachedRoom(w: World, r: int)
    requires r in w.redis.rooms
  {
    var keys := w.redis.rooms[r];
    && r in w.mongo.rooms
    && SizedRoomKeys(keys) && keys.users == w.mongo.rooms[r].users
    && Complete(keys)
    && w.mongo.rooms[r].messages <= CutAll(Listed(keys))
  }

  ghost predicate CachedRoomsOk(w: World) {
    forall r :: r in w.redis.rooms ==> CachedRoom(w, r)
  }

  ghost predicate Synced(w: World, r: int)
    requires r in w.redis.rooms && r in w.mongo.rooms
  {
    w.mongo.rooms[r] == Snapshot(r, w.redis.rooms[r])
  }

  ghost predicate SomeMemberLoaded(w: World, r: int)
    requires r in w.mongo.rooms
  {
    exists u :: u in w.mongo.rooms[r].users && u in w.redis.users
  }

  /** Mongo lags behind Redis only in rooms with a loaded member. */
  ghost predicate LagOnlyWhileLoaded(w: World) {
    forall r :: r in w.redis.rooms && r in w.mongo.rooms && !SomeMemberLoaded(w, r) ==> Synced(w, r)
  }

  ghost predicate Coherent(w: World) {
    && UserDocsOk(w.mongo) && RoomDocsOk(w.mongo)
    && LoadedUsersOk(w) && CachedRoomsOk(w) && LagOnlyWhileLoaded(w)
  }

  ghost predicate Good(w: World) {
    Coherent(w) && Inv(Abs(w))
  }

  lemma NamesAgree(w: World)
    requires LoadedUsersOk(w)
    ensures Names(Profiles(w)) == DocNames(w.mongo.users)
  {
    forall id | id in w.mongo.users ensures Profiles(w)[id].name == w.mongo.users[id].name {
      if id in w.redis.users { assert LoadedUser(w, id); }
    }
  }

  /** Names and ids translate back and forth. */
  lemma NameTrip(m: Mongo, id: int)
    requires Distinct(DocNames(m.users)) && id in m.users
    ensures IdOf(DocNames(m.users), NameOf(m, id)) == Some(id)
  {
    assert DocNames(m.users)[id] == NameOf(m, id);
  }

  lemma NamesTrip(m: Mongo, ids: seq<int>)
    requires Distinct(DocNames(m.users)) && forall i :: i in ids ==> i in m.users
    ensures IdsNamed(m, NamesOf(m, ids)) == ids
    ensures forall n :: n in NamesOf(m, ids) ==> IdOf(DocNames(m.users), n).Some?
  {
    forall i | 0 <= i < |ids| ensures IdNamed(m, NameOf(m, ids[i])) == ids[i] {
      assert ids[i] in ids;
      NameTrip(m, ids[i]);
    }
    forall n | n in NamesOf(m, ids) ensures IdOf(DocNames(m.users), n).Some? {
      var i :| 0 <= i < |ids| && NamesOf(m, ids)[i] == n;
      assert ids[i] in ids;
      assert DocNames(m.users)[ids[i]] == n;
    }
  }

  // ---------------------------------------------------------------- frames

  /** Nothing about users changes while their documents and keys stay as they are. */
  lemma SameUsers(w: World, t: World)
    requires LoadedUsersOk(w) && t.mongo == w.mongo && t.redis.users == w.redis.users
    requires w.redis.online <= t.redis.online && w.redis.rooms.Keys <= t.redis.rooms.Keys
    ensures LoadedUsersOk(t) && Profiles(t) == Profiles(w)
  {
    forall u | u in t.redis.users ensures LoadedUser(t, u) { assert LoadedUser(w, u); }
    assert forall id :: id in w.mongo.users ==> ProfileOf(t, id) == ProfileOf(w, id);
  }

  /** Nothing about rooms changes while both copies and the set of loaded users stay as they are. */
  lemma SameRooms(w: World, t: World)
    requires CachedRoomsOk(w) && LagOnlyWhileLoaded(w)
    requires t.mongo.rooms == w.mongo.rooms && t.redis.rooms == w.redis.rooms
    requires t.redis.users.Keys == w.redis.users.Keys
    ensures CachedRoomsOk(t) && LagOnlyWhileLoaded(t) && Rooms(t) == Rooms(w)
  {
    forall r | r in t.redis.rooms ensures CachedRoom(t, r) { assert CachedRoom(w, r); }
    forall r | r in t.redis.rooms && r in t.mongo.rooms && !SomeMemberLoaded(t, r) ensures Synced(t, r) {
      assert !SomeMemberLoaded(w, r);
    }
    assert forall r :: r in w.mongo.rooms ==> RoomOf(t, r) == RoomOf(w, r);
  }

  // ---------------------------------------------------------------- account creation and login

  /** What a new user document leaves unchanged for everybody else. */
  ghost predicate Extended(m: Mongo, m': Mongo, id: int) {
    && id !in m.users && m'.users.Keys == m.users.Keys + {id}
    && (forall k :: k in m.users ==> m'.users[k] == m.users[k])
    && Distinct(DocNames(m'.users))
  }

  lemma ExtensionKeepsNames(m: Mongo, m': Mongo, id: int)
    requires Extended(m, m', id)
    ensures forall n :: IdOf(DocNames(m.users), n).Some? ==> IdOf(DocNames(m'.users), n) == IdOf(DocNames(m.users), n)
    ensures forall k :: k in m.users ==> NameOf(m', k) == NameOf(m, k)
  {
    forall n | IdOf(DocNames(m.users), n).Some?
      ensures IdOf(DocNames(m'.users), n) == IdOf(DocNames(m.users), n)
    {
      var k := IdOf(DocNames(m.users), n).value;
      assert DocNames(m'.users)[k] == n;
    }
  }

  lemma CreateKeepsLoaded(w: World, t: World, id: int)
    requires UserDocsOk(w.mongo) && LoadedUsersOk(w) && Extended(w.mongo, t.mongo, id) && t.redis == w.redis
    ensures LoadedUsersOk(t)
    ensures forall u :: u in w.mongo.users ==> ProfileOf(t, u) == ProfileOf(w, u)
  {
    ExtensionKeepsNames(w.mongo, t.mongo, id);
    forall u | u in w.redis.users
      ensures LoadedUser(t, u)
      ensures IdsNamed(t.mongo, w.redis.users[u].friends) == IdsNamed(w.mongo, w.redis.users[u].friends)
    {
      assert LoadedUser(w, u);
      var fs := w.mongo.users[u].friends;
      assert forall i :: 0 <= i < |fs| ==> fs[i] in fs;
      assert NamesOf(t.mongo, fs) == NamesOf(w.mongo, fs);
      var names := w.redis.users[u].friends;
      assert forall i :: 0 <= i < |names| ==> names[i] in names;
    }
  }

  lemma CreateSimulates(w: World, name: string, password: string)
    requires Good(w)
    ensures Coherent(CreateUser(w, name, password))
    ensures Abs(CreateUser(w, name, password)) == Chat.Step(Abs(w), CreateAccount(name, password))
  {
    hide Inv, Coherent, Profiles, Rooms;
    Basics(w);
    if Acceptable(name, password) && IdOf(DocNames(w.mongo.users), name).None? {
      CreateFresh(w, CreateUser(w, name, password), name, password);
    }
  }

  lemma CreateFresh(w: World, t: World, name: string, password: string)
    requires Coherent(w) && Distinct(DocNames(w.mongo.users)) && w.mongo.userSeq + 1 !in w.mongo.users
    requires IdOf(DocNames(w.mongo.users), name).None? && Acceptable(name, password)
    requires t == CreateUser(w, name, password)
    ensures Coherent(t)
    ensures Abs(t) == Abs(w).(users := Profiles(w)[w.mongo.userSeq + 1 := Profile(name, password, [], [])],
                              lastUser := w.mongo.userSeq + 1)
  {
    hide CachedRoomsOk, LagOnlyWhileLoaded, Rooms, LoadedUser, ProfileOf;
    var id := w.mongo.userSeq + 1;
    assert DocNames(t.mongo.users) == DocNames(w.mongo.users)[id := name];
    CreateKeepsLoaded(w, t, id);
    SameRooms(w, t);
    NewcomerIsUnloaded(w, t, id);
    assert Profiles(t) == Profiles(w)[id := Profile(name, password, [], [])];
  }

  lemma NewcomerIsUnloaded(w: World, t: World, id: int)
    requires LoadedUsersOk(w) && id !in w.mongo.users && id in t.mongo.users && t.redis == w.redis
    ensures var d := t.mongo.users[id];
            ProfileOf(t, id) == Profile(d.name, d.password, d.friends, d.chats)
  {
    assert id in w.redis.users ==> LoadedUser(w, id);
  }

  lemma LogInSimulates(w: World, name: string, password: string, session: string)
    requires Good(w)
    ensures Coherent(Authenticate(w, name, password, session))
    ensures Abs(Authenticate(w, name, password, session)) == Chat.Step(Abs(w), LogIn(name, password, session))
  {
    hide Inv, Coherent, Rooms;
    Basics(w);
    SamePasswords(w);
    SameStores(w, Authenticate(w, name, password, session));
  }

  lemma SamePasswords(w: World)
    requires Coherent(w)
    ensures forall id :: id in w.mongo.users ==>
              id in Profiles(w) && Profiles(w)[id].password == w.mongo.users[id].password
  {
    forall id | id in w.mongo.users ensures Profiles(w)[id].password == w.mongo.users[id].password {
      if id in w.redis.users { assert LoadedUser(w, id); }
    }
  }

  /** Sessions, invites and the online set can change without touching users and rooms. */
  lemma SameStores(w: World, t: World)
    requires Coherent(w)
    requires t.mongo == w.mongo && t.redis.users == w.redis.users && t.redis.rooms == w.redis.rooms
    requires w.redis.online <= t.redis.online
    ensures Coherent(t) && Profiles(t) == Profiles(w) && Rooms(t) == Rooms(w)
  {
    SameUsers(w, t);
    SameRooms(w, t);
  }

  // ---------------------------------------------------------------- loading

  /** Pushing messages with distinct ids onto an empty room lists exactly those messages. */
  lemma {:induction false} PushedAreListed(keys: RoomKeys, ms: seq<Message>)
    requires keys.ids == [] && NoDup(IdsOf(ms))
    ensures var k := PushAll(keys, ms);
            && k.ids == IdsOf(ms) && Listed(k) == ms
            && (forall i :: 0 <= i < |ms| ==> ms[i].id in k.bodies)
            && k.users == keys.users && k.userAmount == keys.userAmount && k.messageAmount == keys.messageAmount
  {
    if ms == [] {
    } else {
      var n := |ms| - 1;
      var shorter := PushAll(keys, ms[..n]);
      LastIsNew(ms);
      hide NoDup, Listed;
      PushedAreListed(keys, ms[..n]);
      PushExtends(shorter, ms[n]);
      assert ms[..n] + [ms[n]] == ms;
    }
  }

  lemma LastIsNew(ms: seq<Message>)
    requires ms != [] && NoDup(IdsOf(ms))
    ensures var n := |ms| - 1;
            && NoDup(IdsOf(ms[..n])) && ms[n].id !in IdsOf(ms[..n]) && IdsOf(ms) == IdsOf(ms[..n]) + [ms[n].id]
  {
    var n := |ms| - 1;
    assert IdsOf(ms) == IdsOf(ms[..n]) + [ms[n].id];
    forall i | 0 <= i < n ensures IdsOf(ms[..n])[i] != ms[n].id {
      assert IdsOf(ms)[i] != IdsOf(ms)[n];
    }
    forall i, j | 0 <= i < j < n ensures IdsOf(ms[..n])[i] != IdsOf(ms[..n])[j] {
      assert IdsOf(ms)[i] != IdsOf(ms)[j];
    }
  }

  lemma PushExtends(keys: RoomKeys, msg: Message)
    requires msg.id !in keys.ids
    ensures Listed(Push(keys, msg)) == Listed(keys) + [msg]
  {
    var pushed := Push(keys, msg);
    forall i | 0 <= i < |keys.ids| ensures Stored(pushed, pushed.ids[i]) == Stored(keys, keys.ids[i]) {
      assert keys.ids[i] in keys.ids;
    }
  }

  /** Whatever the document holds, the texts that come into Redis are cut. */
  lemma ImportedLists(doc: RoomDoc)
    requires NoDup(IdsOf(doc.messages))
    ensures Listed(Imported(doc)) == CutAll(doc.messages) && Imported(doc).users == doc.users
  {
    assert IdsOf(CutAll(doc.messages)) == IdsOf(doc.messages);
    PushedAreListed(NO_ROOM.(userAmount := doc.userAmount, messageAmount := doc.messageAmount,
                             users := NO_ROOM.users + doc.users), CutAll(doc.messages));
  }

  lemma ImportedRoom(m: Mongo, r: int)
    requires r in m.rooms && RoomDocsOk(m) && Numbering(m.rooms[r].messages)
    ensures var k := Imported(m.rooms[r]);
            && SizedRoomKeys(k) && k.users == m.rooms[r].users && Listed(k) == m.rooms[r].messages
            && Complete(k)
            && m.rooms[r] == Snapshot(r, k)
  {
    var doc := m.rooms[r];
    PushedAreListed(NO_ROOM.(userAmount := doc.userAmount, messageAmount := doc.messageAmount,
                             users := NO_ROOM.users + doc.users), CutAll(doc.messages));
  }

  /** The state a first load of a known user ends in. */
  ghost function Loaded(w: World, id: int, session: string, socket: int): World
    requires id in w.mongo.users
  {
    var doc := w.mongo.users[id];
    var r := w.redis;
    w.(redis := r.(
      users := r.users[id := UserKeys(Some(Info(doc.name, doc.password, doc.friendsNum, doc.chatsNum)), Some(socket),
                                      NamesOf(w.mongo, doc.friends), doc.chats)],
      online := r.online + {id},
      sockets := r.sockets[socket := SocketHash(id, session)],
      rooms := Import(w, doc.chats)))
  }

  /** An unloaded user's document lists rooms that exist and of which the user is a member. */
  lemma DocChats(w: World, id: int)
    requires Good(w) && id in w.mongo.users && id !in w.redis.users
    ensures forall r :: r in w.mongo.users[id].chats ==> r in w.mongo.rooms && id in w.mongo.rooms[r].users
  {
    ProfileChats(w, id);
  }

  /** The index invariant in terms of the stores. */
  lemma ProfileChats(w: World, id: int)
    requires Indexed(Abs(w)) && id in w.mongo.users
    ensures forall r :: r in ProfileOf(w, id).chats <==> r in w.mongo.rooms && id in w.mongo.rooms[r].users
  {
    forall r ensures r in ProfileOf(w, id).chats <==> r in w.mongo.rooms && id in w.mongo.rooms[r].users {
      assert id in Abs(w).users && Abs(w).users[id] == ProfileOf(w, id);
      assert r in Abs(w).rooms <==> r in w.mongo.rooms;
      assert r in Abs(w).users[id].chats <==> r in Abs(w).rooms && id in Abs(w).rooms[r].members;
    }
  }

  /** The parts of the service invariant that speak about documents and sessions. */
  lemma Basics(w: World)
    requires Good(w)
    ensures Distinct(DocNames(w.mongo.users)) && Names(Profiles(w)) == DocNames(w.mongo.users)
    ensures forall id :: id in w.mongo.users ==> 1 <= id <= w.mongo.userSeq
    ensures forall r :: r in w.mongo.rooms ==> 1 <= r <= w.mongo.roomSeq
    ensures forall k :: k in w.redis.sessions ==> w.redis.sessions[k] in w.mongo.users
  {
    NamesAgree(w);
    assert IdsInRange(Abs(w));
    assert forall id :: id in w.mongo.users ==> id in Profiles(w);
    assert forall r :: r in w.mongo.rooms ==> r in Rooms(w);
  }

  /** What the handlers rely on holds in every state the server can reach. */
  lemma GoodIsSound(w: World)
    requires Good(w)
    ensures Sound(w)
  {
    Basics(w);
    assert forall id :: id in w.redis.users ==> LoadedUser(w, id);
    assert forall r :: r in w.redis.rooms ==> CachedRoom(w, r);
  }

  lemma LoadReaches(w: World, id: int, session: string, socket: int)
    requires UserDocsOk(w.mongo) && Distinct(DocNames(w.mongo.users))
    requires 1 <= id && id in w.mongo.users && id !in w.redis.users && w.mongo.users[id].name != "Unknown"
    requires session in w.redis.sessions && w.redis.sessions[session] == id
    requires forall r :: r in w.mongo.users[id].chats ==> r in w.mongo.rooms
    ensures Load(w, session, socket) == Loaded(w, id, session, socket)
  {
    NameTrip(w.mongo, id);
    PresentAll(w.mongo.users[id].chats, w.redis.rooms.Keys + w.mongo.rooms.Keys);
    var doc := w.mongo.users[id];
    assert [] + NamesOf(w.mongo, doc.friends) == NamesOf(w.mongo, doc.friends);
    assert [] + doc.chats == doc.chats;
    var a := w.(redis := Attach(w.redis, id, session, socket));
    assert Import(a, doc.chats) == Import(w, doc.chats);
    assert a.redis.users[id := Filled(w.mongo, a.redis.users[id], doc)]
        == w.redis.users[id := Filled(w.mongo, a.redis.users[id], doc)];
  }

  lemma HistoryNumbered(w: World, r: int)
    requires Numbered(Abs(w)) && r in w.mongo.rooms && r !in w.redis.rooms
    ensures Numbering(w.mongo.rooms[r].messages)
  {
    hide Numbering;
    assert Abs(w).rooms[r].history == w.mongo.rooms[r].messages;
  }

  lemma LoadedRooms(w: World, id: int, session: string, socket: int)
    requires RoomDocsOk(w.mongo) && CachedRoomsOk(w) && LagOnlyWhileLoaded(w) && Numbered(Abs(w))
    requires id in w.mongo.users && id !in w.redis.users
    ensures var t := Loaded(w, id, session, socket);
            CachedRoomsOk(t) && LagOnlyWhileLoaded(t) && Rooms(t) == Rooms(w)
  {
    var t := Loaded(w, id, session, socket);
    forall r | r in t.redis.rooms
      ensures CachedRoom(t, r) && RoomOf(t, r) == RoomOf(w, r) && (r !in w.redis.rooms ==> Synced(t, r))
    {
      if r in w.redis.rooms {
        assert CachedRoom(w, r);
      } else {
        HistoryNumbered(w, r);
        ImportedRoom(w.mongo, r);
      }
    }
    forall r | r in t.redis.rooms && r in t.mongo.rooms && !SomeMemberLoaded(t, r) ensures Synced(t, r) {
      if r in w.redis.rooms { assert !SomeMemberLoaded(w, r); }
    }
  }

  lemma LoadedProfiles(w: World, id: int, session: string, socket: int)
    requires UserDocsOk(w.mongo) && LoadedUsersOk(w) && Distinct(DocNames(w.mongo.users))
    requires id in w.mongo.users && id !in w.redis.users
    requires forall r :: r in w.mongo.users[id].chats ==> r in w.mongo.rooms
    ensures var t := Loaded(w, id, session, socket);
            LoadedUsersOk(t) && Profiles(t) == Profiles(w)
  {
    var t := Loaded(w, id, session, socket);
    NamesTrip(w.mongo, w.mongo.users[id].friends);
    forall u | u in t.redis.users ensures LoadedUser(t, u) {
      if u != id { assert LoadedUser(w, u); }
    }
    assert forall u :: u in w.mongo.users ==> ProfileOf(t, u) == ProfileOf(w, u);
  }

  lemma LoadSimulates(w: World, session: string, socket: int)
    requires Good(w) && Fresh(w, LoadData(session, socket))
    ensures Coherent(Load(w, session, socket))
    ensures Abs(Load(w, session, socket)) == Chat.Step(Abs(w), LoadData(session, socket))
  {
    Basics(w);
    if session in w.redis.sessions {
      var id := w.redis.sessions[session];
      if w.mongo.users[id].name != "Unknown" {
        DocChats(w, id);
        LoadReaches(w, id, session, socket);
        LoadedRooms(w, id, session, socket);
        LoadedProfiles(w, id, session, socket);
      }
    }
  }

  // ---------------------------------------------------------------- messages

  lemma LoadedChats(w: World, id: int)
    requires LoadedUsersOk(w) && Indexed(Abs(w)) && id in w.redis.users
    ensures id in w.mongo.users && ProfileOf(w, id).chats == w.redis.users[id].chats
    ensures forall r :: r in w.redis.users[id].chats ==> r in w.redis.rooms
    ensures forall r :: r in w.redis.users[id].chats <==> r in w.mongo.rooms && id in w.mongo.rooms[r].users
  {
    assert LoadedUser(w, id);
    ProfileChats(w, id);
  }

  lemma PostExtends(keys: RoomKeys, sender: int, text: string, date: int)
    requires SizedRoomKeys(keys) && Complete(keys)
    ensures var k := Posted(keys, sender, text, date);
            && SizedRoomKeys(k) && Complete(k) && k.users == keys.users
            && Room(keys.users, Listed(k)) == Post(Room(keys.users, Listed(keys)), sender, text, date)
  {
    PushExtends(keys.(messageAmount := keys.messageAmount + 1),
                Message(|keys.ids| + 1, sender, Clip(text, MESSAGE_MAX_SIZE), date));
    assert Listed(keys.(messageAmount := keys.messageAmount + 1)) == Listed(keys);
  }

  lemma SendSimulates(w: World, session: string, room: int, text: string, date: int)
    requires Good(w)
    ensures Coherent(SendMessage(w, session, room, text, date))
    ensures Abs(SendMessage(w, session, room, text, date)) == Chat.Step(Abs(w), Send(session, room, text, date))
  {
    assert Indexed(Abs(w));
    hide Inv;
    SendCases(w, session, room, text, date);
  }

  lemma SendCases(w: World, session: string, room: int, text: string, date: int)
    requires Coherent(w) && Indexed(Abs(w))
    ensures Coherent(SendMessage(w, session, room, text, date))
    ensures Abs(SendMessage(w, session, room, text, date)) == Chat.Step(Abs(w), Send(session, room, text, date))
  {
    if session in w.redis.sessions && w.redis.sessions[session] in w.redis.users {
      var id := w.redis.sessions[session];
      LoadedChats(w, id);
      assert LoadedUser(w, id);
      assert id in Profiles(w) && Profiles(w)[id].chats == w.redis.users[id].chats;
      hide Indexed, Coherent, Posted, Post, LoadedUser, Profiles, ProfileOf, IdsNamed;
      if room in w.redis.users[id].chats {
        SendReaches(w, id, room, text, date);
      }
    }
  }

  lemma SendReaches(w: World, id: int, room: int, text: string, date: int)
    requires Coherent(w) && id in w.redis.users && room in w.redis.rooms && room in w.mongo.rooms
    requires id in w.mongo.rooms[room].users
    ensures var t := WithKeys(w, room, Posted(w.redis.rooms[room], id, text, date));
            && Coherent(t) && Profiles(t) == Profiles(w)
            && Rooms(t) == Rooms(w)[room := Post(Rooms(w)[room], id, text, date)]
  {
    assert CachedRoom(w, room);
    PostExtends(w.redis.rooms[room], id, text, date);
    assert CachedRoom(w, room) && SomeMemberLoaded(w, room);
    hide Coherent, Posted, Complete, SizedRoomKeys;
    RoomGrows(w, room, Posted(w.redis.rooms[room], id, text, date));
  }

  function WithKeys(w: World, room: int, keys: RoomKeys): World {
    w.(redis := w.redis.(rooms := w.redis.rooms[room := keys]))
  }

  /** A room with a loaded member may take on any longer list of messages in Redis. */
  lemma RoomGrows(w: World, room: int, keys: RoomKeys)
    requires Coherent(w) && room in w.redis.rooms && room in w.mongo.rooms && SomeMemberLoaded(w, room)
    requires SizedRoomKeys(keys) && Complete(keys) && keys.users == w.redis.rooms[room].users
    requires Listed(w.redis.rooms[room]) <= Listed(keys)
    ensures var t := WithKeys(w, room, keys);
            && Coherent(t) && Profiles(t) == Profiles(w)
            && Rooms(t) == Rooms(w)[room := Room(keys.users, Listed(keys))]
  {
    var t := WithKeys(w, room, keys);
    hide LoadedUsersOk, Profiles;
    SameUsers(w, t);
    assert CachedRoom(w, room);
    assert CutAll(Listed(w.redis.rooms[room])) <= CutAll(Listed(keys));
    forall r | r in t.redis.rooms ensures CachedRoom(t, r) { assert CachedRoom(w, r); }
    forall r | r in t.redis.rooms && r in t.mongo.rooms && !SomeMemberLoaded(t, r) ensures Synced(t, r) {
      assert !SomeMemberLoaded(w, r);
    }
  }

  // ---------------------------------------------------------------- friends

  lemma JoinedProfile(m: Mongo, names: seq<string>, friend: int)
    requires Distinct(DocNames(m.users)) && friend in m.users
    ensures IdsNamed(m, names + [NameOf(m, friend)]) == IdsNamed(m, names) + [friend]
  {
    NameTrip(m, friend);
  }

  /** A user whose keys gain a friend and a chat that is in Redis is still a loaded user. */
  lemma JoinKeepsLoaded(w: World, t: World, u: int, friend: int, room: int)
    requires u in w.redis.users && LoadedUser(w, u) && friend in w.mongo.users && Distinct(DocNames(w.mongo.users))
    requires u in t.redis.users && t.redis.users[u] == Joined(w.redis.users[u], NameOf(w.mongo, friend), room)
    requires t.mongo.users[u := w.mongo.users[u]] == t.mongo.users && DocNames(t.mongo.users) == DocNames(w.mongo.users)
    requires t.redis.online == w.redis.online && w.redis.rooms.Keys + {room} <= t.redis.rooms.Keys
    ensures LoadedUser(t, u)
    ensures ProfileOf(t, u) == Meet(ProfileOf(w, u), friend, room)
  {
    SameNames(w.mongo, t.mongo);
    NameTrip(w.mongo, friend);
    JoinedProfile(w.mongo, w.redis.users[u].friends, friend);
    assert NamesOf(t.mongo, w.mongo.users[u].friends) == NamesOf(w.mongo, w.mongo.users[u].friends);
    var more := w.redis.users[u].friends + [NameOf(w.mongo, friend)];
    assert IdsNamed(t.mongo, more) == IdsNamed(w.mongo, more);
    assert forall n :: n in more ==> n in w.redis.users[u].friends || n == NameOf(w.mongo, friend);
  }

  lemma SameNames(m: Mongo, m': Mongo)
    requires DocNames(m'.users) == DocNames(m.users)
    ensures forall k :: NameOf(m', k) == NameOf(m, k)
    ensures forall n :: IdNamed(m', n) == IdNamed(m, n)
  {
    forall k ensures NameOf(m', k) == NameOf(m, k) {
      if k in DocNames(m.users) { assert DocNames(m'.users)[k] == DocNames(m.users)[k]; }
    }
  }

  /** A user neither side of the new friendship keeps keys, document and profile. */
  lemma OthersKeepProfile(w: World, t: World, x: int)
    requires LoadedUsersOk(w) && x in w.mongo.users && x in t.mongo.users && t.mongo.users[x] == w.mongo.users[x]
    requires DocNames(t.mongo.users) == DocNames(w.mongo.users)
    requires x in t.redis.users <==> x in w.redis.users
    requires x in w.redis.users ==> t.redis.users[x] == w.redis.users[x]
    requires w.redis.online <= t.redis.online && w.redis.rooms.Keys <= t.redis.rooms.Keys
    ensures x in w.redis.users ==> LoadedUser(t, x)
    ensures ProfileOf(t, x) == ProfileOf(w, x)
  {
    SameNames(w.mongo, t.mongo);
    if x in w.redis.users {
      assert LoadedUser(w, x);
      assert NamesOf(t.mongo, w.mongo.users[x].friends) == NamesOf(w.mongo, w.mongo.users[x].friends);
      assert IdsNamed(t.mongo, w.redis.users[x].friends) == IdsNamed(w.mongo, w.redis.users[x].friends);
    }
  }

  /** What accepting does to every user's document and keys. */
  ghost predicate AcceptedUsers(w: World, t: World, u: int, v: int, room: int)
    requires u in w.redis.users && v in w.mongo.users
  {
    && DocNames(t.mongo.users) == DocNames(w.mongo.users)
    && t.redis.users.Keys == w.redis.users.Keys && t.redis.online == w.redis.online
    && w.redis.rooms.Keys + {room} <= t.redis.rooms.Keys
    && (forall x :: x in w.mongo.users ==>
         && x in t.mongo.users
         && t.mongo.users[x] == if x == v && v !in w.redis.users then JoinedDoc(w.mongo.users[x], u, room)
                                else w.mongo.users[x])
    && (forall x :: x in w.redis.users ==>
         t.redis.users[x] == if x == u then Joined(w.redis.users[x], NameOf(w.mongo, v), room)
                             else if x == v then Joined(w.redis.users[x], NameOf(w.mongo, u), room)
                             else w.redis.users[x])
  }

  /** What accepting does to rooms, invites and counters. */
  ghost predicate AcceptedRest(w: World, t: World, u: int, v: int, room: int) {
    && t.mongo.rooms == w.mongo.rooms[room := RoomDoc(room, [u, v], 2, [], 0)]
    && t.mongo.userSeq == w.mongo.userSeq && t.mongo.roomSeq == room
    && (room !in w.redis.rooms ==> t.redis.rooms == w.redis.rooms[room := RoomKeys(2, 0, [u, v], [], map[])])
    && t.redis.invites == w.redis.invites[u := Without(At(w.redis.invites, u), v)]
    && t.redis.sessions == w.redis.sessions
  }

  lemma AcceptShape(w: World, u: int, v: int)
    requires u in w.redis.users && v in w.mongo.users && u != v
    ensures AcceptedUsers(w, Accept(w, u, v), u, v, w.mongo.roomSeq + 1)
    ensures AcceptedRest(w, Accept(w, u, v), u, v, w.mongo.roomSeq + 1)
  {
    var t := Accept(w, u, v);
    assert NameOf(w.mongo.(rooms := t.mongo.rooms, roomSeq := t.mongo.roomSeq), u) == NameOf(w.mongo, u);
    assert DocNames(t.mongo.users) == DocNames(w.mongo.users);
    assert [] + [u, v] == [u, v];
  }

  lemma AcceptUsers(w: World, t: World, u: int, v: int, room: int)
    requires UserDocsOk(w.mongo) && LoadedUsersOk(w) && Distinct(DocNames(w.mongo.users))
    requires u in w.redis.users && u in w.mongo.users && v in w.mongo.users && u != v
    requires AcceptedUsers(w, t, u, v, room)
    ensures UserDocsOk(t.mongo) && LoadedUsersOk(t)
    ensures Profiles(t) == Profiles(w)[u := Meet(Profiles(w)[u], v, room)][v := Meet(Profiles(w)[v], u, room)]
  {
    AcceptDocs(w, t, u, v, room);
    SameDomain(w, t, u, v, room);
    forall x | x in w.mongo.users
      ensures x in t.redis.users ==> LoadedUser(t, x)
      ensures ProfileOf(t, x) == Accepted(w, u, v, room, x)
    {
      hide *;
      AcceptUser(w, t, u, v, room, x);
    }
    hide UserDocsOk, AcceptedUsers, LoadedUser, ProfileOf, Accepted;
    AcceptProfiles(w, t, u, v, room);
  }

  lemma AcceptProfiles(w: World, t: World, u: int, v: int, room: int)
    requires u in w.mongo.users && v in w.mongo.users && u != v && t.mongo.users.Keys == w.mongo.users.Keys
    requires forall x :: x in w.mongo.users ==> ProfileOf(t, x) == Accepted(w, u, v, room, x)
    ensures Profiles(t) == Profiles(w)[u := Meet(Profiles(w)[u], v, room)][v := Meet(Profiles(w)[v], u, room)]
  {
    hide ProfileOf, Meet;
  }

  lemma SameDomain(w: World, t: World, u: int, v: int, room: int)
    requires LoadedUsersOk(w) && u in w.redis.users && v in w.mongo.users && AcceptedUsers(w, t, u, v, room)
    ensures t.mongo.users.Keys == w.mongo.users.Keys && t.redis.users.Keys == w.redis.users.Keys
    ensures forall x :: x in t.redis.users ==> x in w.mongo.users
  {
    assert t.mongo.users.Keys == DocNames(t.mongo.users).Keys == w.mongo.users.Keys;
    assert forall x :: x in w.redis.users ==> LoadedUser(w, x);
  }

  /** Everybody's profile after u and v became friends. */
  ghost function Accepted(w: World, u: int, v: int, room: int, x: int): Profile
    requires x in w.mongo.users
  {
    if x == u then Meet(ProfileOf(w, x), v, room)
    else if x == v then Meet(ProfileOf(w, x), u, room)
    else ProfileOf(w, x)
  }

  lemma AcceptDocs(w: World, t: World, u: int, v: int, room: int)
    requires UserDocsOk(w.mongo) && u in w.redis.users && u in w.mongo.users && v in w.mongo.users
    requires AcceptedUsers(w, t, u, v, room)
    ensures UserDocsOk(t.mongo)
  {
    assert t.mongo.users.Keys == DocNames(t.mongo.users).Keys == w.mongo.users.Keys;
    forall x | x in t.mongo.users
      ensures t.mongo.users[x].id == x && SizedUser(t.mongo.users[x])
      ensures forall f :: f in t.mongo.users[x].friends ==> f in t.mongo.users
    {
      assert t.mongo.users[x].friends == w.mongo.users[x].friends
          || t.mongo.users[x].friends == w.mongo.users[x].friends + [u];
    }
  }

  lemma AcceptUser(w: World, t: World, u: int, v: int, room: int, x: int)
    requires LoadedUsersOk(w) && Distinct(DocNames(w.mongo.users))
    requires u in w.redis.users && u in w.mongo.users && v in w.mongo.users && u != v && x in w.mongo.users
    requires AcceptedUsers(w, t, u, v, room)
    ensures x in t.mongo.users
    ensures x in t.redis.users ==> LoadedUser(t, x)
    ensures ProfileOf(t, x) == Accepted(w, u, v, room, x)
  {
    if x == u {
      assert LoadedUser(w, u);
      JoinKeepsLoaded(w, t, u, v, room);
    } else if x == v {
      if v in w.redis.users {
        assert LoadedUser(w, v);
        JoinKeepsLoaded(w, t, v, u, room);
      }
    } else {
      OthersKeepProfile(w, t, x);
    }
  }

  lemma AcceptRooms(w: World, t: World, u: int, v: int, room: int)
    requires RoomDocsOk(w.mongo) && CachedRoomsOk(w) && LagOnlyWhileLoaded(w)
    requires room !in w.mongo.rooms && t.redis.users.Keys == w.redis.users.Keys
    requires t.mongo.rooms == w.mongo.rooms[room := RoomDoc(room, [u, v], 2, [], 0)]
    requires t.redis.rooms == w.redis.rooms[room := RoomKeys(2, 0, [u, v], [], map[])]
    ensures RoomDocsOk(t.mongo) && CachedRoomsOk(t) && LagOnlyWhileLoaded(t)
    ensures Rooms(t) == Rooms(w)[room := Room([u, v], [])]
  {
    assert forall r :: r in w.redis.rooms ==> CachedRoom(w, r);
    assert CutAll([]) == [];
    forall r | r in t.redis.rooms ensures CachedRoom(t, r) {
      if r != room { assert CachedRoom(w, r); }
    }
    assert Synced(t, room);
    forall r | r in t.redis.rooms && r in t.mongo.rooms && !SomeMemberLoaded(t, r) ensures Synced(t, r) {
      if r != room { assert !SomeMemberLoaded(w, r); }
    }
    assert forall r :: r in w.mongo.rooms ==> RoomOf(t, r) == RoomOf(w, r);
    assert Listed(t.redis.rooms[room]) == [];
  }

  lemma AcceptSimulates(w: World, t: World, u: int, v: int, room: int)
    requires Coherent(w) && Distinct(DocNames(w.mongo.users)) && room == w.mongo.roomSeq + 1 && room !in w.mongo.rooms
    requires u in w.redis.users && v in w.mongo.users && u != v
    requires AcceptedUsers(w, t, u, v, room) && AcceptedRest(w, t, u, v, room)
    ensures u in w.mongo.users && Coherent(t)
    ensures Abs(t) == Befriend(Abs(w), u, v)
  {
    assert LoadedUser(w, u) && forall r :: r in w.redis.rooms ==> CachedRoom(w, r);
    SameDomain(w, t, u, v, room);
    hide UserDocsOk, RoomDocsOk, LoadedUsersOk, CachedRoomsOk, LagOnlyWhileLoaded, Profiles, Rooms, AcceptedUsers;
    hide Meet, Abs, Befriend, Without;
    AcceptUsers(w, t, u, v, room);
    AcceptRooms(w, t, u, v, room);
    AcceptIsBefriend(w, t, u, v);
  }

  lemma AcceptIsBefriend(w: World, t: World, u: int, v: int)
    requires u in w.mongo.users && v in w.mongo.users && u != v && u in w.redis.users
    requires AcceptedRest(w, t, u, v, w.mongo.roomSeq + 1) && t.redis.users.Keys == w.redis.users.Keys
    requires var room := w.mongo.roomSeq + 1;
             && Profiles(t) == Profiles(w)[u := Meet(Profiles(w)[u], v, room)][v := Meet(Profiles(w)[v], u, room)]
             && Rooms(t) == Rooms(w)[room := Room([u, v], [])]
    ensures Abs(t) == Befriend(Abs(w), u, v)
  {
    assert Profiles(w).Keys == w.mongo.users.Keys;
    hide Profiles, Rooms, Meet, Without;
  }

  lemma AskSimulates(w: World, session: string, friend: string)
    requires Good(w)
    ensures Coherent(AskFriend(w, session, friend))
    ensures Abs(AskFriend(w, session, friend)) == Chat.Step(Abs(w), AddFriend(session, friend))
  {
    Basics(w);
    NamesAgree(w);
    AskReaches(w, session, friend);
  }

  lemma AskReaches(w: World, session: string, friend: string)
    requires Coherent(w) && Distinct(DocNames(w.mongo.users)) && Names(Profiles(w)) == DocNames(w.mongo.users)
    requires w.mongo.roomSeq + 1 !in w.mongo.rooms && forall id :: id in w.mongo.users ==> 1 <= id
    ensures Coherent(AskFriend(w, session, friend))
    ensures Abs(AskFriend(w, session, friend)) == Chat.Step(Abs(w), AddFriend(session, friend))
  {
    var v := IdOf(DocNames(w.mongo.users), friend);
    if v.Some? && session in w.redis.sessions && w.redis.sessions[session] in w.redis.users {
      var u := w.redis.sessions[session];
      assert LoadedUser(w, u);
      assert Profiles(w).Keys == w.mongo.users.Keys;
      hide Coherent, LoadedUser, Accept, Befriend, Profiles, Rooms;
      if u == v.value || u in At(w.redis.invites, v.value) {
      } else if v.value in At(w.redis.invites, u) {
        AcceptReaches(w, u, v.value);
      } else {
        SameStores(w, AskFriend(w, session, friend));
      }
    }
  }

  lemma AcceptReaches(w: World, u: int, v: int)
    requires Coherent(w) && Distinct(DocNames(w.mongo.users)) && w.mongo.roomSeq + 1 !in w.mongo.rooms
    requires u in w.redis.users && v in w.mongo.users && u != v
    ensures u in w.mongo.users && Coherent(Accept(w, u, v))
    ensures Abs(Accept(w, u, v)) == Befriend(Abs(w), u, v)
  {
    hide *;
    AcceptShape(w, u, v);
    AcceptSimulates(w, Accept(w, u, v), u, v, w.mongo.roomSeq + 1);
  }

  // ---------------------------------------------------------------- leaving

  lemma AnyOtherMeaning(w: World, r: int, id: int)
    requires r in w.redis.rooms && r in w.mongo.rooms && w.redis.rooms[r].users == w.mongo.rooms[r].users
    requires id in w.redis.users
    ensures AnyOther(w.redis.rooms[r].users, Forget(w.redis, id), id)
       <==> exists u :: u in w.mongo.rooms[r].users && u != id && u in w.redis.users
  {
    var members := w.redis.rooms[r].users;
    if u :| u in w.mongo.rooms[r].users && u != id && u in w.redis.users {
      var i :| 0 <= i < |members| && members[i] == u;
    }
  }

  ghost predicate FlushedBy(w: World, gone: Redis, id: int, r: int)
    requires id in w.redis.users
  {
    r in w.redis.users[id].chats && r in w.redis.rooms && !AnyOther(w.redis.rooms[r].users, gone, id)
  }

  /** The state a logout of a loaded user ends in. */
  ghost predicate Left(w: World, t: World, id: int)
    requires id in w.redis.users && w.redis.users[id].info.Some?
  {
    && t.mongo == w.mongo.(users := w.mongo.users[id := CachedUser(w, id)], rooms := t.mongo.rooms)
    && t.redis == Forget(w.redis, id)
    && t.mongo.rooms.Keys == w.mongo.rooms.Keys
    && (forall r :: r in w.mongo.rooms ==>
         t.mongo.rooms[r] == if FlushedBy(w, t.redis, id, r) then Snapshot(r, w.redis.rooms[r]) else w.mongo.rooms[r])
  }

  lemma LeaveReaches(w: World, session: string)
    requires LoadedUsersOk(w) && CachedRoomsOk(w)
    requires session in w.redis.sessions && w.redis.sessions[session] in w.redis.users
    ensures w.redis.users[w.redis.sessions[session]].info.Some?
    ensures Left(w, Leave(w, session), w.redis.sessions[session])
  {
    var id := w.redis.sessions[session];
    assert LoadedUser(w, id);
    assert forall r :: r in w.redis.rooms ==> CachedRoom(w, r);
    PresentAll(w.redis.users[id].chats, w.redis.rooms.Keys);
  }

  lemma LeftUsers(w: World, t: World, id: int)
    requires UserDocsOk(w.mongo) && LoadedUsersOk(w) && Distinct(DocNames(w.mongo.users))
    requires id in w.redis.users && w.redis.users[id].info.Some? && Left(w, t, id)
    ensures id in w.mongo.users && UserDocsOk(t.mongo) && LoadedUsersOk(t)
    ensures Profiles(t) == Profiles(w)
  {
    assert LoadedUser(w, id);
    assert forall u :: u in w.redis.users ==> LoadedUser(w, u);
    LeftDocs(w, t, id);
    forall u | u in w.mongo.users
      ensures (u in t.redis.users ==> LoadedUser(t, u)) && ProfileOf(t, u) == ProfileOf(w, u)
    {
      hide LoadedUser, ProfileOf;
      LeftUser(w, t, id, u);
    }
  }

  lemma LeftDocs(w: World, t: World, id: int)
    requires UserDocsOk(w.mongo) && id in w.redis.users && LoadedUser(w, id) && Left(w, t, id)
    ensures DocNames(t.mongo.users) == DocNames(w.mongo.users) && UserDocsOk(t.mongo)
  {
    forall f | f in t.mongo.users[id].friends ensures f in w.mongo.users {
      var i :| 0 <= i < |t.mongo.users[id].friends| && t.mongo.users[id].friends[i] == f;
      assert w.redis.users[id].friends[i] in w.redis.users[id].friends;
    }
  }

  lemma LeftUser(w: World, t: World, id: int, u: int)
    requires LoadedUsersOk(w) && id in w.redis.users && w.redis.users[id].info.Some? && Left(w, t, id)
    requires u in w.mongo.users && DocNames(t.mongo.users) == DocNames(w.mongo.users)
    ensures u in t.mongo.users && ProfileOf(t, u) == ProfileOf(w, u)
    ensures u in t.redis.users ==> LoadedUser(t, u)
  {
    SameNames(w.mongo, t.mongo);
    if u in t.redis.users {
      assert LoadedUser(w, u);
      assert NamesOf(t.mongo, w.mongo.users[u].friends) == NamesOf(w.mongo, w.mongo.users[u].friends);
      assert IdsNamed(t.mongo, w.redis.users[u].friends) == IdsNamed(w.mongo, w.redis.users[u].friends);
    }
  }

  lemma LeftRooms(w: World, t: World, id: int)
    requires RoomDocsOk(w.mongo) && LoadedUsersOk(w) && CachedRoomsOk(w) && LagOnlyWhileLoaded(w) && Indexed(Abs(w))
    requires id in w.redis.users && w.redis.users[id].info.Some? && Left(w, t, id)
    ensures RoomDocsOk(t.mongo) && CachedRoomsOk(t) && LagOnlyWhileLoaded(t)
    ensures Rooms(t) == Rooms(w)
  {
    LoadedChats(w, id);
    assert forall r :: r in w.redis.rooms ==> CachedRoom(w, r);
    forall ms: seq<Message> ensures CutAll(CutAll(ms)) == CutAll(ms) { }
    forall r | r in t.redis.rooms ensures CachedRoom(t, r) { assert CachedRoom(w, r); }
    forall r | r in t.redis.rooms && r in t.mongo.rooms && !SomeMemberLoaded(t, r) ensures Synced(t, r) {
      LeftSynced(w, t, id, r);
    }
    assert forall r :: r in w.mongo.rooms ==> RoomOf(t, r) == RoomOf(w, r);
  }

  /** The last member to leave a room flushes it. */
  lemma LeftSynced(w: World, t: World, id: int, r: int)
    requires LagOnlyWhileLoaded(w) && id in w.redis.users && w.redis.users[id].info.Some? && Left(w, t, id)
    requires r in w.redis.rooms && r in w.mongo.rooms && CachedRoom(w, r)
    requires id in w.mongo.rooms[r].users ==> r in w.redis.users[id].chats
    requires r in t.mongo.rooms && !SomeMemberLoaded(t, r)
    ensures Synced(t, r)
  {
    AnyOtherMeaning(w, r, id);
    assert t.mongo.rooms[r].users == w.mongo.rooms[r].users;
    assert forall u :: u in w.mongo.rooms[r].users && u in w.redis.users ==> u == id;
    if id !in w.mongo.rooms[r].users {
      assert !SomeMemberLoaded(w, r);
    }
  }

  lemma LeaveSimulates(w: World, session: string)
    requires Good(w)
    ensures Coherent(Leave(w, session))
    ensures Abs(Leave(w, session)) == Chat.Step(Abs(w), LogOut(session))
  {
    Basics(w);
    LeaveCases(w, Leave(w, session), session);
  }

  lemma LeaveCases(w: World, t: World, session: string)
    requires Coherent(w) && Indexed(Abs(w)) && Distinct(DocNames(w.mongo.users)) && t == Leave(w, session)
    ensures Coherent(t) && Abs(t) == Chat.Step(Abs(w), LogOut(session))
  {
    if session in w.redis.sessions && w.redis.sessions[session] in w.redis.users {
      LeaveReaches(w, session);
      LeftSimulates(w, t, w.redis.sessions[session]);
    } else {
      assert session in w.redis.sessions ==> Abs(w).loaded - {w.redis.sessions[session]} == Abs(w).loaded;
    }
  }

  lemma LeftSimulates(w: World, t: World, id: int)
    requires Coherent(w) && Indexed(Abs(w)) && Distinct(DocNames(w.mongo.users))
    requires id in w.redis.users && w.redis.users[id].info.Some? && Left(w, t, id)
    ensures Coherent(t)
    ensures Abs(t) == Abs(w).(loaded := Abs(w).loaded - {id})
  {
    LeftUsers(w, t, id);
    LeftRooms(w, t, id);
  }

  // ---------------------------------------------------------------- all events, all runs

  /** Forward simulation: both stores together take the step the single service takes. */
  lemma StepSimulates(w: World, e: Event)
    requires Good(w) && Fresh(w, e)
    ensures Good(Store.Step(w, e))
    ensures Abs(Store.Step(w, e)) == Chat.Step(Abs(w), e)
  {
    match e {
      case CreateAccount(name, password) => CreateSimulates(w, name, password);
      case LogIn(name, password, session) => LogInSimulates(w, name, password, session);
      case LoadData(session, socket) => LoadSimulates(w, session, socket);
      case Send(session, room, text, date) => SendSimulates(w, session, room, text, date);
      case AddFriend(session, friend) => AskSimulates(w, session, friend);
      case LogOut(session) => LeaveSimulates(w, session);
    }
    StepKeepsInv(Abs(w), e);
  }

  lemma InitGood()
    ensures Good(INIT) && Abs(INIT) == EMPTY
  {
    assert Abs(INIT) == EMPTY;
  }

  lemma {:induction false} RunSimulates(w: World, es: seq<Event>)
    requires Good(w) && Guarded(w, es)
    ensures Good(Store.Run(w, es))
    ensures Abs(Store.Run(w, es)) == Chat.Run(Abs(w), es)
    decreases |es|
  {
    if es == [] {
    } else {
      StepSimulates(w, es[0]);
      RunSimulates(Store.Step(w, es[0]), es[1..]);
    }
  }
}
