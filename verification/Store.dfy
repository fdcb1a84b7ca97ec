/**
  The two stores of the server as values: MongoDB documents, Redis keys, and what each server event
  does to them.  The classes of module Server run these events command by command; module Simulation
  proves that the pair of stores behaves like the single store of module Chat.
*/
module Store {
  import opened Base
  import opened Chat

  // ---------------------------------------------------------------- MongoDB

  datatype UserDoc = UserDoc(
    id: int, name: string, password: string,
    friends: seq<int>, friendsNum: int, chats: seq<int>, chatsNum: int)

  datatype RoomDoc = RoomDoc(
    id: int, users: seq<int>, userAmount: int, messages: seq<Message>, messageAmount: int)

  datatype Mongo = Mongo(
    users: map<int, UserDoc>, rooms: map<int, RoomDoc>, userSeq: int, roomSeq: int)

  function DocNames(users: map<int, UserDoc>): map<int, string> {
    map id | id in users :: users[id].name
  }

  function NameOf(m: Mongo, id: int): string {
    if id in m.users then m.users[id].name else "Unknown"
  }

  function NamesOf(m: Mongo, ids: seq<int>): (names: seq<string>)
    ensures |names| == |ids|
    ensures forall i :: 0 <= i < |ids| ==> names[i] == NameOf(m, ids[i])
  {
    seq(|ids|, i requires 0 <= i < |ids| => NameOf(m, ids[i]))
  }

  /** `mongodb_user_get_id`: -1 when nobody has the name. */
  ghost function IdNamed(m: Mongo, name: string): int {
    match IdOf(DocNames(m.users), name)
    case Some(id) => id
    case None => -1
  }

  ghost function IdsNamed(m: Mongo, names: seq<string>): (ids: seq<int>)
    ensures |ids| == |names|
    ensures forall i :: 0 <= i < |names| ==> ids[i] == IdNamed(m, names[i])
  {
    seq(|names|, i requires 0 <= i < |names| => IdNamed(m, names[i]))
  }

  /** Reading a message out of either store keeps at most 383 characters of its text. */
  function Cut(msg: Message): Message {
    msg.(text := Clip(msg.text, MESSAGE_MAX_SIZE - 1))
  }

  function CutAll(ms: seq<Message>): (cut: seq<Message>)
    ensures |cut| == |ms|
    ensures forall i :: 0 <= i < |ms| ==> cut[i] == Cut(ms[i])
  {
    seq(|ms|, i requires 0 <= i < |ms| => Cut(ms[i]))
  }

  // ---------------------------------------------------------------- Redis

  datatype Info = Info(name: string, password: string, friendsNum: int, chatsNum: int)

  /** The keys user:<id>, user:<id>:friends and user:<id>:chats. */
  datatype UserKeys = UserKeys(
    info: Option<Info>, socket: Option<int>, friends: seq<string>, chats: seq<int>)

  datatype Body = Body(sentBy: int, text: string, date: int)

  /** The keys room:<id>, room:<id>:users, room:<id>:messages and room:<id>:msg:<msg_id>. */
  datatype RoomKeys = RoomKeys(
    userAmount: int, messageAmount: int, users: seq<int>, ids: seq<int>, bodies: map<int, Body>)

  datatype SocketHash = SocketHash(id: int, session: string)

  datatype Redis = Redis(
    users: map<int, UserKeys>, invites: map<int, seq<int>>, online: set<int>,
    sockets: map<int, SocketHash>, sessions: map<string, int>, rooms: map<int, RoomKeys>)

  const NO_USER := UserKeys(None, None, [], [])
  const NO_ROOM := RoomKeys(0, 0, [], [], map[])

  /** The message stored under one id; missing hash fields read as defaults. */
  function Stored(keys: RoomKeys, id: int): Message {
    if id in keys.bodies
    then Message(id, keys.bodies[id].sentBy, keys.bodies[id].text, keys.bodies[id].date)
    else Message(id, -1, "", 0)
  }

  function Listed(keys: RoomKeys): (ms: seq<Message>)
    ensures |ms| == |keys.ids|
    ensures forall i :: 0 <= i < |ms| ==> ms[i] == Stored(keys, keys.ids[i])
  {
    seq(|keys.ids|, i requires 0 <= i < |keys.ids| => Stored(keys, keys.ids[i]))
  }

  function Push(keys: RoomKeys, msg: Message): RoomKeys {
    keys.(ids := keys.ids + [msg.id], bodies := keys.bodies[msg.id := Body(msg.sentBy, msg.text, msg.date)])
  }

  function PushAll(keys: RoomKeys, ms: seq<Message>): RoomKeys {
    if ms == [] then keys else Push(PushAll(keys, ms[..|ms| - 1]), ms[|ms| - 1])
  }

  /** `redis_room_read`. */
  function Snapshot(id: int, keys: RoomKeys): RoomDoc {
    RoomDoc(id, keys.users, keys.userAmount, CutAll(Listed(keys)), keys.messageAmount)
  }

  /** `redis_room_write`: HSET replaces the amounts, RPUSH appends to the lists. */
  function Written(keys: RoomKeys, doc: RoomDoc): RoomKeys {
    PushAll(keys.(userAmount := doc.userAmount, messageAmount := doc.messageAmount,
                  users := keys.users + doc.users), doc.messages)
  }

  /** Exactly when a room may be written to Redis: over nothing that lists members or messages, since
      the lists grow while the amounts are replaced. */
  lemma WrittenOnce(keys: RoomKeys, doc: RoomDoc)
    requires SizedRoom(doc)
    ensures SizedRoomKeys(Written(keys, doc)) <==> keys.users == [] && keys.ids == []
    ensures keys.users <= Written(keys, doc).users && keys.ids <= Written(keys, doc).ids
  {
    PushedIds(keys.(userAmount := doc.userAmount, messageAmount := doc.messageAmount,
                    users := keys.users + doc.users), doc.messages);
  }

  lemma {:induction false} PushedIds(keys: RoomKeys, ms: seq<Message>)
    ensures var k := PushAll(keys, ms);
            && k.ids == keys.ids + IdsOf(ms)
            && k.users == keys.users && k.userAmount == keys.userAmount && k.messageAmount == keys.messageAmount
  {
    if ms == [] {
      assert keys.ids + IdsOf(ms) == keys.ids;
    } else {
      var n := |ms| - 1;
      PushedIds(keys, ms[..n]);
      assert IdsOf(ms) == IdsOf(ms[..n]) + [ms[n].id];
    }
  }

  /** A room of Mongo as `mongodb_room_read` and `redis_room_write` bring it into Redis. */
  function Imported(doc: RoomDoc): RoomKeys {
    Written(NO_ROOM, doc.(messages := CutAll(doc.messages)))
  }

  // ---------------------------------------------------------------- both

  datatype World = World(mongo: Mongo, redis: Redis)

  const COLD := Redis(map[], map[], {}, map[], map[], map[])
  const INIT := World(Mongo(map[], map[], 1, 1), COLD)

  /** `redis_user_read`: friends are listed by name in Redis and by id everywhere else. */
  ghost function ReadUser(w: World, session: string): Option<UserDoc> {
    if session !in w.redis.sessions then None
    else
      var id := w.redis.sessions[session];
      if id !in w.redis.users || w.redis.users[id].info.None? then None
      else Some(CachedUser(w, id))
  }

  ghost function CachedUser(w: World, id: int): UserDoc
    requires id in w.redis.users && w.redis.users[id].info.Some?
  {
    var keys := w.redis.users[id];
    UserDoc(id, keys.info.value.name, keys.info.value.password,
            IdsNamed(w.mongo, keys.friends), keys.info.value.friendsNum,
            keys.chats, keys.info.value.chatsNum)
  }

  /** What every handler may assume: the array sizes the code allocates from the stored counts are
      the sizes of the stored lists, documents are found under their own positive id, no two users
      share a name, and a user in Redis has more than a socket there. */
  ghost predicate Sound(w: World) {
    && DocsSound(w.mongo)
    && (forall id :: id in w.redis.users ==> w.redis.users[id].info.Some? && SizedKeys(w.redis.users[id]))
    && (forall r :: r in w.redis.rooms ==> SizedRoomKeys(w.redis.rooms[r]))
  }

  ghost predicate DocsSound(m: Mongo) {
    && (forall id :: id in m.users ==> id >= 1 && m.users[id].id == id && SizedUser(m.users[id]))
    && (forall r :: r in m.rooms ==> SizedRoom(m.rooms[r]) && |m.rooms[r].users| <= ROOM_MAX)
    && Distinct(DocNames(m.users))
  }

  predicate SizedUser(d: UserDoc) { d.friendsNum == |d.friends| && d.chatsNum == |d.chats| }

  predicate SizedRoom(d: RoomDoc) { d.userAmount == |d.users| && d.messageAmount == |d.messages| }

  predicate SizedKeys(k: UserKeys) {
    k.info.Some? ==> k.info.value.friendsNum == |k.friends| && k.info.value.chatsNum == |k.chats|
  }

  predicate SizedRoomKeys(k: RoomKeys) { k.userAmount == |k.users| && k.messageAmount == |k.ids| }

  /** `mongodb_user_read` fills at most this much of the arrays it allocates. */
  predicate Capped(d: UserDoc) { |d.friends| <= FRIENDS_MAX && |d.chats| <= ROOM_MAX }

  function Trimmed(d: UserDoc): (t: UserDoc)
    ensures Capped(t) && (Capped(d) ==> t == d)
    ensures t.friends <= d.friends && t.chats <= d.chats && t == d.(friends := t.friends, chats := t.chats)
    ensures |d.friends| > FRIENDS_MAX ==> |t.friends| == FRIENDS_MAX
    ensures |d.chats| > ROOM_MAX ==> |t.chats| == ROOM_MAX
  {
    d.(friends := if |d.friends| <= FRIENDS_MAX then d.friends else d.friends[..FRIENDS_MAX],
       chats := if |d.chats| <= ROOM_MAX then d.chats else d.chats[..ROOM_MAX])
  }

  // ---------------------------------------------------------------- events

  ghost function Step(w: World, e: Event): World {
    match e
    case CreateAccount(name, password) => CreateUser(w, name, password)
    case LogIn(name, password, session) => Authenticate(w, name, password, session)
    case LoadData(session, socket) => Load(w, session, socket)
    case Send(session, room, text, date) => SendMessage(w, session, room, text, date)
    case AddFriend(session, friend) => AskFriend(w, session, friend)
    case LogOut(session) => Leave(w, session)
  }

  ghost function CreateUser(w: World, name: string, password: string): World {
    if !Acceptable(name, password) || IdNamed(w.mongo, name) > 0 then w
    else
      var id := w.mongo.userSeq + 1;
      w.(mongo := w.mongo.(users := w.mongo.users[id := UserDoc(id, name, password, [], 0, [], 0)], userSeq := id))
  }

  /** The session is written even when its key was already taken; only then is the reply a failure. */
  ghost function Authenticate(w: World, name: string, password: string, session: string): World {
    var id := IdNamed(w.mongo, name);
    if !Acceptable(name, password) || id < 1 || id !in w.mongo.users || w.mongo.users[id].password != password then w
    else w.(redis := w.redis.(
      sessions := w.redis.sessions[session := id],
      online := if session in w.redis.sessions then w.redis.online else w.redis.online + {id}))
  }

  ghost function Load(w: World, session: string, socket: int): World {
    if session !in w.redis.sessions || w.redis.sessions[session] < 1 then w
    else
      var id := w.redis.sessions[session];
      var name := NameOf(w.mongo, id);
      if name == "Unknown" then w
      else Fetch(w.(redis := Attach(w.redis, id, session, socket)), name)
  }

  /** `redis_user_socket_write`. */
  function Attach(r: Redis, id: int, session: string, socket: int): Redis {
    var keys := if id in r.users then r.users[id] else NO_USER;
    r.(users := r.users[id := keys.(socket := Some(socket))],
       sockets := r.sockets[socket := SocketHash(id, session)])
  }

  /** `mongodb_to_redis`: import the chats Redis lacks, stopping at one that Mongo lacks too. */
  ghost function Fetch(w: World, name: string): World {
    match IdOf(DocNames(w.mongo.users), name)
    case None => w
    case Some(id) =>
      var doc := w.mongo.users[id];
      var found := Present(doc.chats, w.redis.rooms.Keys + w.mongo.rooms.Keys);
      var redis := w.redis.(rooms := Import(w, found));
      if found != doc.chats then w.(redis := redis)
      else w.(redis := redis.(
        online := redis.online + {doc.id},
        users := redis.users[doc.id :=
          Filled(w.mongo, if doc.id in redis.users then redis.users[doc.id] else NO_USER, doc)]))
  }

  /** The longest prefix of ids that are all known. */
  function Present(ids: seq<int>, known: set<int>): (p: seq<int>)
    ensures p <= ids
    ensures forall i :: 0 <= i < |p| ==> p[i] in known
    ensures |p| < |ids| ==> ids[|p|] !in known
  {
    if ids == [] || ids[0] !in known then [] else [ids[0]] + Present(ids[1..], known)
  }

  lemma {:induction false} PresentAll(ids: seq<int>, known: set<int>)
    requires forall i :: i in ids ==> i in known
    ensures Present(ids, known) == ids
  {
    if ids != [] {
      var first := ids[0];
      assert first in ids;
      assert first in known;
      PresentAll(ids[1..], known);
      assert ids == [first] + ids[1..];
    } else {
      assert Present(ids, known) == ids;
    }
  }

  lemma {:induction false} PresentUpTo(ids: seq<int>, known: set<int>, n: nat)
    requires n < |ids| && ids[n] !in known && forall i :: 0 <= i < n ==> ids[i] in known
    ensures Present(ids, known) == ids[..n]
  {
    if n == 0 {
    } else {
      PresentUpTo(ids[1..], known, n - 1);
      assert ids[..n] == [ids[0]] + ids[1..][..n - 1];
    }
  }

  function Import(w: World, chats: seq<int>): map<int, RoomKeys> {
    w.redis.rooms + map r | r in chats && r !in w.redis.rooms && r in w.mongo.rooms :: Imported(w.mongo.rooms[r])
  }

  lemma ImportNext(w: World, chats: seq<int>, r: int)
    ensures r in Import(w, chats) || r !in w.mongo.rooms ==> Import(w, chats + [r]) == Import(w, chats)
    ensures r !in Import(w, chats) && r in w.mongo.rooms ==>
      Import(w, chats + [r]) == Import(w, chats)[r := Imported(w.mongo.rooms[r])]
    ensures Import(w, []) == w.redis.rooms
    ensures w.redis.rooms.Keys <= Import(w, chats).Keys <= w.redis.rooms.Keys + w.mongo.rooms.Keys
  {
    NoneImported(w);
    KnownImported(w, chats);
    MoreImported(w, chats, r);
    SameImported(w, chats, r);
    var less, more := Import(w, chats), Import(w, chats + [r]);
    hide Imported, Import;
    assert forall c :: c in less ==> more[c] == less[c];
  }

  /** What was there or imported before stays, and r comes from MongoDB. */
  lemma SameImported(w: World, chats: seq<int>, r: int)
    ensures forall c :: c in Import(w, chats) ==>
              c in Import(w, chats + [r]) && Import(w, chats + [r])[c] == Import(w, chats)[c]
    ensures r !in Import(w, chats) && r in w.mongo.rooms ==>
              r in Import(w, chats + [r]) && Import(w, chats + [r])[r] == Imported(w.mongo.rooms[r])
  {
    hide Imported;
    assert forall c :: c in chats + [r] <==> c in chats || c == r;
  }

  lemma KnownImported(w: World, chats: seq<int>)
    ensures w.redis.rooms.Keys <= Import(w, chats).Keys <= w.redis.rooms.Keys + w.mongo.rooms.Keys
  {
    hide Imported;
  }

  lemma NoneImported(w: World)
    ensures Import(w, []) == w.redis.rooms
  {
    hide Imported;
  }

  lemma MoreImported(w: World, chats: seq<int>, r: int)
    ensures Import(w, chats + [r]).Keys == Import(w, chats).Keys + if r in w.mongo.rooms then {r} else {}
  {
    hide Imported;
    assert forall c :: c in chats + [r] <==> c in chats || c == r;
  }

  /** `redis_user_write`: the lists grow by what is read from Mongo, the counts are replaced. */
  function Filled(m: Mongo, keys: UserKeys, doc: UserDoc): UserKeys {
    keys.(info := Some(Info(doc.name, doc.password, doc.friendsNum, doc.chatsNum)),
          friends := keys.friends + NamesOf(m, doc.friends),
          chats := keys.chats + doc.chats)
  }

  ghost function SendMessage(w: World, session: string, room: int, text: string, date: int): World {
    var user := ReadUser(w, session);
    if room !in w.redis.rooms || user.None? || room !in user.value.chats then w
    else w.(redis := w.redis.(rooms := w.redis.rooms[room := Posted(w.redis.rooms[room], user.value.id, text, date)]))
  }

  function Posted(keys: RoomKeys, sender: int, text: string, date: int): RoomKeys {
    var id := keys.messageAmount + 1;
    Push(keys.(messageAmount := id), Message(id, sender, Clip(text, MESSAGE_MAX_SIZE), date))
  }

  ghost function AskFriend(w: World, session: string, friend: string): World {
    var v := IdNamed(w.mongo, friend);
    var user := ReadUser(w, session);
    if v == -1 || user.None? || user.value.id == v || user.value.id in At(w.redis.invites, v) then w
    else
      var u := user.value.id;
      if v in At(w.redis.invites, u) then Accept(w, u, v)
      else w.(redis := w.redis.(invites := w.redis.invites[v := At(w.redis.invites, v) + [u]]))
  }

  /** The room is born in both stores; each side is told in the store that holds it. */
  function Accept(w: World, u: int, v: int): World
    requires u in w.redis.users
  {
    var room := w.mongo.roomSeq + 1;
    var doc := RoomDoc(room, [u, v], 2, [], 0);
    var keys := if room in w.redis.rooms then w.redis.rooms[room] else NO_ROOM;
    var m := w.mongo.(rooms := w.mongo.rooms[room := doc], roomSeq := room);
    var r := w.redis.(
      invites := w.redis.invites[u := Without(At(w.redis.invites, u), v)],
      rooms := w.redis.rooms[room := Written(keys, doc)],
      users := w.redis.users[u := Joined(w.redis.users[u], NameOf(m, v), room)]);
    if v in r.users then World(m, r.(users := r.users[v := Joined(r.users[v], NameOf(m, u), room)]))
    else if v in m.users then World(m.(users := m.users[v := JoinedDoc(m.users[v], u, room)]), r)
    else World(m, r)
  }

  /** The invites play no part in the rest of an acceptance. */
  lemma AcceptApart(w: World, u: int, v: int, invites: map<int, seq<int>>)
    requires u in w.redis.users
    ensures var other := w.(redis := w.redis.(invites := invites));
            var done := Accept(other, u, v);
            Accept(w, u, v)
              == done.(redis := done.redis.(invites := w.redis.invites[u := Without(At(w.redis.invites, u), v)]))
  {
  }

  function Joined(keys: UserKeys, friend: string, room: int): UserKeys {
    keys.(friends := keys.friends + [friend], chats := keys.chats + [room],
          info := match keys.info
                  case None => None
                  case Some(i) => Some(i.(friendsNum := i.friendsNum + 1, chatsNum := i.chatsNum + 1)))
  }

  function JoinedDoc(d: UserDoc, friend: int, room: int): UserDoc {
    d.(friends := d.friends + [friend], friendsNum := d.friendsNum + 1,
       chats := d.chats + [room], chatsNum := d.chatsNum + 1)
  }

  /** `redis_to_mongodb`. */
  ghost function Leave(w: World, session: string): World {
    var user := ReadUser(w, session);
    if user.None? then w
    else
      var id := user.value.id;
      var gone := Forget(w.redis, id);
      var m := w.mongo.(users := w.mongo.users[id := user.value]);
      if w.redis.users[id].socket.None? then World(m, gone)
      else World(m.(rooms := Flush(m.rooms, gone, id, Present(user.value.chats, gone.rooms.Keys))), gone)
  }

  /** `redis_user_offline`. */
  function Forget(r: Redis, id: int): Redis
    requires id in r.users
  {
    r.(online := r.online - {id}, users := r.users - {id},
       sockets := match r.users[id].socket
                  case Some(s) => r.sockets - {s}
                  case None => r.sockets)
  }

  /** `mongodb_room_any_online`: some member other than id is in Redis. */
  ghost predicate AnyOther(members: seq<int>, r: Redis, id: int) {
    exists i :: 0 <= i < |members| && members[i] != id && members[i] in r.users
  }

  ghost function Flush(rooms: map<int, RoomDoc>, r: Redis, id: int, chats: seq<int>): map<int, RoomDoc> {
    rooms + map c | c in chats && c in r.rooms && !AnyOther(r.rooms[c].users, r, id) :: Snapshot(c, r.rooms[c])
  }

  // ---------------------------------------------------------------- guards

  /** What the code relies on without checking it: user documents that fit the read arrays, and no
      second load of a user whose data is in Redis. */
  ghost predicate Fits(w: World, e: Event) {
    match e
    case LoadData(session, _) =>
      session in w.redis.sessions && w.redis.sessions[session] in w.mongo.users ==>
        Capped(w.mongo.users[w.redis.sessions[session]])
    case AddFriend(_, friend) =>
      var v := IdNamed(w.mongo, friend);
      v in w.mongo.users && v !in w.redis.users ==> Capped(w.mongo.users[v])
    case _ => true
  }

  ghost predicate Fresh(w: World, e: Event) {
    e.LoadData? && e.session in w.redis.sessions ==> w.redis.sessions[e.session] !in w.redis.users
  }

  // ---------------------------------------------------------------- runs

  ghost function Run(w: World, es: seq<Event>): World
    decreases |es|
  {
    if es == [] then w else Run(Step(w, es[0]), es[1..])
  }

  ghost predicate Guarded(w: World, es: seq<Event>)
    decreases |es|
  {
    es != [] ==> Fits(w, es[0]) && Fresh(w, es[0]) && Guarded(Step(w, es[0]), es[1..])
  }
}
