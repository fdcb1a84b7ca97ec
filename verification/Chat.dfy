/**
  The chat service as its users see it: one store, no cache.  Server events act on one profile per
  user and one history per room; being loaded is only a flag.  The two-tier store of module Store is
  proved to behave like this service (module Simulation).
*/
module Chat {
  import opened Base

  datatype Message = Message(id: int, sentBy: int, text: string, date: int)
  datatype Profile = Profile(name: string, password: string, friends: seq<int>, chats: seq<int>)
  datatype Room = Room(members: seq<int>, history: seq<Message>)

  datatype Service = Service(
    users: map<int, Profile>,
    rooms: map<int, Room>,
    invites: map<int, seq<int>>,   // invites[v] lists the users whose invite to v is pending
    sessions: map<string, int>,
    loaded: set<int>,
    lastUser: int,
    lastRoom: int)

  datatype Event =
    | CreateAccount(name: string, password: string)
    | LogIn(name: string, password: string, session: string)
    | LoadData(session: string, socket: int)
    | Send(session: string, room: int, text: string, date: int)
    | AddFriend(session: string, friend: string)
    | LogOut(session: string)

  function Names(users: map<int, Profile>): map<int, string> {
    map id | id in users :: users[id].name
  }

  predicate Acceptable(name: string, password: string) {
    NAME_MIN_SIZE <= |name| <= NAME_MAX_SIZE && PASSWORD_MIN_SIZE <= |password| <= PASSWORD_MAX_SIZE
  }

  ghost function Step(s: Service, e: Event): Service {
    match e
    case CreateAccount(name, password) =>
      if !Acceptable(name, password) || IdOf(Names(s.users), name).Some? then s
      else s.(users := s.users[s.lastUser + 1 := Profile(name, password, [], [])], lastUser := s.lastUser + 1)
    case LogIn(name, password, session) =>
      var id := IdOf(Names(s.users), name);
      if Acceptable(name, password) && id.Some? && s.users[id.value].password == password
      then s.(sessions := s.sessions[session := id.value])
      else s
    case LoadData(session, _) =>
      if session in s.sessions && s.sessions[session] in s.users && s.users[s.sessions[session]].name != "Unknown"
      then s.(loaded := s.loaded + {s.sessions[session]})
      else s
    case Send(session, room, text, date) =>
      if session in s.sessions && s.sessions[session] in s.loaded && s.sessions[session] in s.users
         && room in s.users[s.sessions[session]].chats && room in s.rooms
      then s.(rooms := s.rooms[room := Post(s.rooms[room], s.sessions[session], text, date)])
      else s
    case AddFriend(session, friend) =>
      var f := IdOf(Names(s.users), friend);
      if f.Some? && session in s.sessions && s.sessions[session] in s.loaded && s.sessions[session] in s.users
      then Ask(s, s.sessions[session], f.value)
      else s
    case LogOut(session) =>
      if session in s.sessions then s.(loaded := s.loaded - {s.sessions[session]}) else s
  }

  function Post(room: Room, sender: int, text: string, date: int): Room {
    room.(history := room.history + [Message(|room.history| + 1, sender, Clip(text, MESSAGE_MAX_SIZE), date)])
  }

  /** u asks for v's friendship: answered at once when v has already asked u. */
  function Ask(s: Service, u: int, v: int): Service
    requires u in s.users && v in s.users
  {
    if u == v || u in At(s.invites, v) then s
    else if v in At(s.invites, u) then Befriend(s, u, v)
    else s.(invites := s.invites[v := At(s.invites, v) + [u]])
  }

  function Befriend(s: Service, u: int, v: int): Service
    requires u in s.users && v in s.users && u != v
  {
    var room := s.lastRoom + 1;
    s.(invites := s.invites[u := Without(At(s.invites, u), v)],
       users := s.users[u := Meet(s.users[u], v, room)][v := Meet(s.users[v], u, room)],
       rooms := s.rooms[room := Room([u, v], [])],
       lastRoom := room)
  }

  function Meet(p: Profile, friend: int, room: int): Profile {
    p.(friends := p.friends + [friend], chats := p.chats + [room])
  }

  // ---------------------------------------------------------------- invariant

  ghost predicate IdsInRange(s: Service) {
    && s.lastUser >= 0 && s.lastRoom >= 0
    && (forall id :: id in s.users ==> 1 <= id <= s.lastUser)
    && (forall r :: r in s.rooms ==> 1 <= r <= s.lastRoom)
    && s.loaded <= s.users.Keys
    && (forall k :: k in s.sessions ==> s.sessions[k] in s.users)
  }

  ghost predicate Pairs(s: Service) {
    forall r :: r in s.rooms ==>
      var m := s.rooms[r].members;
      |m| == 2 && m[0] != m[1] && m[0] in s.users && m[1] in s.users
  }

  /** Chat lists and member lists index each other, and no chat is listed twice. */
  ghost predicate Indexed(s: Service) {
    && (forall u :: u in s.users ==> NoDup(s.users[u].chats))
    && (forall u, r :: u in s.users ==> (r in s.users[u].chats <==> r in s.rooms && u in s.rooms[r].members))
  }

  ghost function Between(rooms: map<int, Room>, u: int, v: int): set<int> {
    set r | r in rooms && (rooms[r].members == [u, v] || rooms[r].members == [v, u])
  }

  /** v occurs among u's friends once per room shared by exactly the two of them. */
  ghost predicate Befriended(s: Service) {
    && (forall u, v :: u in s.users && v in s.users[u].friends ==> v in s.users)
    && (forall u, v :: u in s.users && v in s.users ==>
         multiset(s.users[u].friends)[v] == |Between(s.rooms, u, v)|)
  }

  ghost predicate Invited(s: Service) {
    && (forall v :: v in s.invites ==> NoDup(s.invites[v]) && v !in s.invites[v])
    && (forall u, v :: u in At(s.invites, v) ==> v !in At(s.invites, u))
  }

  function IdsOf(ms: seq<Message>): (ids: seq<int>)
    ensures |ids| == |ms|
    ensures forall i :: 0 <= i < |ms| ==> ids[i] == ms[i].id
  {
    seq(|ms|, i requires 0 <= i < |ms| => ms[i].id)
  }

  /** The ids of a history are 1 to its length, each once, in some order. */
  ghost predicate Numbering(ms: seq<Message>) {
    NoDup(IdsOf(ms)) && forall i :: 0 <= i < |ms| ==> 1 <= ms[i].id <= |ms|
  }

  ghost predicate Numbered(s: Service) {
    forall r :: r in s.rooms ==> Numbering(s.rooms[r].history)
  }

  /** While senders take turns, the ids are in order, too. */
  ghost predicate InOrder(s: Service) {
    forall r, i :: r in s.rooms && 0 <= i < |s.rooms[r].history| ==> s.rooms[r].history[i].id == i + 1
  }

  /** Every message in a room comes from one of its members. */
  ghost predicate Authored(s: Service) {
    forall r, i :: r in s.rooms && 0 <= i < |s.rooms[r].history| ==> s.rooms[r].history[i].sentBy in s.rooms[r].members
  }

  ghost predicate Inv(s: Service) {
    && IdsInRange(s)
    && Distinct(Names(s.users))
    && Pairs(s)
    && Indexed(s)
    && Befriended(s)
    && Invited(s)
    && Numbered(s)
    && Authored(s)
  }

  const EMPTY := Service(map[], map[], map[], map[], {}, 1, 1)

  lemma EmptyInv()
    ensures Inv(EMPTY)
  {
  }

  lemma StepKeepsInv(s: Service, e: Event)
    requires Inv(s)
    ensures Inv(Step(s, e))
  {
    match e
    case CreateAccount(name, password) =>
      if Acceptable(name, password) && IdOf(Names(s.users), name).None? { CreateKeepsInv(s, name, password); }
    case LogIn(_, _, _) => SessionsKeepInv(s, e);
    case LoadData(_, _) => SessionsKeepInv(s, e);
    case Send(_, _, _, _) => SendKeepsInv(s, e);
    case AddFriend(session, friend) =>
      hide Inv, Ask;
      var f := IdOf(Names(s.users), friend);
      if f.Some? && session in s.sessions && s.sessions[session] in s.loaded && s.sessions[session] in s.users {
        AskKeepsInv(s, s.sessions[session], f.value);
      }
    case LogOut(_) => SessionsKeepInv(s, e);
  }

  /** Sessions and loading leave users, rooms and invites alone. */
  lemma SessionsKeepInv(s: Service, e: Event)
    requires Inv(s) && (e.LogIn? || e.LoadData? || e.LogOut?)
    ensures Inv(Step(s, e))
  {
    var t := Step(s, e);
    assert t.users == s.users && t.rooms == s.rooms && t.invites == s.invites;
    assert IdsInRange(t);
    hide Step;
  }

  lemma CreateKeepsInv(s: Service, name: string, password: string)
    requires Inv(s) && Acceptable(name, password) && IdOf(Names(s.users), name).None?
    ensures Inv(Step(s, CreateAccount(name, password)))
  {
    CreateKeepsNames(s, name, password);
    CreateKeepsIndex(s, name, password);
    CreateKeepsFriends(s, name, password);
  }

  lemma CreateKeepsIndex(s: Service, name: string, password: string)
    requires IdsInRange(s) && Pairs(s) && Indexed(s) && Acceptable(name, password) && IdOf(Names(s.users), name).None?
    ensures IdsInRange(Step(s, CreateAccount(name, password)))
    ensures Pairs(Step(s, CreateAccount(name, password)))
    ensures Indexed(Step(s, CreateAccount(name, password)))
  {
    var t := Step(s, CreateAccount(name, password));
    assert s.lastUser + 1 !in s.users;
    assert IdsInRange(t) by { hide Pairs, Indexed; }
    hide Step, IdsInRange;
    NewcomerIsNoMember(s, t, s.lastUser + 1, Profile(name, password, [], []));
  }

  lemma NewcomerIsNoMember(s: Service, t: Service, id: int, p: Profile)
    requires Pairs(s) && Indexed(s) && id !in s.users && p.chats == []
    requires t.users == s.users[id := p] && t.rooms == s.rooms
    ensures Pairs(t) && Indexed(t)
  {
    forall r | r in t.rooms ensures id !in t.rooms[r].members {
      var m := s.rooms[r].members;
      assert m == [m[0], m[1]];
    }
    hide NoDup;
  }

  lemma CreateKeepsNames(s: Service, name: string, password: string)
    requires IdsInRange(s) && Distinct(Names(s.users)) && Acceptable(name, password) && IdOf(Names(s.users), name).None?
    ensures Distinct(Names(Step(s, CreateAccount(name, password)).users))
  {
    var t := Step(s, CreateAccount(name, password));
    assert Names(t.users) == Names(s.users)[s.lastUser + 1 := name];
  }

  lemma CreateKeepsFriends(s: Service, name: string, password: string)
    requires IdsInRange(s) && Pairs(s) && Befriended(s)
    requires Acceptable(name, password) && IdOf(Names(s.users), name).None?
    ensures Befriended(Step(s, CreateAccount(name, password)))
  {
    NewcomerHasNoFriends(s, Step(s, CreateAccount(name, password)), s.lastUser + 1);
  }

  lemma NewcomerHasNoFriends(s: Service, t: Service, id: int)
    requires id !in s.users && Pairs(s) && Befriended(s) && t.rooms == s.rooms
    requires t.users.Keys == s.users.Keys + {id} && t.users[id].friends == []
    requires forall u :: u in s.users ==> t.users[u] == s.users[u]
    ensures Befriended(t)
  {
    forall u, v | u in t.users && v in t.users
      ensures multiset(t.users[u].friends)[v] == |Between(t.rooms, u, v)|
    {
      if u == id || v == id {
        NewcomerSharesNothing(s, id, u, v);
        assert u != id ==> id !in s.users[u].friends;
      }
    }
  }

  lemma NewcomerSharesNothing(s: Service, id: int, u: int, v: int)
    requires id !in s.users && Pairs(s) && (u == id || v == id)
    ensures |Between(s.rooms, u, v)| == 0
  {
    forall r | r in s.rooms ensures s.rooms[r].members != [u, v] && s.rooms[r].members != [v, u] {
      assert [u, v][0] == u && [u, v][1] == v && [v, u][0] == v && [v, u][1] == u;
    }
    assert Between(s.rooms, u, v) == {};
  }

  lemma SendKeepsInv(s: Service, e: Event)
    requires Inv(s) && e.Send?
    ensures Inv(Step(s, e))
  {
    var t := Step(s, e);
    if t != s {
      assert s.sessions[e.session] in s.rooms[e.room].members;
      PostKeepsInv(s, t, e.room, s.sessions[e.session], e.text, e.date);
    }
  }

  lemma PostKeepsInv(s: Service, t: Service, r: int, sender: int, text: string, date: int)
    requires Inv(s) && r in s.rooms && sender in s.rooms[r].members
    requires t == s.(rooms := s.rooms[r := Post(s.rooms[r], sender, text, date)])
    ensures Inv(t)
  {
    PostKeepsHistory(s, t, r, sender, text, date);
    hide Post, Numbering;
    HistoryKeepsInv(s, t, r, t.rooms[r].history);
  }

  /** Any numbered history written by the members of the room will do. */
  lemma HistoryKeepsInv(s: Service, t: Service, r: int, history: seq<Message>)
    requires Inv(s) && r in s.rooms && t == s.(rooms := s.rooms[r := s.rooms[r].(history := history)])
    requires Numbering(history) && forall i :: 0 <= i < |history| ==> history[i].sentBy in s.rooms[r].members
    ensures Inv(t)
  {
    SameMembersSamePairs(s.rooms, t.rooms);
    hide Between, Numbering;
  }

  lemma SameMembersSamePairs(rooms: map<int, Room>, rooms': map<int, Room>)
    requires rooms'.Keys == rooms.Keys && forall r :: r in rooms ==> rooms'[r].members == rooms[r].members
    ensures forall u, v :: Between(rooms', u, v) == Between(rooms, u, v)
  {
    forall u, v ensures Between(rooms', u, v) == Between(rooms, u, v) {
      assert forall r :: r in rooms ==> rooms'[r].members == rooms[r].members;
    }
  }

  lemma PostKeepsHistory(s: Service, t: Service, r: int, sender: int, text: string, date: int)
    requires Numbered(s) && Authored(s) && r in s.rooms && sender in s.rooms[r].members
    requires t == s.(rooms := s.rooms[r := Post(s.rooms[r], sender, text, date)])
    ensures Numbered(t) && Authored(t)
  {
    NumberingGrows(s.rooms[r].history, Post(s.rooms[r], sender, text, date).history);
    hide Numbering;
  }

  lemma NumberingGrows(ms: seq<Message>, more: seq<Message>)
    requires Numbering(ms) && |more| == |ms| + 1 && more[..|ms|] == ms && more[|ms|].id == |more|
    ensures Numbering(more)
  {
    assert forall i :: 0 <= i < |ms| ==> more[i] == more[..|ms|][i];
    assert forall i :: 0 <= i < |ms| ==> IdsOf(more)[i] == IdsOf(ms)[i];
  }

  lemma AskKeepsInv(s: Service, u: int, v: int)
    requires Inv(s) && u in s.users && v in s.users
    ensures Inv(Ask(s, u, v))
  {
    hide Pairs, Indexed, Befriended, Invited, Numbered, Authored, IdsInRange, Distinct, Befriend;
    if u == v || u in At(s.invites, v) {
    } else if v in At(s.invites, u) {
      BefriendKeepsIndex(s, u, v);
      BefriendKeepsFriends(s, u, v);
      BefriendKeepsInvites(s, u, v);
      BefriendKeepsRest(s, u, v);
    } else {
      InviteKeepsInvites(s, u, v);
      SameButInvites(s, s.invites[v := At(s.invites, v) + [u]]);
    }
  }

  lemma SameButInvites(s: Service, invites: map<int, seq<int>>)
    ensures var t := s.(invites := invites);
            && (IdsInRange(s) <==> IdsInRange(t)) && (Pairs(s) <==> Pairs(t)) && (Indexed(s) <==> Indexed(t))
            && (Befriended(s) <==> Befriended(t)) && (Numbered(s) <==> Numbered(t)) && (Authored(s) <==> Authored(t))
  {
  }

  lemma BefriendKeepsRest(s: Service, u: int, v: int)
    requires IdsInRange(s) && Distinct(Names(s.users)) && Numbered(s) && Authored(s)
    requires u in s.users && v in s.users && u != v
    ensures var t := Befriend(s, u, v);
            IdsInRange(t) && Distinct(Names(t.users)) && Numbered(t) && Authored(t)
  {
    assert Names(Befriend(s, u, v).users) == Names(s.users);
  }

  lemma InviteKeepsInvites(s: Service, u: int, v: int)
    requires Invited(s) && u != v && u !in At(s.invites, v) && v !in At(s.invites, u)
    ensures Invited(s.(invites := s.invites[v := At(s.invites, v) + [u]]))
  {
    var t := s.(invites := s.invites[v := At(s.invites, v) + [u]]);
    assert forall x, y :: x in At(t.invites, y) ==> x in At(s.invites, y) || (x == u && y == v);
    assert NoDup(At(t.invites, v));
  }

  lemma BefriendKeepsIndex(s: Service, u: int, v: int)
    requires IdsInRange(s) && Pairs(s) && Indexed(s) && u in s.users && v in s.users && u != v
    ensures Indexed(Befriend(s, u, v)) && Pairs(Befriend(s, u, v))
  {
    var t := Befriend(s, u, v);
    var room := s.lastRoom + 1;
    assert room !in s.rooms;
    forall w | w in t.users
      ensures NoDup(t.users[w].chats)
      ensures forall r :: r in t.users[w].chats <==> r in t.rooms && w in t.rooms[r].members
    {
      assert room !in s.users[w].chats;
      assert t.users[w].chats == s.users[w].chats || t.users[w].chats == s.users[w].chats + [room];
    }
  }

  lemma BefriendKeepsInvites(s: Service, u: int, v: int)
    requires Invited(s) && u in s.users && v in s.users && u != v
    ensures Invited(Befriend(s, u, v))
  {
    WithoutKeepsNoDup(At(s.invites, u), v);
    var t := Befriend(s, u, v);
    assert forall x, y :: x in At(t.invites, y) ==> x in At(s.invites, y);
  }

  lemma BetweenGrows(rooms: map<int, Room>, room: int, u: int, v: int, x: int, y: int)
    requires room !in rooms && u != v
    ensures |Between(rooms[room := Room([u, v], [])], x, y)|
         == |Between(rooms, x, y)| + if (x == u && y == v) || (x == v && y == u) then 1 else 0
  {
    var was := Between(rooms, x, y);
    var now := Between(rooms[room := Room([u, v], [])], x, y);
    assert [u, v][0] == u && [u, v][1] == v && [x, y][0] == x && [y, x][0] == y && [x, y][1] == y && [y, x][1] == x;
    if (x == u && y == v) || (x == v && y == u) {
      assert [u, v] == [x, y] || [u, v] == [y, x];
      assert now == was + {room};
    } else {
      assert [u, v] != [x, y] && [u, v] != [y, x];
      assert now == was;
    }
  }

  lemma BefriendKeepsFriends(s: Service, u: int, v: int)
    requires IdsInRange(s) && Befriended(s) && u in s.users && v in s.users && u != v
    ensures Befriended(Befriend(s, u, v))
  {
    var t := Befriend(s, u, v);
    assert s.lastRoom + 1 !in s.rooms;
    forall x, y | x in t.users && y in t.users
      ensures multiset(t.users[x].friends)[y] == |Between(t.rooms, x, y)|
    {
      BetweenGrows(s.rooms, s.lastRoom + 1, u, v, x, y);
      assert t.users[x].friends == s.users[x].friends + if x == u then [v] else if x == v then [u] else [];
    }
  }

  // ---------------------------------------------------------------- runs

  ghost function Run(s: Service, es: seq<Event>): Service
    decreases |es|
  {
    if es == [] then s else Run(Step(s, es[0]), es[1..])
  }

  lemma {:induction false} RunKeepsInv(s: Service, es: seq<Event>)
    requires Inv(s)
    ensures Inv(Run(s, es))
    decreases |es|
  {
    if es == [] {
    } else {
      StepKeepsInv(s, es[0]);
      RunKeepsInv(Step(s, es[0]), es[1..]);
    }
  }

  /** Without overlapping senders the numbering stays 1, 2, ... */
  lemma {:induction false} RunKeepsOrder(s: Service, es: seq<Event>)
    requires InOrder(s)
    ensures InOrder(Run(s, es))
    decreases |es|
  {
    if es == [] {
    } else {
      StepKeepsOrder(s, es[0]);
      RunKeepsOrder(Step(s, es[0]), es[1..]);
    }
  }

  lemma StepKeepsOrder(s: Service, e: Event)
    requires InOrder(s)
    ensures InOrder(Step(s, e))
  {
  }
}
