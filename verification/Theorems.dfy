/**
  What the simulation gives the users of the chat: their history survives, friendships are mutual,
  logins and logouts change nothing, and the exact case in which a second load does harm.
*/
module Theorems {
  import opened Base
  import opened Chat
  import opened Store
  import opened Simulation

  /** From empty stores, every guarded run is coherent and is a run of the single service. */
  lemma ServerIsOneService(es: seq<Event>)
    requires Guarded(INIT, es)
    ensures Good(Store.Run(INIT, es))
    ensures Abs(Store.Run(INIT, es)) == Chat.Run(EMPTY, es)
  {
    InitGood();
    RunSimulates(INIT, es);
  }

  /** Mongo holds a prefix of the history the service promises, and all of it once nobody in the
      room is loaded (each text as the stores read it back). */
  lemma Durable(w: World, es: seq<Event>, r: int)
    requires Good(w) && Guarded(w, es) && r in Chat.Run(Abs(w), es).rooms
    ensures var t := Store.Run(w, es);
            var promised := CutAll(Chat.Run(Abs(w), es).rooms[r].history);
            && r in t.mongo.rooms
            && t.mongo.rooms[r].messages <= promised
            && (!SomeMemberLoaded(t, r) ==> t.mongo.rooms[r].messages == promised)
  {
    RunSimulates(w, es);
    GoodIsDurable(Store.Run(w, es), r);
  }

  /** Durability in one state: what MongoDB holds of the history users see. */
  lemma GoodIsDurable(t: World, r: int)
    requires Good(t) && r in Abs(t).rooms
    ensures var history := CutAll(Abs(t).rooms[r].history);
            && r in t.mongo.rooms
            && t.mongo.rooms[r].messages <= history
            && (!SomeMemberLoaded(t, r) ==> t.mongo.rooms[r].messages == history)
  {
    if r in t.redis.rooms {
      assert CachedRoom(t, r);
    }
  }

  /** Histories only grow: no event takes back or reorders an accepted message. */
  lemma {:induction false} HistoryGrows(s: Service, es: seq<Event>, r: int)
    requires Inv(s) && r in s.rooms
    ensures r in Chat.Run(s, es).rooms && s.rooms[r].history <= Chat.Run(s, es).rooms[r].history
    ensures s.rooms[r].members == Chat.Run(s, es).rooms[r].members
    decreases |es|
  {
    if es == [] {
    } else {
      var t := Chat.Step(s, es[0]);
      StepKeepsInv(s, es[0]);
      assert IdsInRange(s);
      hide Chat.Step, Inv;
      StepGrowsHistory(s, es[0], r);
      HistoryGrows(t, es[1..], r);
    }
  }

  lemma StepGrowsHistories(s: Service, e: Event)
    requires IdsInRange(s)
    ensures forall r :: r in s.rooms ==>
              r in Chat.Step(s, e).rooms && s.rooms[r].history <= Chat.Step(s, e).rooms[r].history
  {
    hide Chat.Step, IdsInRange;
    forall r | r in s.rooms
      ensures r in Chat.Step(s, e).rooms && s.rooms[r].history <= Chat.Step(s, e).rooms[r].history
    {
      StepGrowsHistory(s, e, r);
    }
  }

  lemma StepGrowsHistory(s: Service, e: Event, r: int)
    requires IdsInRange(s) && r in s.rooms
    ensures var t := Chat.Step(s, e);
            && r in t.rooms && s.rooms[r].history <= t.rooms[r].history
            && s.rooms[r].members == t.rooms[r].members
  {
  }

  /** Taking each list from the store that holds it, friendship is mutual, occurrence by occurrence,
      and counts the rooms the two share. */
  lemma FriendshipIsMutual(w: World, u: int, v: int)
    requires Good(w) && u in w.mongo.users && v in w.mongo.users
    ensures multiset(ProfileOf(w, u).friends)[v] == |Between(Rooms(w), u, v)|
    ensures multiset(ProfileOf(w, v).friends)[u] == |Between(Rooms(w), u, v)|
  {
    assert Befriended(Abs(w));
    assert Between(Rooms(w), u, v) == Between(Rooms(w), v, u);
    assert Abs(w).users[u] == ProfileOf(w, u) && Abs(w).users[v] == ProfileOf(w, v);
  }

  /** A chat is in a user's list, once, exactly when the user is a member of that room. */
  lemma ListsIndexRooms(w: World, u: int, r: int)
    requires Good(w) && u in w.mongo.users
    ensures multiset(ProfileOf(w, u).chats)[r] == if r in w.mongo.rooms && u in w.mongo.rooms[r].users then 1 else 0
  {
    assert Indexed(Abs(w));
    assert Abs(w).users[u] == ProfileOf(w, u);
    assert r in Abs(w).rooms <==> r in w.mongo.rooms;
    OccursOnce(ProfileOf(w, u).chats, r);
    assert r in w.mongo.rooms ==> Abs(w).rooms[r].members == w.mongo.rooms[r].users;
    assert r in Abs(w).users[u].chats <==> r in Abs(w).rooms && u in Abs(w).rooms[r].members;
  }

  /** A logout of a loaded user never stops at a chat missing from Redis, nor at a missing socket. */
  lemma LogoutRunsToTheEnd(w: World, session: string)
    requires Good(w) && session in w.redis.sessions && w.redis.sessions[session] in w.redis.users
    ensures var keys := w.redis.users[w.redis.sessions[session]];
            keys.socket.Some? && Present(keys.chats, w.redis.rooms.Keys) == keys.chats
  {
    assert LoadedUser(w, w.redis.sessions[session]);
    PresentAll(w.redis.users[w.redis.sessions[session]].chats, w.redis.rooms.Keys);
  }

  /** Loading a user and logging them out again leaves MongoDB exactly as it was. */
  lemma LoadThenLeave(w: World, session: string, socket: int)
    requires Good(w) && Fresh(w, LoadData(session, socket))
    ensures Leave(Load(w, session, socket), session).mongo == w.mongo
  {
    Basics(w);
    if session in w.redis.sessions && w.mongo.users[w.redis.sessions[session]].name != "Unknown" {
      var id := w.redis.sessions[session];
      DocChats(w, id);
      LoadReaches(w, id, session, socket);
      LoadSimulates(w, session, socket);
      var l := Loaded(w, id, session, socket);
      LeaveReaches(l, session);
      LoadedThenLeft(w, l, Leave(l, session), id, session, socket);
    }
  }

  lemma LoadedThenLeft(w: World, l: World, t: World, id: int, session: string, socket: int)
    requires Coherent(w) && Distinct(DocNames(w.mongo.users)) && Numbered(Abs(w))
    requires id in w.mongo.users && id !in w.redis.users && l == Loaded(w, id, session, socket) && Left(l, t, id)
    requires forall r :: r in w.mongo.users[id].chats ==> r in w.mongo.rooms && id in w.mongo.rooms[r].users
    ensures t.mongo == w.mongo
  {
    NamesTrip(w.mongo, w.mongo.users[id].friends);
    assert CachedUser(l, id) == w.mongo.users[id];
    forall r | r in w.mongo.rooms ensures t.mongo.rooms[r] == w.mongo.rooms[r] {
      if FlushedBy(l, t.redis, id, r) {
        if r in w.redis.rooms {
          assert CachedRoom(w, r);
          AnyOtherMeaning(l, r, id);
          assert !SomeMemberLoaded(w, r);
        } else {
          HistoryNumbered(w, r);
          ImportedRoom(w.mongo, r);
        }
      }
    }
    assert t.mongo.rooms == w.mongo.rooms;
  }

  /** The session outlives the logout, and a second logout finds nothing to do. */
  lemma LeaveTwice(w: World, session: string)
    ensures Leave(Leave(w, session), session) == Leave(w, session)
  {
  }

  /** Exactly when a data request is safe: for a user already in Redis the lists are appended to
      while the counts are replaced, which is harmless only if both lists are empty. */
  lemma LoadIsSafe(w: World, session: string, socket: int)
    requires Good(w)
    ensures Good(Load(w, session, socket)) <==>
      (session in w.redis.sessions && w.redis.sessions[session] in w.redis.users
       && NameOf(w.mongo, w.redis.sessions[session]) != "Unknown" ==>
         var keys := w.redis.users[w.redis.sessions[session]];
         keys.friends == [] && keys.chats == [])
  {
    Basics(w);
    if Fresh(w, LoadData(session, socket)) {
      StepSimulates(w, LoadData(session, socket));
    } else {
      var id := w.redis.sessions[session];
      assert LoadedUser(w, id);
      if w.mongo.users[id].name != "Unknown" {
        ReloadReaches(w, id, session, socket);
        var t := Load(w, session, socket);
        var keys := w.redis.users[id];
        if keys.friends == [] && keys.chats == [] {
          assert w.mongo.users[id].friends == [] by {
            assert |NamesOf(w.mongo, w.mongo.users[id].friends)| == 0;
          }
          assert w.mongo.users[id].chats == [];
          assert Filled(w.mongo, keys.(socket := Some(socket)), w.mongo.users[id]) == keys.(socket := Some(socket));
          HarmlessReload(w, t, id, socket);
        } else {
          assert !LoadedUser(t, id);
        }
      }
    }
  }

  /** What a second load does to the user's keys. */
  lemma ReloadReaches(w: World, id: int, session: string, socket: int)
    requires Coherent(w) && Distinct(DocNames(w.mongo.users)) && 1 <= id
    requires session in w.redis.sessions && w.redis.sessions[session] == id && id in w.redis.users
    requires id in w.mongo.users && w.mongo.users[id].name != "Unknown"
    ensures var t := Load(w, session, socket);
            && t.mongo == w.mongo && t.redis.rooms == w.redis.rooms
            && t.redis.invites == w.redis.invites && t.redis.sessions == w.redis.sessions
            && w.redis.online <= t.redis.online
            && t.redis.users == w.redis.users[id :=
                 Filled(w.mongo, w.redis.users[id].(socket := Some(socket)), w.mongo.users[id])]
  {
    NameTrip(w.mongo, id);
    assert LoadedUser(w, id);
    var doc := w.mongo.users[id];
    forall r | r in doc.chats ensures r in w.redis.rooms {
      assert r in w.redis.users[id].chats;
    }
    PresentAll(doc.chats, w.redis.rooms.Keys + w.mongo.rooms.Keys);
  }

  /** Only the socket field changes. */
  lemma HarmlessReload(w: World, t: World, id: int, socket: int)
    requires Coherent(w) && id in w.redis.users && t.mongo == w.mongo && t.redis.rooms == w.redis.rooms
    requires t.redis.users == w.redis.users[id := w.redis.users[id].(socket := Some(socket))]
    requires w.redis.online <= t.redis.online
    requires t.redis.invites == w.redis.invites && t.redis.sessions == w.redis.sessions
    ensures Coherent(t) && Abs(t) == Abs(w)
  {
    assert t.redis.users.Keys == w.redis.users.Keys;
    SameRooms(w, t);
    forall u | u in t.redis.users ensures LoadedUser(t, u) { assert LoadedUser(w, u); }
    assert forall u :: u in w.mongo.users ==> ProfileOf(t, u) == ProfileOf(w, u);
  }

  /** Every acceptance consumes exactly one pending invite and adds none. */
  lemma AcceptConsumesOneInvite(s: Service, u: int, v: int)
    requires Inv(s) && u in s.users && v in s.users && u != v && v in At(s.invites, u)
    ensures var t := Ask(s, u, v);
            && |At(t.invites, u)| == |At(s.invites, u)| - 1
            && v !in At(t.invites, u)
            && (forall k :: k != u ==> At(t.invites, k) == At(s.invites, k))
  {
    assert Invited(s);
    WithoutRemovesOne(At(s.invites, u), v);
  }

  /** With nobody loaded, MongoDB alone is the whole service: an empty Redis can be built up from it
      again without losing a profile or a message. */
  lemma MongoAloneSuffices(w: World)
    requires Good(w) && w.redis.users == map[]
    ensures var cold := World(w.mongo, COLD);
            && Coherent(cold) && Profiles(cold) == Profiles(w)
            && (forall r :: r in w.mongo.rooms ==>
                 && RoomOf(cold, r).members == RoomOf(w, r).members
                 && RoomOf(cold, r).history == CutAll(RoomOf(w, r).history))
  {
    var cold := World(w.mongo, COLD);
    forall r | r in w.mongo.rooms ensures RoomOf(cold, r).history == CutAll(RoomOf(w, r).history) {
      if r in w.redis.rooms {
        assert CachedRoom(w, r) && !SomeMemberLoaded(w, r);
      }
    }
    assert forall u :: u in w.mongo.users ==> ProfileOf(cold, u) == ProfileOf(w, u);
  }
}
