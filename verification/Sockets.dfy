/** Whom a closed connection logs out. */
module Sockets {
  import opened Base
  import opened Chat
  import opened Store
  import opened Simulation
  import opened Dispatch

  /** u is loaded over socket k. */
  ghost predicate Over(w: World, u: int, k: int) {
    u in w.redis.users && w.redis.users[u].socket == Some(k)
  }

  /** The entry of socket k names a session of u's. */
  predicate Leads(w: World, k: int, u: int) {
    && k in w.redis.sockets && |w.redis.sockets[k].session| == SESSION_KEY_SIZE
    && w.redis.sockets[k].session in w.redis.sessions && w.redis.sessions[w.redis.sockets[k].session] == u
  }

  /** A logout takes its own user out of Redis and nobody else. */
  lemma LeaveRemoves(w: World, session: string)
    requires Good(w)
    ensures Leave(w, session).redis.users
         == if session in w.redis.sessions then w.redis.users - {w.redis.sessions[session]} else w.redis.users
  {
    assert LoadedUsersOk(w);
    hide Good;
    if session in w.redis.sessions && w.redis.sessions[session] in w.redis.users {
      assert LoadedUser(w, w.redis.sessions[session]);
    } else {
      assert session in w.redis.sessions ==> w.redis.users - {w.redis.sessions[session]} == w.redis.users;
    }
    hide Flush, IdsNamed;
  }

  /** Closing a socket logs out everybody loaded over it exactly when its entry leads to each of them;
      so with two users on one socket, the one whose entry was overwritten stays. */
  lemma ClosingExactly(w: World, k: int)
    requires Good(w)
    ensures (forall u :: !Over(Outcome(w, Closed(k)), u, k)) <==> (forall u :: Over(w, u, k) ==> Leads(w, k, u))
    ensures forall u :: u in w.redis.users && !Leads(w, k, u) ==>
              u in Outcome(w, Closed(k)).redis.users
  {
    var t := Outcome(w, Closed(k));
    ClosedUsers(w, k);
    hide Good, Outcome, Leads;
    forall u ensures Over(t, u, k) <==> Over(w, u, k) && !Leads(w, k, u) { }
  }

  lemma ClosedUsers(w: World, k: int)
    requires Good(w)
    ensures var t := Outcome(w, Closed(k));
            && (forall u :: u in t.redis.users <==> u in w.redis.users && !Leads(w, k, u))
            && (forall u :: u in t.redis.users ==> t.redis.users[u] == w.redis.users[u])
  {
    hide Good, Leave;
    if k in w.redis.sockets && |w.redis.sockets[k].session| == SESSION_KEY_SIZE {
      LeaveRemoves(w, w.redis.sockets[k].session);
      assert Outcome(w, Closed(k)) == Leave(w, w.redis.sockets[k].session);
      hide Outcome;
    }
  }

  // ---------------------------------------------------------------- when it is so

  /** Every loaded user's socket leads back to the user: one user a socket, and no key taken over. */
  ghost predicate OwnSockets(w: World) {
    && (forall u, k :: Over(w, u, k) ==> Leads(w, k, u))
    && EntriesUsed(w)
  }

  /** Every socket entry names a user loaded over that socket. */
  ghost predicate EntriesUsed(w: World) {
    forall k :: k in w.redis.sockets ==> Over(w, w.redis.sockets[k].id, k)
  }

  /** A load over a socket nobody else is loaded over, a login that takes over no key. */
  ghost predicate Tidy(w: World, e: Event) {
    match e
    case LoadData(session, socket) =>
      |session| == SESSION_KEY_SIZE
      && forall u :: Over(w, u, socket) ==> session in w.redis.sessions && w.redis.sessions[session] == u
    case LogIn(name, password, session) =>
      session in w.redis.sessions ==>
        Authenticate(w, name, password, session).redis.sessions[session] == w.redis.sessions[session]
    case _ => true
  }

  lemma LoadKeepsSockets(w: World, session: string, socket: int)
    requires Good(w) && Fresh(w, LoadData(session, socket)) && OwnSockets(w) && Tidy(w, LoadData(session, socket))
    ensures OwnSockets(Load(w, session, socket))
  {
    Basics(w);
    if session in w.redis.sessions && w.mongo.users[w.redis.sessions[session]].name != "Unknown" {
      var id := w.redis.sessions[session];
      DocChats(w, id);
      LoadReaches(w, id, session, socket);
      hide Good, Load;
      LoadedKeepsSockets(w, id, session, socket);
    }
  }

  lemma LoadedKeepsSockets(w: World, id: int, session: string, socket: int)
    requires OwnSockets(w) && id in w.mongo.users && session in w.redis.sessions && w.redis.sessions[session] == id
    requires id !in w.redis.users
    requires |session| == SESSION_KEY_SIZE && forall u :: Over(w, u, socket) ==> u == id
    ensures OwnSockets(Loaded(w, id, session, socket))
  {
    var t := Loaded(w, id, session, socket);
    hide NamesOf, Import;
    forall u, k | Over(t, u, k) ensures Leads(t, k, u) {
      if u != id {
        assert Over(w, u, k);
      }
    }
    forall k | k in t.redis.sockets ensures Over(t, t.redis.sockets[k].id, k) {
      if k != socket {
        assert Over(w, w.redis.sockets[k].id, k);
      }
    }
  }

  lemma LeaveKeepsSockets(w: World, session: string)
    requires Good(w) && OwnSockets(w)
    ensures OwnSockets(Leave(w, session))
  {
    LeaveRemoves(w, session);
    assert LoadedUsersOk(w);
    hide Good;
    if session in w.redis.sessions && w.redis.sessions[session] in w.redis.users {
      var id := w.redis.sessions[session];
      assert LoadedUser(w, id);
      assert Leave(w, session).redis == Forget(w.redis, id);
      assert w.redis.users[id].socket.Some?;
      hide Leave, LoadedUser, LoadedUsersOk;
      ForgetKeepsSockets(w, Leave(w, session), id);
    }
  }

  lemma ForgetKeepsSockets(w: World, t: World, id: int)
    requires OwnSockets(w) && id in w.redis.users && w.redis.users[id].socket.Some? && t.redis == Forget(w.redis, id)
    ensures OwnSockets(t)
  {
    assert Over(w, id, w.redis.users[id].socket.value);
    forall u, k | Over(t, u, k) ensures Leads(t, k, u) {
      assert u != id && Over(w, u, k);
      assert k != w.redis.users[id].socket.value;
    }
    forall k | k in t.redis.sockets ensures Over(t, t.redis.sockets[k].id, k) {
      assert Over(w, w.redis.sockets[k].id, k);
    }
  }

  /** No socket moves and no session changes hands. */
  ghost predicate SocketsStay(w: World, t: World) {
    && t.redis.sockets == w.redis.sockets
    && (forall key :: key in w.redis.sessions ==>
          key in t.redis.sessions && t.redis.sessions[key] == w.redis.sessions[key])
    && t.redis.users.Keys == w.redis.users.Keys
    && (forall u :: u in t.redis.users ==> t.redis.users[u].socket == w.redis.users[u].socket)
  }

  lemma StayingKeeps(w: World, t: World)
    requires OwnSockets(w) && SocketsStay(w, t)
    ensures OwnSockets(t)
  {
    forall u, k | Over(t, u, k) ensures Leads(t, k, u) {
      assert Over(w, u, k);
    }
    forall k | k in t.redis.sockets ensures Over(t, t.redis.sockets[k].id, k) {
      assert Over(w, w.redis.sockets[k].id, k);
    }
  }

  lemma AskStays(w: World, session: string, friend: string)
    requires Good(w)
    ensures SocketsStay(w, AskFriend(w, session, friend))
  {
    hide Good, Without, Written, IdsNamed, NameOf;
  }

  lemma OthersKeepSockets(w: World, e: Event)
    requires Good(w) && OwnSockets(w) && Tidy(w, e) && !e.LoadData? && !e.LogOut?
    ensures OwnSockets(Store.Step(w, e))
  {
    hide Good, OwnSockets, Over;
    match e {
      case CreateAccount(name, password) => hide IdNamed;
      case LogIn(name, password, session) => hide IdNamed;
      case Send(session, room, text, date) => hide ReadUser, Posted;
      case AddFriend(session, friend) =>
        hide AskFriend;
        AskStays(w, session, friend);
    }
    StayingKeeps(w, Store.Step(w, e));
  }

  /** Closing a connection whose user has left changes nothing, wherever the user is now. */
  lemma UnusedCloses(w: World, k: int)
    requires OwnSockets(w) && forall u :: !Over(w, u, k)
    ensures Outcome(w, Closed(k)) == w
  {
    assert EntriesUsed(w);
  }

  /** What a logout takes away: the user, the user's place online and the entry of the user's socket,
      and nothing of anybody else's. */
  lemma LeavesNothingBehind(w: World, session: string)
    requires Good(w) && session in w.redis.sessions && w.redis.sessions[session] in w.redis.users
    ensures var u := w.redis.sessions[session];
            var t := Leave(w, session);
            && w.redis.users[u].socket.Some? && u in w.redis.online
            && var k := w.redis.users[u].socket.value;
               && u !in t.redis.users && u !in t.redis.online && k !in t.redis.sockets
               && (forall x :: x != u ==> (x in t.redis.online <==> x in w.redis.online))
               && (forall j :: j != k ==> (j in t.redis.sockets <==> j in w.redis.sockets))
               && (forall j :: j in t.redis.sockets ==> t.redis.sockets[j] == w.redis.sockets[j])
               && (forall x :: x != u ==> (x in t.redis.users <==> x in w.redis.users))
               && (forall x :: x in t.redis.users ==> t.redis.users[x] == w.redis.users[x])
    ensures var t := Leave(w, session);
            && t.redis.sessions == w.redis.sessions && t.redis.invites == w.redis.invites
            && t.redis.rooms == w.redis.rooms
  {
    assert LoadedUsersOk(w);
    hide Good;
    assert LoadedUser(w, w.redis.sessions[session]);
    LeaveForgets(w, session);
    hide Leave, LoadedUser, LoadedUsersOk;
  }

  lemma LeaveForgets(w: World, session: string)
    requires session in w.redis.sessions && w.redis.sessions[session] in w.redis.users
    requires w.redis.users[w.redis.sessions[session]].info.Some?
    ensures Leave(w, session).redis == Forget(w.redis, w.redis.sessions[session])
  {
    hide Flush, IdsNamed, Forget, Present;
  }

  /** The empty stores have no sockets. */
  lemma NoSocketsYet()
    ensures OwnSockets(INIT)
  {
  }

  /** While loads and logins are tidy, every closed socket logs out everybody loaded over it, and one
      nobody is loaded over any more changes nothing. */
  lemma TidyRunsClose(w: World, es: seq<Event>, k: int)
    requires Good(w) && OwnSockets(w) && Guarded(w, es) && AllTidy(w, es)
    ensures OwnSockets(Store.Run(w, es))
    ensures forall u :: !Over(Outcome(Store.Run(w, es), Closed(k)), u, k)
    ensures (forall u :: !Over(Store.Run(w, es), u, k)) ==>
      Outcome(Store.Run(w, es), Closed(k)) == Store.Run(w, es)
  {
    hide *;
    TidyRun(w, es);
    var t := Store.Run(w, es);
    OwnLeads(t);
    ClosingExactly(t, k);
    if forall u :: !Over(t, u, k) {
      UnusedCloses(t, k);
    }
  }

  lemma OwnLeads(w: World)
    requires OwnSockets(w)
    ensures forall u, k :: Over(w, u, k) ==> Leads(w, k, u)
  {
  }

  lemma {:induction false} TidyRun(w: World, es: seq<Event>)
    requires Good(w) && OwnSockets(w) && Guarded(w, es) && AllTidy(w, es)
    ensures Good(Store.Run(w, es)) && OwnSockets(Store.Run(w, es))
    decreases |es|
  {
    hide Good, OwnSockets, Store.Step, Fits, Tidy, Fresh;
    if es == [] {
    } else {
      StepSimulates(w, es[0]);
      TidyStep(w, es[0]);
      TidyRun(Store.Step(w, es[0]), es[1..]);
    }
  }

  lemma TidyStep(w: World, e: Event)
    requires Good(w) && OwnSockets(w) && Fresh(w, e) && Tidy(w, e)
    ensures OwnSockets(Store.Step(w, e))
  {
    hide Good, Tidy, OwnSockets, Fresh, Load, Leave;
    match e {
      case LoadData(session, socket) => LoadKeepsSockets(w, session, socket);
      case LogOut(session) => LeaveKeepsSockets(w, session);
      case _ =>
        hide Store.Step;
        OthersKeepSockets(w, e);
    }
  }

  ghost predicate AllTidy(w: World, es: seq<Event>)
    decreases |es|
  {
    es != [] ==> Tidy(w, es[0]) && AllTidy(Store.Step(w, es[0]), es[1..])
  }
}
