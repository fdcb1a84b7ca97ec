/**
  One concrete run from empty stores: two accounts, two logins, two loads and a friendship.  From where
  it ends, the inputs on which the server does less than it promises are within reach.
*/
module Scenario {
  import opened Base
  import opened Chat
  import opened Store
  import opened Simulation
  import opened Theorems
  import ClientPackets
  import Server
  import Provenance
  import Logouts

  const ANNS_KEY := "aaaaaaaaaaaaaaaa"
  const BOBS_KEY := "bbbbbbbbbbbbbbbb"
  const ANN := UserDoc(2, "ann", "apple", [], 0, [], 0)
  const BOB := UserDoc(3, "bob", "berry", [], 0, [], 0)
  const DOCS := Mongo(map[2 := ANN, 3 := BOB], map[], 3, 1)

  /** A loaded newcomer. */
  function Keys(doc: UserDoc, socket: int): UserKeys {
    UserKeys(Some(Info(doc.name, doc.password, 0, 0)), Some(socket), [], [])
  }

  /** Both logged in, some of them loaded, with these invites. */
  function Logged(users: map<int, UserKeys>, invites: map<int, seq<int>>, sockets: map<int, SocketHash>): World {
    World(DOCS, Redis(users, invites, {2, 3}, sockets, map[ANNS_KEY := 2, BOBS_KEY := 3], map[]))
  }

  const SOCKETS := map[7 := SocketHash(2, ANNS_KEY), 8 := SocketHash(3, BOBS_KEY)]
  const BOTH := map[2 := Keys(ANN, 7), 3 := Keys(BOB, 8)]
  const INVITED := Logged(BOTH, map[3 := [2]], SOCKETS)

  /** es leads from w to t, every event within the guards. */
  ghost predicate Reaches(w: World, es: seq<Event>, t: World) {
    Guarded(w, es) && Store.Run(w, es) == t
  }

  lemma ReachesOn(w: World, e: Event, m: World, es: seq<Event>, t: World)
    requires Fits(w, e) && Fresh(w, e) && Store.Step(w, e) == m && Reaches(m, es, t)
    ensures Reaches(w, [e] + es, t)
  {
    assert ([e] + es)[1..] == es;
  }

  /** Who is called what. */
  lemma Called(m: Mongo, id: int, name: string)
    requires Distinct(DocNames(m.users)) && id in m.users && m.users[id].name == name
    ensures IdOf(DocNames(m.users), name) == Some(id) && IdNamed(m, name) == id
  {
    NameTrip(m, id);
  }

  lemma Names23()
    ensures Distinct(DocNames(DOCS.users))
    ensures IdOf(DocNames(DOCS.users), "ann") == Some(2) && IdOf(DocNames(DOCS.users), "bob") == Some(3)
  {
    Called(DOCS, 2, "ann");
    Called(DOCS, 3, "bob");
  }

  lemma Registered(es: seq<Event>, t: World)
    requires Reaches(World(DOCS, COLD), es, t)
    ensures Reaches(INIT, [CreateAccount("ann", "apple"), CreateAccount("bob", "berry")] + es, t)
  {
    var one := World(Mongo(map[2 := ANN], map[], 2, 1), COLD);
    assert IdOf(DocNames(one.mongo.users), "bob") == None;
    assert IdOf(DocNames(INIT.mongo.users), "ann") == None;
    assert map[2 := ANN][3 := BOB] == DOCS.users && map[][2 := ANN] == one.mongo.users;
    var second := [CreateAccount("bob", "berry")];
    hide Reaches;
    ReachesOn(one, CreateAccount("bob", "berry"), World(DOCS, COLD), es, t);
    ReachesOn(INIT, CreateAccount("ann", "apple"), one, second + es, t);
    assert [CreateAccount("ann", "apple")] + (second + es)
        == [CreateAccount("ann", "apple"), CreateAccount("bob", "berry")] + es;
  }

  lemma LoggedIn(es: seq<Event>, t: World)
    requires Reaches(Logged(map[], map[], map[]), es, t)
    ensures Reaches(World(DOCS, COLD), [LogIn("ann", "apple", ANNS_KEY), LogIn("bob", "berry", BOBS_KEY)] + es, t)
  {
    Names23();
    var one := World(DOCS, COLD.(online := {2}, sessions := map[ANNS_KEY := 2]));
    assert ANNS_KEY[0] != BOBS_KEY[0];
    var second := [LogIn("bob", "berry", BOBS_KEY)];
    hide Reaches, IdOf, DocNames;
    ReachesOn(one, LogIn("bob", "berry", BOBS_KEY), Logged(map[], map[], map[]), es, t);
    ReachesOn(World(DOCS, COLD), LogIn("ann", "apple", ANNS_KEY), one, second + es, t);
    assert [LogIn("ann", "apple", ANNS_KEY)] + (second + es)
        == [LogIn("ann", "apple", ANNS_KEY), LogIn("bob", "berry", BOBS_KEY)] + es;
  }

  /** The first load of a newcomer brings no rooms. */
  lemma NewcomerLoads(w: World, id: int, session: string, socket: int)
    requires w.mongo == DOCS && (id == 2 || id == 3) && id !in w.redis.users && w.redis.rooms == map[]
    requires session in w.redis.sessions && w.redis.sessions[session] == id
    ensures Load(w, session, socket) == w.(redis := w.redis.(
      users := w.redis.users[id := Keys(w.mongo.users[id], socket)],
      online := w.redis.online + {id}, sockets := w.redis.sockets[socket := SocketHash(id, session)]))
  {
    Names23();
    LoadReaches(w, id, session, socket);
    assert NamesOf(w.mongo, []) == [];
    assert Import(w, []) == map[];
  }

  lemma BothLoaded(es: seq<Event>, t: World)
    requires Reaches(Logged(BOTH, map[], SOCKETS), es, t)
    ensures Reaches(Logged(map[], map[], map[]), [LoadData(ANNS_KEY, 7), LoadData(BOBS_KEY, 8)] + es, t)
  {
    var none := Logged(map[], map[], map[]);
    var one := Logged(map[2 := Keys(ANN, 7)], map[], map[7 := SocketHash(2, ANNS_KEY)]);
    assert ANNS_KEY[0] != BOBS_KEY[0];
    NewcomerLoads(none, 2, ANNS_KEY, 7);
    NewcomerLoads(one, 3, BOBS_KEY, 8);
    assert none.redis.online + {2} == {2, 3} && one.redis.online + {3} == {2, 3};
    var second := [LoadData(BOBS_KEY, 8)];
    hide Reaches, Load;
    ReachesOn(one, LoadData(BOBS_KEY, 8), Logged(BOTH, map[], SOCKETS), es, t);
    ReachesOn(none, LoadData(ANNS_KEY, 7), one, second + es, t);
    assert [LoadData(ANNS_KEY, 7)] + (second + es) == [LoadData(ANNS_KEY, 7), LoadData(BOBS_KEY, 8)] + es;
  }

  /** Ann asks bob, bob answers by asking ann. */
  function Friends(): World {
    Accept(INVITED, 3, 2)
  }

  lemma Befriended(es: seq<Event>, t: World)
    requires Reaches(Friends(), es, t)
    ensures Reaches(Logged(BOTH, map[], SOCKETS), [AddFriend(ANNS_KEY, "bob"), AddFriend(BOBS_KEY, "ann")] + es, t)
  {
    Names23();
    assert ANNS_KEY[0] != BOBS_KEY[0];
    var both := Logged(BOTH, map[], SOCKETS);
    assert AskFriend(both, ANNS_KEY, "bob") == INVITED by {
      assert ReadUser(both, ANNS_KEY).Some? && ReadUser(both, ANNS_KEY).value.id == 2;
      assert [] + [2] == [2] && map[][3 := [2]] == map[3 := [2]];
    }
    assert AskFriend(INVITED, BOBS_KEY, "ann") == Friends() by {
      assert ReadUser(INVITED, BOBS_KEY).Some? && ReadUser(INVITED, BOBS_KEY).value.id == 3;
    }
    var second := [AddFriend(BOBS_KEY, "ann")];
    hide Reaches, AskFriend, Accept;
    ReachesOn(INVITED, AddFriend(BOBS_KEY, "ann"), Friends(), es, t);
    ReachesOn(both, AddFriend(ANNS_KEY, "bob"), INVITED, second + es, t);
    assert [AddFriend(ANNS_KEY, "bob")] + (second + es)
        == [AddFriend(ANNS_KEY, "bob"), AddFriend(BOBS_KEY, "ann")] + es;
  }

  const RUN := [CreateAccount("ann", "apple"), CreateAccount("bob", "berry"),
                LogIn("ann", "apple", ANNS_KEY), LogIn("bob", "berry", BOBS_KEY),
                LoadData(ANNS_KEY, 7), LoadData(BOBS_KEY, 8),
                AddFriend(ANNS_KEY, "bob"), AddFriend(BOBS_KEY, "ann")]

  lemma RunReachesFriends()
    ensures Reaches(INIT, RUN, Friends()) && Good(Friends())
  {
    var asked := [AddFriend(ANNS_KEY, "bob"), AddFriend(BOBS_KEY, "ann")] + [];
    var loaded := [LoadData(ANNS_KEY, 7), LoadData(BOBS_KEY, 8)] + asked;
    var logged := [LogIn("ann", "apple", ANNS_KEY), LogIn("bob", "berry", BOBS_KEY)] + loaded;
    assert Reaches(Friends(), [], Friends());
    assert [CreateAccount("ann", "apple"), CreateAccount("bob", "berry")] + logged == RUN;
    hide *;
    Befriended([], Friends());
    BothLoaded(asked, Friends());
    LoggedIn(loaded, Friends());
    Registered(logged, Friends());
    ReachedIsGood(RUN, Friends());
  }

  lemma ReachedIsGood(es: seq<Event>, t: World)
    requires Reaches(INIT, es, t)
    ensures Good(t)
  {
    hide Good, Abs, Guarded, Store.Run;
    ServerIsOneService(es);
  }

  /** Both are loaded and share room 2. */
  lemma FriendsShare()
    ensures var w := Friends();
            && ANNS_KEY in w.redis.sessions && w.redis.sessions[ANNS_KEY] == 2 && w.mongo.users == DOCS.users
            && w.redis.users.Keys == {2, 3}
            && w.redis.users[2].friends == ["bob"] && w.redis.users[2].chats == [2] && w.redis.users[3].chats == [2]
            && 2 in w.redis.rooms && 2 in w.mongo.rooms && w.mongo.rooms[2].users == [3, 2]
  {
    assert ANNS_KEY[0] != BOBS_KEY[0];
  }

  // ---------------------------------------------------------------- what goes wrong from here

  /** After this run, one more data request for ann's session leaves the stores incoherent. */
  lemma SecondLoadBreaks()
    ensures Reaches(INIT, RUN, Friends()) && Good(Friends())
    ensures Fits(Friends(), LoadData(ANNS_KEY, 9)) && !Good(Store.Step(Friends(), LoadData(ANNS_KEY, 9)))
  {
    FriendsShare();
    var w := Friends();
    assert Store.Step(w, LoadData(ANNS_KEY, 9)) == Load(w, ANNS_KEY, 9);
    assert NameOf(w.mongo, 2) == "ann" && Fits(w, LoadData(ANNS_KEY, 9));
    assert w.redis.users[2].friends != [];
    hide *;
    RunReachesFriends();
    LoadIsSafe(w, ANNS_KEY, 9);
  }

  /** Bob logs in once more and draws ann's key: he is refused, the key is his all the same, and what
      ann's client then sends is stored as bob's. */
  lemma TakenKey(text: string, date: int)
    ensures Reaches(INIT, RUN, Friends()) && Good(Friends())
    ensures ANNS_KEY in Friends().redis.sessions && Friends().redis.sessions[ANNS_KEY] == 2 && 2 in Abs(Friends()).rooms
    ensures var w := Friends();
            var packet := ClientPackets.PairPacket("logi", "bob", "berry");
            var t := Server.AfterLogin(w, packet, ANNS_KEY);
            && !Server.LoginOk(w, packet, ANNS_KEY) && t != w
            && ANNS_KEY in t.redis.sessions && t.redis.sessions[ANNS_KEY] == 3
            && Abs(SendMessage(t, ANNS_KEY, 2, text, date)).rooms
                 == Abs(w).rooms[2 := Post(Abs(w).rooms[2], 3, text, date)]
  {
    FriendsShare();
    BobIsRight();
    var w := Friends();
    var packet := ClientPackets.PairPacket("logi", "bob", "berry");
    assert w.redis.sessions != w.redis.sessions[ANNS_KEY := 3];
    hide *;
    RunReachesFriends();
    Provenance.TakesOver(w, packet, ANNS_KEY);
    Provenance.TakenKeySpeaksForOther(w, packet, ANNS_KEY, 2, text, date);
  }

  lemma BobIsRight()
    ensures ClientPackets.ExtractCredentials(ClientPackets.PairPacket("logi", "bob", "berry")) == Some(("bob", "berry"))
    ensures IdNamed(Friends().mongo, "bob") == 3 && Server.RightPassword(Friends().mongo, "bob", "berry")
  {
    ClientPackets.CredentialsRoundTrip("logi", "bob", "berry");
    FriendsShare();
    Names23();
  }

  /** From this run on: ann logs out and her logout has read room 2 when bob writes. */
  lemma MessageLost(text: string, date: int) returns (before: seq<Logouts.Act>, acts: seq<Logouts.Act>)
    ensures Reaches(INIT, RUN, Friends())
    ensures var s := Logouts.Begun(Friends());
            && Logouts.Possible(s, before) && Logouts.AllOrderly(s, before) && Logouts.Safe(Logouts.DoAll(s, before))
            && Logouts.Loses(Logouts.DoAll(s, before), Logouts.Receive(3, 2, text, date), acts)
  {
    var s := Logouts.Begun(Friends());
    BothMayWrite();
    hide Logouts.Begun, Friends, Reaches;
    hide Logouts.Safe, Logouts.Possible, Logouts.AllOrderly, Logouts.DoAll, Logouts.Loses;
    RunReachesFriends();
    Logouts.GoodIsSafe(Friends());
    before := AnnHolds(s);
    Logouts.SafeThroughout(s, before);
    acts := Logouts.HeldMeansLost(Logouts.DoAll(s, before), Logouts.Receive(3, 2, text, date));
  }

  lemma BothMayWrite()
    ensures var s := Logouts.Begun(Friends());
            && s.loaded == {2, 3} && s.procs == map[] && 2 in s.rooms && 2 in s.saved && s.saved[2].users == [3, 2]
            && 2 in s.chats && 3 in s.chats && s.chats[2] == [2] && s.chats[3] == [2]
  {
    FriendsShare();
    var w := Friends();
    assert w.redis.users[2].info.Some? && w.redis.users[3].info.Some?;
  }

  lemma AnnHolds(s: Logouts.State) returns (acts: seq<Logouts.Act>)
    requires s.loaded == {2, 3} && s.procs == map[] && 2 in s.rooms && 2 in s.chats && 3 in s.chats && s.chats[2] == [2]
    ensures Logouts.Possible(s, acts) && Logouts.AllOrderly(s, acts)
    ensures var t := Logouts.DoAll(s, acts);
            t.loaded == {3} && t.saved == s.saved && t.rooms == s.rooms && t.chats == s.chats && Logouts.Held(t, 2)
  {
    var copy := Snapshot(2, s.rooms[2]);
    var s1 := s.(procs := map[2 := Logouts.Leaving([2])]);
    var s2 := s.(loaded := {3}, procs := map[2 := Logouts.AtRoom([2])]);
    var s3 := s.(loaded := {3}, procs := map[2 := Logouts.Checking([2], copy, 0)]);
    hide Snapshot;
    Logouts.LeadsNowhere(s3);
    assert s2.procs[2 := Logouts.Checking([2], copy, 0)] == s3.procs && s1.procs[2 := Logouts.AtRoom([2])] == s2.procs;
    assert s.loaded - {2} == {3};
    Logouts.LeadsOn(s2, Logouts.ReadRoom(2), s3, [], s3);
    Logouts.LeadsOn(s1, Logouts.Offline(2), s2, [Logouts.ReadRoom(2)] + [], s3);
    Logouts.LeadsOn(s, Logouts.Begin(2), s1, [Logouts.Offline(2)] + ([Logouts.ReadRoom(2)] + []), s3);
    acts := [Logouts.Begin(2)] + ([Logouts.Offline(2)] + ([Logouts.ReadRoom(2)] + []));
    Logouts.CommandsAreOrderly(s, acts);
    assert Logouts.Holding(s3, 2, 2);
  }
}
