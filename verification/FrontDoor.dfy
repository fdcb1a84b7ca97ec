/**
  From a client's printer to the service: what each kind of packet asks for, at either port, and what
  its sender is told.
*/
module FrontDoor {
  import opened Base
  import opened Text
  import opened Chat
  import opened Store
  import opened Simulation
  import opened ClientPackets
  import opened Dispatch
  import Server
  import Delivery

  // ---------------------------------------------------------------- the login port

  /** A printed registration registers, a printed login logs in, with the name and the password in
      their places; what the sizes do not allow, the service does not take either. */
  lemma LoginPort(w: World, name: string, password: string, key: string)
    requires Good(w) && Plain(name)
    ensures Abs(Outcome(w, AtLogin(PairPacket("accc", name, password), key)))
         == Chat.Step(Abs(w), CreateAccount(name, password))
    ensures Abs(Outcome(w, AtLogin(PairPacket("logi", name, password), key)))
         == Chat.Step(Abs(w), LogIn(name, password, key))
  {
    hide *;
    RegistrationAsks(w, name, password, key);
    LoginAsks(w, name, password, key);
    if !Acceptable(name, password) { Untaken(Abs(w), name, password, key); }
    AlwaysFresh(w, name, password, key);
    StepSimulates(w, CreateAccount(name, password));
    StepSimulates(w, LogIn(name, password, key));
  }

  lemma RegistrationAsks(w: World, name: string, password: string, key: string)
    requires Plain(name)
    ensures Outcome(w, AtLogin(PairPacket("accc", name, password), key))
         == if Acceptable(name, password) then Store.Step(w, CreateAccount(name, password)) else w
  {
    hide ExtractCredentials, Store.Step;
    CredentialsRoundTrip("accc", name, password);
    assert PairPacket("accc", name, password)[..4] == "accc";
  }

  lemma LoginAsks(w: World, name: string, password: string, key: string)
    requires Plain(name)
    ensures Outcome(w, AtLogin(PairPacket("logi", name, password), key))
         == if Acceptable(name, password) then Store.Step(w, LogIn(name, password, key)) else w
  {
    hide ExtractCredentials, Store.Step;
    CredentialsRoundTrip("logi", name, password);
    var packet := PairPacket("logi", name, password);
    assert packet[..4] == "logi" && packet[0] != "accc"[0];
  }

  lemma Untaken(s: Service, name: string, password: string, key: string)
    requires !Acceptable(name, password)
    ensures Chat.Step(s, CreateAccount(name, password)) == s && Chat.Step(s, LogIn(name, password, key)) == s
  {
  }

  lemma AlwaysFresh(w: World, name: string, password: string, key: string)
    ensures Fresh(w, CreateAccount(name, password)) && Fresh(w, LogIn(name, password, key))
  {
  }

  /** Nothing else is done at the login port. */
  lemma OtherLoginPackets(w: World, packet: string, key: string)
    requires |packet| < 4 || packet[..4] !in ["accc", "logi"]
    ensures Outcome(w, AtLogin(packet, key)) == w
  {
  }

  /** An account, once made, can be logged in to, and by its own password only. */
  lemma AccountOpens(s: Service, name: string, password: string, other: string, key: string)
    requires Inv(s) && Acceptable(name, password) && IdOf(Names(s.users), name).None?
    ensures var t := Chat.Step(s, CreateAccount(name, password));
            && (s.lastUser + 1) in t.users
            && Chat.Step(t, LogIn(name, password, key)).sessions == t.sessions[key := s.lastUser + 1]
            && (other != password ==> Chat.Step(t, LogIn(name, other, key)) == t)
  {
    CreateKeepsInv(s, name, password);
    var t := Chat.Step(s, CreateAccount(name, password));
    assert Names(t.users)[s.lastUser + 1] == name;
    assert Distinct(Names(t.users));
    hide Inv;
  }

  // ---------------------------------------------------------------- the main port

  /** Messages, friend requests, logouts and data requests, as a client prints them. */
  lemma MainPort(w: World, socket: int, session: string, room: int, text: string, friend: string, date: int)
    requires Good(w) && IsSession(session) && |friend| <= NAME_MAX_SIZE
    ensures |MessagePacket(session, room, text)| <= PACKET_MAX_SIZE ==>
      Abs(Outcome(w, AtMain(socket, MessagePacket(session, room, text), date)))
        == Chat.Step(Abs(w), Send(session, room, text, date))
    ensures Abs(Outcome(w, AtMain(socket, PairPacket("fadd", session, friend), date)))
         == Chat.Step(Abs(w), AddFriend(session, friend))
    ensures Abs(Outcome(w, AtMain(socket, SessionPacket("logo", session), date)))
         == Chat.Step(Abs(w), LogOut(session))
    ensures Fresh(w, LoadData(session, socket)) ==>
      Abs(Outcome(w, AtMain(socket, SessionPacket("data", session), date)))
        == Chat.Step(Abs(w), LoadData(session, socket))
  {
    hide *;
    if |MessagePacket(session, room, text)| <= PACKET_MAX_SIZE {
      MessageAsks(w, socket, session, room, text, date);
      NeverALoad(w, Send(session, room, Clip(text, MESSAGE_MAX_SIZE), date));
      StepSimulates(w, Send(session, room, Clip(text, MESSAGE_MAX_SIZE), date));
      ClippedAlike(Abs(w), session, room, text, date);
    }
    FriendAsks(w, socket, session, friend, date);
    NeverALoad(w, AddFriend(session, friend));
    StepSimulates(w, AddFriend(session, friend));
    SessionAsks(w, socket, session, date);
    NeverALoad(w, LogOut(session));
    StepSimulates(w, LogOut(session));
    if Fresh(w, LoadData(session, socket)) {
      StepSimulates(w, LoadData(session, socket));
    }
  }

  lemma NeverALoad(w: World, e: Event)
    requires !e.LoadData?
    ensures Fresh(w, e)
  {
  }

  lemma ClippedAlike(s: Service, session: string, room: int, text: string, date: int)
    ensures Chat.Step(s, Send(session, room, Clip(text, MESSAGE_MAX_SIZE), date))
         == Chat.Step(s, Send(session, room, text, date))
  {
  }

  lemma MessageAsks(w: World, socket: int, session: string, room: int, text: string, date: int)
    requires IsSession(session) && |MessagePacket(session, room, text)| <= PACKET_MAX_SIZE
    ensures Outcome(w, AtMain(socket, MessagePacket(session, room, text), date))
         == Store.Step(w, Send(session, room, Clip(text, MESSAGE_MAX_SIZE), date))
  {
    var packet := MessagePacket(session, room, text);
    assert packet[..4] == "smsg" && |packet| >= PACKET_MIN_SIZE;
    hide MessagePacket, Server.SendEvent, SizeIsNatural, Store.Step;
    Delivery.TypedTextIsSent(session, room, text, date);
  }

  lemma FriendAsks(w: World, socket: int, session: string, friend: string, date: int)
    requires IsSession(session) && |friend| <= NAME_MAX_SIZE
    ensures Outcome(w, AtMain(socket, PairPacket("fadd", session, friend), date))
         == Store.Step(w, AddFriend(session, friend))
  {
    var packet := PairPacket("fadd", session, friend);
    assert packet[..4] == "fadd" && packet[0] != "smsg"[0];
    hide ExtractSession, ExtractFriendName, Store.Step;
    FriendAddRoundTrip(session, friend);
  }

  lemma SessionAsks(w: World, socket: int, session: string, date: int)
    requires IsSession(session)
    ensures Outcome(w, AtMain(socket, SessionPacket("logo", session), date)) == Store.Step(w, LogOut(session))
    ensures Outcome(w, AtMain(socket, SessionPacket("data", session), date)) == Store.Step(w, LoadData(session, socket))
  {
    var leave, load := SessionPacket("logo", session), SessionPacket("data", session);
    assert leave[..4] == "logo" && load[..4] == "data";
    assert leave[0] == 'l' && load[0] == 'd';
    hide ExtractSession, SessionPacket, Store.Step;
    assert Plain("logo") && Plain("data");
    SessionRoundTrip("logo", session);
    SessionRoundTrip("data", session);
  }

  /** Nothing else that arrives at the main port touches the stores. */
  lemma OtherMainPackets(w: World, socket: int, packet: string, date: int)
    requires |packet| < 4 || packet[..4] !in ["smsg", "fadd", "logo", "data"]
    ensures Outcome(w, AtMain(socket, packet, date)) == w
  {
  }

  // ---------------------------------------------------------------- ok or fail

  /** A registration is answered ok exactly when there is one more user afterwards. */
  lemma RegistrationAnswered(w: World, name: string, password: string)
    requires Good(w) && Acceptable(name, password)
    ensures IdNamed(w.mongo, name) <= 0 <==> Abs(CreateUser(w, name, password)).users.Keys != Abs(w).users.Keys
  {
    Basics(w);
    hide Good;
    var t := CreateUser(w, name, password);
    assert Abs(t).users.Keys == t.mongo.users.Keys && Abs(w).users.Keys == w.mongo.users.Keys;
    if IdNamed(w.mongo, name) <= 0 {
      assert w.mongo.userSeq + 1 in t.mongo.users && w.mongo.userSeq + 1 !in w.mongo.users;
    }
  }

  /** A first data request is answered ok exactly when its session's user is loaded afterwards. */
  lemma LoadAnswered(w: World, session: string, socket: int)
    requires Good(w) && Fresh(w, LoadData(session, socket))
    ensures Server.LoadsCleanly(w, session) <==>
      session in w.redis.sessions && w.redis.sessions[session] in Abs(Load(w, session, socket)).loaded
  {
    Basics(w);
    LoadSimulates(w, session, socket);
    if session in w.redis.sessions {
      var id := w.redis.sessions[session];
      DocChats(w, id);
      PresentAll(w.mongo.users[id].chats, w.redis.rooms.Keys + w.mongo.rooms.Keys);
      NamedAlike(w, id);
    }
    hide Good, Load;
  }

  lemma NamedAlike(w: World, id: int)
    requires Good(w) && id in w.mongo.users
    ensures id in Abs(w).users && Abs(w).users[id].name == w.mongo.users[id].name
  {
    NamesAgree(w);
    assert DocNames(w.mongo.users)[id] == w.mongo.users[id].name;
    assert Names(Profiles(w))[id] == Profiles(w)[id].name;
    hide Good;
  }

  /** A logout is answered ok exactly when its session's user was loaded. */
  lemma LogoutAnswered(w: World, session: string)
    requires Good(w)
    ensures Server.LeavesCleanly(w, session) <==>
      session in Abs(w).sessions && Abs(w).sessions[session] in Abs(w).loaded
  {
    assert LoadedUsersOk(w);
    hide Good;
    if session in w.redis.sessions && w.redis.sessions[session] in w.redis.users {
      assert LoadedUser(w, w.redis.sessions[session]);
      PresentAll(w.redis.users[w.redis.sessions[session]].chats, w.redis.rooms.Keys);
    }
    hide IdsNamed;
  }

  /** A friend request is answered ok exactly when a loaded user names another one. */
  lemma RequestAnswered(w: World, session: string, friend: string)
    requires Good(w)
    ensures Server.AskMakesSense(w, AddFriend(session, friend)) <==>
      exists u, v :: u in Abs(w).loaded && v in Abs(w).users && u != v
        && session in Abs(w).sessions && Abs(w).sessions[session] == u && Abs(w).users[v].name == friend
  {
    Basics(w);
    assert forall u :: u in w.redis.users ==> LoadedUser(w, u) by { assert LoadedUsersOk(w); }
    hide Good, Abs;
    var known := IdOf(DocNames(w.mongo.users), friend);
    forall v | v in w.mongo.users ensures v in Abs(w).users && Abs(w).users[v].name == w.mongo.users[v].name {
      NamedAlike(w, v);
    }
    UsersAre(w);
    forall v | v in w.mongo.users && w.mongo.users[v].name == friend ensures known == Some(v) {
      assert DocNames(w.mongo.users)[v] == friend;
    }
    if Server.AskMakesSense(w, AddFriend(session, friend)) {
      var u, v := w.redis.sessions[session], known.value;
      assert u in Abs(w).loaded && v in Abs(w).users && u != v && Abs(w).users[v].name == friend;
    }
  }

  lemma UsersAre(w: World)
    ensures Abs(w).users.Keys == w.mongo.users.Keys && Abs(w).loaded == w.redis.users.Keys
    ensures Abs(w).sessions == w.redis.sessions
  {
  }
}
