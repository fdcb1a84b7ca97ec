/** A message from one client's keyboard to the stores and to the other client's socket. */
module Delivery {
  import opened Base
  import opened Chat
  import opened Store
  import opened Simulation
  import opened ClientPackets
  import Server

  /** The packet a client prints for a text is the server's Send event for it. */
  lemma TypedTextIsSent(session: string, room: int, text: string, date: int)
    requires IsSession(session)
    ensures var packet := MessagePacket(session, room, text);
            && SizeIsNatural(packet)
            && Server.SendEvent(packet, date) == Some(Send(session, room, Clip(text, MESSAGE_MAX_SIZE), date))
  {
    hide ExtractSession, ExtractThirdNumber, ExtractMessage, SizeIsNatural, MessagePacket;
    MessageRoundTrip(session, room, text);
  }

  /** The service's own step for a loaded member of the room. */
  lemma MemberPosts(w: World, session: string, room: int, text: string, date: int)
    requires LoadedUsersOk(w) && Indexed(Abs(w))
    requires session in w.redis.sessions && w.redis.sessions[session] in w.redis.users
    requires room in w.redis.users[w.redis.sessions[session]].chats
    ensures room in Abs(w).rooms
    ensures Chat.Step(Abs(w), Send(session, room, text, date))
         == Abs(w).(rooms := Abs(w).rooms[room := Post(Abs(w).rooms[room], w.redis.sessions[session], text, date)])
  {
    LoadedChats(w, w.redis.sessions[session]);
  }

  /** The text typed by a loaded member of a room, semicolons and all, becomes the next message of
      that room's history, up to 384 characters of it. */
  lemma TypedTextIsStored(w: World, session: string, room: int, text: string, date: int)
    requires Good(w) && IsSession(session)
    requires session in w.redis.sessions && w.redis.sessions[session] in w.redis.users
    requires room in w.redis.users[w.redis.sessions[session]].chats
    ensures room in Abs(w).rooms && SizeIsNatural(MessagePacket(session, room, text))
    ensures Abs(Server.Next(w, Server.SendEvent(MessagePacket(session, room, text), date)))
         == Abs(w).(rooms := Abs(w).rooms[room := Post(Abs(w).rooms[room], w.redis.sessions[session], text, date)])
  {
    assert Indexed(Abs(w)) && LoadedUsersOk(w);
    hide *;
    var kept := Clip(text, MESSAGE_MAX_SIZE);
    TypedTextIsSent(session, room, text, date);
    MemberPosts(w, session, room, kept, date);
    PostClips(Abs(w).rooms[room], w.redis.sessions[session], text, date);
    SendSimulates(w, session, room, kept, date);
    EventIsSend(w, session, room, kept, date);
  }

  lemma PostClips(room: Room, sender: int, text: string, date: int)
    ensures Post(room, sender, Clip(text, MESSAGE_MAX_SIZE), date) == Post(room, sender, text, date)
  {
  }

  lemma EventIsSend(w: World, session: string, room: int, text: string, date: int)
    ensures Server.Next(w, Some(Send(session, room, text, date))) == SendMessage(w, session, room, text, date)
  {
  }

  lemma ForwardToPair(users: map<int, UserKeys>, online: set<int>, a: int, b: int, sender: int, packet: Server.Packet)
    requires a != b && (sender == a || sender == b)
    requires forall u :: u in users ==> u in online && users[u].socket.Some?
    ensures var other := if a == sender then b else a;
            Server.Forwards(users, online, [a, b], sender, packet)
              == if other in users then [Server.Delivery(users[other].socket.value, packet)] else []
  {
    assert [a, b][..1] == [a] && [a][..0] == [];
    assert Server.Forwards(users, online, [], sender, packet) == [];
  }

  lemma RoomIsPair(w: World, r: int)
    requires Good(w) && r in w.redis.rooms
    ensures |w.redis.rooms[r].users| == 2 && w.redis.rooms[r].users[0] != w.redis.rooms[r].users[1]
  {
    assert CachedRoomsOk(w) && Pairs(Abs(w));
    hide Good;
    assert CachedRoom(w, r);
    assert Abs(w).rooms[r].members == w.redis.rooms[r].users;
  }

  lemma LoadedAreReachable(w: World)
    requires Good(w)
    ensures forall u :: u in w.redis.users ==> u in w.redis.online && w.redis.users[u].socket.Some?
  {
    assert LoadedUsersOk(w);
    hide Good;
    assert forall u :: u in w.redis.users ==> LoadedUser(w, u);
  }

  /** A message goes on to the other member's socket exactly when that member is loaded, and to
      nobody else. */
  lemma OnlyThePartnerHears(w: World, r: int, sender: int, packet: Server.Packet)
    requires Good(w) && r in w.redis.rooms && sender in w.redis.rooms[r].users
    ensures var members := w.redis.rooms[r].users;
            && |members| == 2
            && var other := if members[0] == sender then members[1] else members[0];
               && other != sender
               && Server.Forwards(w.redis.users, w.redis.online, members, sender, packet)
                  == if other in w.redis.users && w.redis.users[other].socket.Some?
                     then [Server.Delivery(w.redis.users[other].socket.value, packet)] else []
    ensures forall u :: u in w.redis.users ==> w.redis.users[u].socket.Some?
  {
    hide *;
    var members := w.redis.rooms[r].users;
    LoadedAreReachable(w);
    RoomIsPair(w, r);
    ForwardToPair(w.redis.users, w.redis.online, members[0], members[1], sender, packet);
    assert members == [members[0], members[1]];
  }

  // ---------------------------------------------------------------- what the sender is told

  /** The last message of a room, as a packet. */
  function Latest(room: int, history: seq<Message>): Server.Packet
    requires history != []
  {
    Server.RoomMessage(room, history[|history| - 1])
  }

  /** What the other member of the room is sent. */
  ghost predicate ToPartner(w: World, room: int, sender: int, packet: Server.Packet, out: seq<Server.Delivery>) {
    && room in w.redis.rooms && |w.redis.rooms[room].users| == 2
    && var members := w.redis.rooms[room].users;
       var other := if members[0] == sender then members[1] else members[0];
       out == if other in w.redis.users && w.redis.users[other].socket.Some?
              then [Server.Delivery(w.redis.users[other].socket.value, packet)] else []
  }

  /** A message request either adds one message to one history, and then its sender is sent that very
      message and the partner, if loaded, the same packet; or it changes nothing, and then its sender
      is sent a refusal, with the room's number if the packet has one, and nobody else anything. */
  lemma AnsweredAsStored(w: World, replySocket: int, packet: string, date: int)
    requires Good(w) && SizeIsNatural(packet)
    ensures var t := Server.Next(w, Server.SendEvent(packet, date));
            var out := Server.Replies(w, replySocket, packet, date);
            if t == w then
              out == [Server.Delivery(replySocket, match ExtractThirdNumber(packet)
                                                   case None => Server.Fail
                                                   case Some(room) => Server.NumberedFail(room))]
            else
              exists room, sender :: GainsOne(w, t, room, sender) && out != []
                && out[0] == Server.Delivery(replySocket, Latest(room, Abs(t).rooms[room].history))
                && ToPartner(w, room, sender, out[0].packet, out[1..])
  {
    var e := Server.SendEvent(packet, date);
    var out := Server.Replies(w, replySocket, packet, date);
    if e.None? || !Server.Accepted(w, e.value) {
      RefusedAlone(w, replySocket, packet, date);
    } else {
      var room := e.value.room;
      var sender := w.redis.sessions[e.value.session];
      AcceptedTo(w, replySocket, packet, date, room, sender);
      hide Good, Server.Replies, Server.SendEvent, Server.Accepted, GainsOne, ToPartner;
    }
  }

  /** From w to t one message of this sender was added to this room and nothing else happened. */
  ghost predicate GainsOne(w: World, t: World, room: int, sender: int) {
    && room in Abs(w).rooms && sender in Abs(w).rooms[room].members
    && room in Abs(t).rooms && |Abs(t).rooms[room].history| == |Abs(w).rooms[room].history| + 1
    && Abs(t).rooms[room].history[|Abs(w).rooms[room].history|].sentBy == sender
    && Abs(t) == Abs(w).(rooms := Abs(w).rooms[room := Abs(t).rooms[room]])
    && Abs(w).rooms[room].history <= Abs(t).rooms[room].history
    && Abs(t).rooms[room].members == Abs(w).rooms[room].members
  }

  lemma RefusedAlone(w: World, replySocket: int, packet: string, date: int)
    requires SizeIsNatural(packet)
    requires var e := Server.SendEvent(packet, date);
             e.None? || !Server.Accepted(w, e.value)
    ensures Server.Next(w, Server.SendEvent(packet, date)) == w
    ensures var out := Server.Replies(w, replySocket, packet, date);
            out == [Server.Delivery(replySocket, match ExtractThirdNumber(packet)
                                                 case None => Server.Fail
                                                 case Some(room) => Server.NumberedFail(room))]
  {
    hide ExtractSession, ExtractThirdNumber, ExtractMessage, SizeIsNatural, Posted;
  }

  lemma AcceptedTo(w: World, replySocket: int, packet: string, date: int, room: int, sender: int)
    requires Good(w) && SizeIsNatural(packet) && Server.SendEvent(packet, date).Some?
    requires var e := Server.SendEvent(packet, date).value;
             Server.Accepted(w, e) && room == e.room && sender == w.redis.sessions[e.session]
    ensures var t := Server.Next(w, Server.SendEvent(packet, date));
            var out := Server.Replies(w, replySocket, packet, date);
            && t != w && GainsOne(w, t, room, sender) && out != []
            && out[0] == Server.Delivery(replySocket, Latest(room, Abs(t).rooms[room].history))
            && ToPartner(w, room, sender, out[0].packet, out[1..])
  {
    hide *;
    var e := Server.SendEvent(packet, date).value;
    EventIs(w, packet, date);
    RepliesAre(w, replySocket, packet, date);
    AcceptedMember(w, e);
    MemberGains(w, e.session, room, e.text, date);
    var latest := Latest(room, Abs(SendMessage(w, e.session, room, e.text, date)).rooms[room].history);
    OnlyThePartnerHears(w, room, sender, latest);
    var rest := Server.Forwards(w.redis.users, w.redis.online, w.redis.rooms[room].users, sender, latest);
    assert ([Server.Delivery(replySocket, latest)] + rest)[1..] == rest;
    HeardByPartner(w, room, sender, latest, rest);
  }

  lemma EventIs(w: World, packet: string, date: int)
    requires SizeIsNatural(packet) && Server.SendEvent(packet, date).Some?
    ensures var e := Server.SendEvent(packet, date).value;
            && e.Send? && e.date == date
            && Server.Next(w, Server.SendEvent(packet, date)) == SendMessage(w, e.session, e.room, e.text, date)
  {
    hide ExtractSession, ExtractThirdNumber, ExtractMessage, SizeIsNatural, SendMessage;
  }

  lemma RepliesAre(w: World, replySocket: int, packet: string, date: int)
    requires SizeIsNatural(packet) && Server.SendEvent(packet, date).Some?
    requires Server.Accepted(w, Server.SendEvent(packet, date).value)
    ensures var e := Server.SendEvent(packet, date).value;
            && e.Send? && e.room in w.redis.rooms && e.session in w.redis.sessions
            && var keys := w.redis.rooms[e.room];
               var sender := w.redis.sessions[e.session];
               var passed := Server.RoomMessage(e.room,
                 Message(keys.messageAmount + 1, sender, Clip(e.text, MESSAGE_MAX_SIZE), date));
               Server.Replies(w, replySocket, packet, date)
                 == [Server.Delivery(replySocket, passed)]
                    + Server.Forwards(w.redis.users, w.redis.online, keys.users, sender, passed)
  {
    hide ExtractSession, ExtractThirdNumber, ExtractMessage, SizeIsNatural, Server.Forwards, Server.Accepted;
    assert Server.Accepted(w, Server.SendEvent(packet, date).value);
    AcceptedHas(w, Server.SendEvent(packet, date).value);
  }

  lemma AcceptedHas(w: World, e: Event)
    requires Server.Accepted(w, e)
    ensures e.Send? && e.room in w.redis.rooms && e.session in w.redis.sessions
    ensures w.redis.sessions[e.session] in w.redis.users && e.room in w.redis.users[w.redis.sessions[e.session]].chats
  {
  }

  lemma AcceptedMember(w: World, e: Event)
    requires Good(w) && Server.Accepted(w, e)
    ensures e.Send? && e.room in w.redis.rooms && e.session in w.redis.sessions
    ensures w.redis.sessions[e.session] in w.redis.users && e.room in w.redis.users[w.redis.sessions[e.session]].chats
    ensures w.redis.sessions[e.session] in w.redis.rooms[e.room].users
  {
    AcceptedHas(w, e);
    assert LoadedUsersOk(w) && CachedRoomsOk(w) && Indexed(Abs(w));
    hide Good, Server.Accepted;
    LoadedChats(w, w.redis.sessions[e.session]);
    assert CachedRoom(w, e.room);
  }

  /** A loaded member's message is the next and the last of its room. */
  lemma MemberGains(w: World, session: string, room: int, text: string, date: int)
    requires Good(w) && session in w.redis.sessions && w.redis.sessions[session] in w.redis.users
    requires room in w.redis.users[w.redis.sessions[session]].chats && room in w.redis.rooms
    ensures var t := SendMessage(w, session, room, text, date);
            var sender := w.redis.sessions[session];
            && t != w && GainsOne(w, t, room, sender)
            && room in Abs(t).rooms && Abs(t).rooms[room].history != []
            && Latest(room, Abs(t).rooms[room].history)
                 == Server.RoomMessage(room, Message(w.redis.rooms[room].messageAmount + 1, sender,
                                                     Clip(text, MESSAGE_MAX_SIZE), date))
  {
    var sender := w.redis.sessions[session];
    assert LoadedUsersOk(w) && Indexed(Abs(w)) && CachedRoomsOk(w);
    LoadedChats(w, sender);
    assert CachedRoom(w, room);
    assert |Abs(w).rooms[room].history| == w.redis.rooms[room].messageAmount;
    assert sender in Abs(w).rooms[room].members;
    hide Good, LoadedUsersOk, Indexed, CachedRoomsOk, CachedRoom, Abs, SendMessage, Chat.Step;
    SendSimulates(w, session, room, text, date);
    MemberPosts(w, session, room, text, date);
  }

  lemma HeardByPartner(w: World, room: int, sender: int, packet: Server.Packet, out: seq<Server.Delivery>)
    requires room in w.redis.rooms && |w.redis.rooms[room].users| == 2
    requires var members := w.redis.rooms[room].users;
             var other := if members[0] == sender then members[1] else members[0];
             out == if other in w.redis.users && w.redis.users[other].socket.Some?
                    then [Server.Delivery(w.redis.users[other].socket.value, packet)] else []
    ensures ToPartner(w, room, sender, packet, out)
  {
  }
}
