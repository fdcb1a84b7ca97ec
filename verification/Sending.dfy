/** The client's other packets: the verdict on a message it has sent, and the verdicts of a transfer. */
module Sending {
  import opened Base
  import opened Text
  import opened Codec
  import opened ClientPackets
  import opened Rooms
  import opened Recognize
  import History
  import LoginRun
  import Requests
  import Transfer
  import Client

  // ---------------------------------------------------------------- a message sent and read back

  /** From being told to the callback, nothing coming in between: the verdict reported on this request. */
  ghost predicate Reports(before: Requests.State, told: Requests.State, kind: Requests.Kind, id: nat,
                          verdict: Requests.Verdict) {
    && Requests.Enabled(told, Requests.Wake(id))
    && var woken := Requests.Do(told, Requests.Wake(id));
       && Requests.Enabled(woken, Requests.Dispatch(id))
       && var done := Requests.Do(woken, Requests.Dispatch(id));
          && kind !in done.slots && |done.reports| == |before.reports| + 1
          && done.reports[|before.reports|].id == id && done.reports[|before.reports|].kind == kind
          && done.reports[|before.reports|].verdict == verdict
  }

  /** What a printed message adds, read after the login, to a client that knows the room. */
  lemma EchoRead(rooms: seq<RoomData>, room: int, m: Printed)
    requires Sound(rooms) && room >= 1 && FirstAt(rooms, room) >= 0 && Plain(m.sender)
    ensures Extracted(rooms, Codec.LivePacket(room, m), false) == if m.text == "" then None else Some([Kept(m)])
  {
    hide Decode, MessagePart, RoomPrefix, After, Atoi;
    LoginRun.PayloadOf(room, MessagePart(m));
    DecodePart(m, "");
    assert MessagePart(m) + "" == MessagePart(m);
  }

  /** With the login over and a sent message waiting for its echo: the echo is stored behind what the
      room held, and the request reports a success. */
  lemma EchoSucceeds(c: Recognize.State, id: nat, room: int, m: Printed)
    requires Sound(c.rooms) && room >= 1 && FirstAt(c.rooms, room) >= 0
    requires Requests.Waiting(c.requests, Requests.SendMessage, id) && Requests.Login !in c.requests.slots
    requires Plain(m.sender) && |m.sender| < NAME_MAX_SIZE && 1 <= |m.text| <= MESSAGE_MAX_SIZE
    requires |Codec.LivePacket(room, m)| >= 18
    ensures var t := OnMessages(c, Codec.LivePacket(room, m));
            var k := FirstAt(c.rooms, room);
            && Reports(c.requests, t.requests, Requests.SendMessage, id, Requests.Success)
            && |t.rooms| == |c.rooms| && t.session == c.session
            && Log(t.rooms[k]) == Log(c.rooms[k]) + [MsgData(m.id, m.sender, m.date, m.text)]
            && forall i :: 0 <= i < |c.rooms| && i != k ==> t.rooms[i] == c.rooms[i]
  {
    EchoRead(c.rooms, room, m);
    KeptWhole(m);
    assert Payload(Codec.LivePacket(room, m)).value.0 == room by {
      hide RoomPrefix, MessagePart, After, Atoi;
      LoginRun.PayloadOf(room, MessagePart(m));
    }
    Requests.ReportsAsTold(c.requests, Requests.SendMessage, id, true);
    hide Extracted, Payload, Codec.LivePacket, Requests.Do, Requests.Enabled, Appended, Log, Kept;
  }

  lemma KeptWhole(m: Printed)
    requires |m.sender| < NAME_MAX_SIZE && 1 <= |m.text| <= MESSAGE_MAX_SIZE
    ensures Kept(m) == MsgData(m.id, m.sender, m.date, m.text)
  {
  }

  /** A packet the client cannot read, whatever is wrong with it, reports a failure to a sent message
      that waits, and stores nothing. */
  lemma UnreadableFails(c: Recognize.State, id: nat, msg: string)
    requires Sound(c.rooms) && |msg| >= 18 && Extracted(c.rooms, msg, false) == None
    requires Requests.Waiting(c.requests, Requests.SendMessage, id) && Requests.Login !in c.requests.slots
    ensures var t := OnMessages(c, msg);
            Reports(c.requests, t.requests, Requests.SendMessage, id, Requests.Failure) && t.rooms == c.rooms
  {
    Requests.ReportsAsTold(c.requests, Requests.SendMessage, id, false);
    hide Extracted, Requests.Do, Requests.Enabled;
  }

  /** So does a message without a text, the echo of one that was sent empty. */
  lemma EmptyEchoFails(c: Recognize.State, id: nat, room: int, m: Printed)
    requires Sound(c.rooms) && room >= 1 && FirstAt(c.rooms, room) >= 0 && Plain(m.sender) && m.text == ""
    requires Requests.Waiting(c.requests, Requests.SendMessage, id) && Requests.Login !in c.requests.slots
    requires |Codec.LivePacket(room, m)| >= 18
    ensures var t := OnMessages(c, Codec.LivePacket(room, m));
            Reports(c.requests, t.requests, Requests.SendMessage, id, Requests.Failure)
  {
    hide *;
    EchoRead(c.rooms, room, m);
    UnreadableFails(c, id, Codec.LivePacket(room, m));
  }

  /** A message packet speaks to one request at most: the pending login, or else the pending message. */
  lemma OthersUntold(c: Recognize.State, msg: string)
    requires Sound(c.rooms)
    ensures var t := OnMessages(c, msg).requests;
            && t.slots == c.requests.slots && t.live.Keys == c.requests.live.Keys && t.reports == c.requests.reports
            && (Requests.Login !in c.requests.slots && Requests.SendMessage !in c.requests.slots ==> t == c.requests)
            && forall id :: id in c.requests.live && t.live[id] != c.requests.live[id] ==>
                 if Requests.Login in c.requests.slots then id == c.requests.slots[Requests.Login]
                 else Requests.SendMessage in c.requests.slots && id == c.requests.slots[Requests.SendMessage]
  {
    hide Extracted, WithMessages;
  }

  // ---------------------------------------------------------------- the verdicts of a transfer

  /** Packets too short for their kind are dropped; the shortest that are not are of 7 and 18 characters. */
  lemma ShortPackets(c: Recognize.State, msg: string)
    requires Sound(c.rooms)
    ensures |msg| < 18 ==> OnMessages(c, msg) == c
    ensures |msg| == 18 && Requests.Login in c.requests.slots ==> OnMessages(c, msg).requests != c.requests
    ensures |msg| < 7 && Announces(msg) ==> OnRoom(c, msg) == (c, None)
    ensures Announces("room;5;") && OnRoom(c, "room;5;") == (c, Some(RoomReply(c.session, 5, "fail")))
  {
    ShortRoom();
    hide Extracted, WithMessages, ParseRoom, RoomId, RoomReply;
    if |msg| == 18 && Requests.Login in c.requests.slots {
      var t := OnMessages(c, msg).requests;
      assert |t.log| == |c.requests.log| + 1;
    }
  }

  lemma ShortRoom()
    ensures |"room;5;"| == 7 && RoomId("room;5;") == 5 && ParseRoom("room;5;") == None
  {
    assert Show(5) == "5";
    assert "room;5;" == "room" + [SEMI] + ("5" + [SEMI] + "");
    Split("room", "5" + [SEMI] + "");
    NumberField(5, "");
    Client.PlainEnds("");
  }

  /** A packet longer than the limit is dropped, and one of just that length is not for its length. */
  lemma OversizedDropped(c: Recognize.State, msg: string)
    requires Sound(c.rooms) && LoginRun.IsMessages(msg)
    ensures LoginRun.Handled(c, msg) == if |msg| > 1024 then (c, None) else (OnMessages(c, msg), None)
  {
  }

  /** The end of a transfer reports the login's success. */
  lemma EndReports(c: Recognize.State, id: nat)
    requires Sound(c.rooms) && Requests.Waiting(c.requests, Requests.Login, id)
    ensures Announces("room;ok")
    ensures var (t, reply) := OnRoom(c, "room;ok");
            && Reports(c.requests, t.requests, Requests.Login, id, Requests.Success)
            && t.rooms == c.rooms && t.session == c.session && reply == None
  {
    LoginRun.OkReads(c);
    Requests.ReportsAsTold(c.requests, Requests.Login, id, true);
    hide OnRoom, Requests.Do, Requests.Enabled, Announces;
  }

  /** The failure of a transfer empties the client and reports the login's failure. */
  lemma FailureReports(c: Recognize.State, id: nat)
    requires Sound(c.rooms) && Requests.Waiting(c.requests, Requests.Login, id)
    ensures Announces("room;fail")
    ensures var (t, reply) := OnRoom(c, "room;fail");
            && Reports(c.requests, t.requests, Requests.Login, id, Requests.Failure)
            && t.rooms == [] && t.session == "" && reply == None
  {
    assert "room;fail"[5..] == "fail";
    assert ParseRoom("room;fail") == None by {
      Split("room", "fail");
      assert "room" + [SEMI] + "fail" == "room;fail";
      Client.PlainEnds("fail");
    }
    assert Announces("room;fail") && SaysFail("room;fail") && !SaysOk("room;fail");
    Requests.ReportsAsTold(c.requests, Requests.Login, id, false);
    hide ParseRoom, RoomId, Announces, SaysFail, SaysOk, Requests.Do, Requests.Enabled, Requests.Waiting;
  }

  /** A room packet that announces members and names none: the slot is taken, the server is told of a
      failure, and its answer empties the client. */
  lemma NamelessRoomFails(c: Recognize.State, chats: seq<int>, counters: map<int, int>,
                          books: map<int, LoginRun.Book>, msg: string)
    requires Sound(c.rooms) && IsSession(c.session)
    requires Announces(msg) && Opening(msg) && !RoomRead(c.rooms, msg) && RoomId(msg) != 0
    ensures var (t, reply) := OnRoom(c, msg);
            && reply.Some? && t.rooms == WithRoom(c.rooms, msg) && t.requests == c.requests
            && Transfer.PacketReply(chats, counters, reply.value) == Transfer.Fail
            && Transfer.PacketCounters(chats, counters, reply.value) == counters
    ensures LoginRun.Texts(books, Transfer.Fail) == ["room;fail"]
  {
    hide ParseRoom, RoomRead, RoomId, RoomReply, ExtractRoomState, ExtractSession, WithRoom;
    RoomReplyRoundTrip(c.session, RoomId(msg), "fail");
  }

  /** A reply about a room that is not among the user's chats: the client takes the server's answer for
      a room it cannot read, says so, and is told of the failure that empties it. */
  lemma UnknownRoomFails(c: Recognize.State, chats: seq<int>, counters: map<int, int>,
                         books: map<int, LoginRun.Book>, room: int)
    requires Sound(c.rooms) && |c.rooms| < ROOM_MAX && room >= 1 && room !in chats && IsSession(c.session)
    ensures var ack := RoomReply(c.session, room, "ok");
            && Transfer.PacketReply(chats, counters, ack) == Transfer.RoomFail(room)
            && Transfer.PacketCounters(chats, counters, ack) == counters
            && |LoginRun.Texts(books, Transfer.RoomFail(room))| == 1
            && var msg := LoginRun.Texts(books, Transfer.RoomFail(room))[0];
               && Announces(msg) && Opening(msg) && RoomId(msg) == room
               && OnRoom(c, msg) == (c, Some(RoomReply(c.session, room, "fail")))
               && Transfer.PacketReply(chats, counters, RoomReply(c.session, room, "fail")) == Transfer.Fail
  {
    hide RoomReply, ExtractRoomState, ExtractSession;
    RoomReplyRoundTrip(c.session, room, "ok");
    RoomReplyRoundTrip(c.session, room, "fail");
    NotAChat(chats, room);
    FailTextReads(room);
  }

  lemma {:induction false} NotAChat(chats: seq<int>, room: int)
    requires room !in chats
    ensures Transfer.NextRoom(chats, room) == Transfer.Unknown
  {
    if chats == [] {
    } else {
      NotAChat(chats[1..], room);
    }
  }

  /** `room;<id>;fail` reads as a room with nothing behind the id. */
  lemma FailTextReads(room: int)
    requires room >= 1
    ensures var msg := "room" + [SEMI] + (Show(room) + [SEMI] + "fail");
            && ParseRoom(msg) == None && RoomId(msg) == room && Opening(msg)
  {
    hide After, Atoi, Show, Field;
    var msg := "room" + [SEMI] + (Show(room) + [SEMI] + "fail");
    Split("room", Show(room) + [SEMI] + "fail");
    NumberField(room, "fail");
    Client.PlainEnds("fail");
    assert |msg| >= 11;
  }
}
