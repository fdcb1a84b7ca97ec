/**
  What a login brings a client: the rooms of its user, as long as it acknowledges each, and a room's
  history, if it is read in time.  When a client acknowledges is the subject of module LoginRun.
*/
module Arrival {
  import opened Base
  import opened Text
  import opened Chat
  import opened Store
  import opened Simulation
  import opened Codec
  import opened Packets
  import ClientPackets
  import History
  import Rooms
  import Transfer

  // ---------------------------------------------------------------- every room

  /** To a client that acknowledges every room packet, the transfer after a load sends each of the user's
      rooms once, in list order, and then reports the end; the rooms sent are exactly those the user is
      a member of. */
  lemma EveryRoomArrives(w: World, id: int, counters: map<int, int>)
    requires Good(w) && id in w.redis.users
    ensures var chats := w.redis.users[id].chats;
            && Transfer.Session(chats, counters) == Transfer.InOrder(chats)
            && (forall r :: Transfer.RoomSent(r) in Transfer.Session(chats, counters) <==>
                  r in w.mongo.rooms && id in w.mongo.rooms[r].users)
  {
    var chats := w.redis.users[id].chats;
    assert Indexed(Abs(w)) && LoadedUsersOk(w);
    LoadedChats(w, id);
    assert NoDup(chats) by {
      assert Abs(w).users[id] == ProfileOf(w, id) && id in Abs(w).users;
    }
    hide Good, Indexed, LoadedUsersOk, Transfer.Session;
    Transfer.TransferCompletes(chats, counters);
    forall r ensures Transfer.RoomSent(r) in Transfer.InOrder(chats) <==> r in chats { OrderHolds(chats, r); }
  }

  lemma {:induction false} OrderHolds(chats: seq<int>, r: int)
    ensures Transfer.RoomSent(r) in Transfer.InOrder(chats) <==> r in chats
  {
    if chats == [] {
    } else {
      OrderHolds(chats[1..], r);
      assert r in chats <==> r == chats[0] || r in chats[1..];
    }
  }

  // ---------------------------------------------------------------- every message

  /** The sender's name from Redis when loaded, from MongoDB otherwise. */
  function SenderName(w: World, id: int): string {
    if id in w.redis.users && w.redis.users[id].info.Some?
    then w.redis.users[id].info.value.name
    else NameOf(w.mongo, id)
  }

  function PrintedMessage(w: World, msg: Message): Printed {
    Printed(msg.id, SenderName(w, msg.sentBy), msg.date, msg.text)
  }

  /** A room's messages as `get_room_message_packets` prints them. */
  function PrintedRoom(w: World, r: int): (ms: seq<Printed>)
    requires r in w.redis.rooms
    ensures |ms| == |w.redis.rooms[r].ids| == |Snapshot(r, w.redis.rooms[r]).messages|
    ensures forall i :: 0 <= i < |ms| ==> ms[i] == PrintedMessage(w, Snapshot(r, w.redis.rooms[r]).messages[i])
  {
    var messages := Snapshot(r, w.redis.rooms[r]).messages;
    seq(|messages|, i requires 0 <= i < |messages| => PrintedMessage(w, messages[i]))
  }

  /** A message of the service as a client shows it: 19 characters of the name, 383 of the text. */
  function Shown(users: map<int, Profile>, msg: Message): MsgData {
    MsgData(msg.id, Clip(if msg.sentBy in users then users[msg.sentBy].name else "Unknown", NAME_MAX_SIZE - 1),
            msg.date, Clip(msg.text, MESSAGE_MAX_SIZE - 1))
  }

  function ShownAll(users: map<int, Profile>, ms: seq<Message>): (shown: seq<MsgData>)
    ensures |shown| == |ms|
    ensures forall i :: 0 <= i < |ms| ==> shown[i] == Shown(users, ms[i])
  {
    seq(|ms|, i requires 0 <= i < |ms| => Shown(users, ms[i]))
  }

  ghost predicate PlainNames(s: Service) {
    forall id :: id in s.users ==> Plain(s.users[id].name)
  }

  /** Names come out of packets, where a semicolon would end them. */
  lemma NamesStayPlain(s: Service, e: Event)
    requires PlainNames(s) && (e.CreateAccount? ==> Plain(e.name))
    ensures PlainNames(Chat.Step(s, e))
    ensures forall packet :: ClientPackets.ExtractCredentials(packet).Some? ==>
              Plain(ClientPackets.ExtractCredentials(packet).value.0)
  {
    if e.AddFriend? {
      var f := IdOf(Names(s.users), e.friend);
      if f.Some? && e.session in s.sessions && s.sessions[e.session] in s.users {
        assert f.value in s.users;
        AskKeepsNames(s, s.sessions[e.session], f.value);
      }
    }
  }

  lemma AskKeepsNames(s: Service, u: int, v: int)
    requires PlainNames(s) && u in s.users && v in s.users
    ensures PlainNames(Ask(s, u, v))
  {
  }

  /** Texts that a batch can carry: not empty and without semicolons. */
  ghost predicate Carriable(ms: seq<Message>) {
    forall i :: 0 <= i < |ms| ==> ms[i].text != "" && Plain(ms[i].text)
  }

  lemma PrintedIsShown(w: World, r: int, i: nat)
    requires LoadedUsersOk(w) && r in w.redis.rooms && i < |w.redis.rooms[r].ids|
    ensures var msg := Listed(w.redis.rooms[r])[i];
            && Kept(PrintedRoom(w, r)[i]) == Shown(Profiles(w), msg)
            && (PlainNames(Abs(w)) ==> Plain(PrintedRoom(w, r)[i].sender))
            && (msg.text != "" && Plain(msg.text) ==>
                  PrintedRoom(w, r)[i].text != "" && Plain(PrintedRoom(w, r)[i].text))
  {
    var id := Listed(w.redis.rooms[r])[i].sentBy;
    if id in w.redis.users {
      assert LoadedUser(w, id);
    }
    if id in w.mongo.users {
      assert Profiles(w)[id] == ProfileOf(w, id) && id in Abs(w).users && Abs(w).users[id] == ProfileOf(w, id);
    }
  }

  lemma PrintedAreShown(w: World, r: int)
    requires LoadedUsersOk(w) && r in w.redis.rooms && PlainNames(Abs(w)) && Carriable(Listed(w.redis.rooms[r]))
    ensures KeptAll(PrintedRoom(w, r)) == ShownAll(Profiles(w), Listed(w.redis.rooms[r]))
    ensures PlainSenders(PrintedRoom(w, r)) && forall m :: m in PrintedRoom(w, r) ==> m.text != "" && Plain(m.text)
  {
    hide LoadedUsersOk, PlainNames, Profiles, Kept, Shown, Abs, PrintedMessage, Plain, Snapshot;
    assert |Listed(w.redis.rooms[r])| == |w.redis.rooms[r].ids|;
    var ms := PrintedRoom(w, r);
    forall i | 0 <= i < |ms|
      ensures Plain(ms[i].sender) && ms[i].text != "" && Plain(ms[i].text)
      ensures Kept(ms[i]) == Shown(Profiles(w), Listed(w.redis.rooms[r])[i])
    {
      PrintedIsShown(w, r, i);
    }
  }

  /** Exactly when the history of a room, as the service promises it, fills the slot a client has opened
      for it, every message in order under its sender's name: it fits one packet, and that packet
      arrives while the client's login is pending, or there is only one message. */
  lemma HistoryArrives(w: World, r: int, packets: seq<string>, groups: seq<seq<Printed>>,
                       slot: Rooms.RoomData, pending: seq<bool>)
    requires Good(w) && PlainNames(Abs(w)) && r in w.redis.rooms && r in Abs(w).rooms
    requires var history := Abs(w).rooms[r].history;
             && history != [] && Carriable(history)
             && slot.id == r && slot.msgIter == 0 && slot.msgAmount == |history| && Rooms.Bounded(slot)
    requires Packing(r, PrintedRoom(w, r), packets, groups) && |pending| == |packets|
    ensures |packets| >= 1
    ensures Rooms.Log(History.FedAll(slot, packets, pending)) == ShownAll(Abs(w).users, Abs(w).rooms[r].history)
       <==> |packets| == 1 && (pending[0] || |Abs(w).rooms[r].history| == 1)
  {
    assert LoadedUsersOk(w) && r >= 1 by { assert IdsInRange(Abs(w)); }
    assert Abs(w).rooms[r].history == Listed(w.redis.rooms[r]) && Abs(w).users == Profiles(w);
    assert |PrintedRoom(w, r)| == |Listed(w.redis.rooms[r])|;
    assert Numbering(Listed(w.redis.rooms[r])) by { assert Numbered(Abs(w)); }
    hide *;
    PrintedAreShown(w, r);
    PrintedAreNumbered(w, r);
    AreCarriable(PrintedRoom(w, r));
    History.ArrivesExactly(slot, PrintedRoom(w, r), packets, groups, pending);
  }

  lemma AreCarriable(ms: seq<Printed>)
    requires forall m :: m in ms ==> m.text != "" && Plain(m.text)
    ensures History.AllCarriable(ms)
  {
  }

  lemma PrintedAreNumbered(w: World, r: int)
    requires r in w.redis.rooms && Numbering(Listed(w.redis.rooms[r]))
    ensures forall m :: m in PrintedRoom(w, r) ==> m.id >= 1
  {
    var ms := PrintedRoom(w, r);
    forall i | 0 <= i < |ms| ensures ms[i].id >= 1 {
      assert ms[i].id == Listed(w.redis.rooms[r])[i].id;
    }
  }
}
