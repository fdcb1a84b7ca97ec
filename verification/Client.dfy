/**
  The client's data: friends, and a table of at most 32 rooms whose message cells are allocated from
  an announced amount and filled by an iterator.
*/
module Client {
  import opened Base
  import opened Text
  import opened Codec
  import opened Packets
  import opened Rooms

  // ---------------------------------------------------------------- packets about friends and rooms

  function Listing(names: seq<string>): string {
    if names == [] then "" else [SEMI] + names[0] + Listing(names[1..])
  }

  /** `get_friends_packet`. */
  function FriendsPacket(names: seq<string>): string {
    "frnd" + [SEMI] + (Show(|names|) + Listing(names))
  }

  /** `get_room_packet`. */
  function RoomPacket(id: int, names: seq<string>, messages: int): string {
    "room" + [SEMI] + (Show(id) + [SEMI] + (Show(|names|) + [SEMI] + (Show(messages) + Listing(names))))
  }

  lemma {:induction false} ListingAppend(names: seq<string>, name: string)
    ensures Listing(names + [name]) == Listing(names) + [SEMI] + name
  {
    if names == [] {
      assert [name][1..] == [];
    } else {
      ListingAppend(names[1..], name);
      assert (names + [name])[1..] == names[1..] + [name];
    }
  }

  /** The printing loop of both packets. */
  method PrintListing(names: seq<string>) returns (listing: string)
    ensures listing == Listing(names)
  {
    listing := "";
    for i := 0 to |names|
      invariant listing == Listing(names[..i])
    {
      ListingAppend(names[..i], names[i]);
      assert names[..i + 1] == names[..i] + [names[i]];
      listing := listing + [SEMI] + names[i];
    }
    assert names[..|names|] == names;
  }

  /** No packet is printed for more friends than the limit. */
  method GetFriendsPacket(names: seq<string>) returns (packet: Option<string>)
    ensures packet == if |names| > FRIENDS_MAX then None else Some(FriendsPacket(names))
  {
    if |names| > FRIENDS_MAX {
      return None;
    }
    if names == [] {
      assert Show(0) + Listing([]) == Show(0);
      return Some("frnd" + [SEMI] + Show(0));
    }
    var listing := PrintListing(names);
    return Some("frnd" + [SEMI] + (Show(|names|) + listing));
  }

  method GetRoomPacket(id: int, names: seq<string>, messages: int) returns (packet: string)
    ensures packet == RoomPacket(id, names, messages)
  {
    var listing := PrintListing(names);
    packet := "room" + [SEMI] + (Show(id) + [SEMI] + (Show(|names|) + [SEMI] + (Show(messages) + listing)));
  }

  /** The loop of both extractors, name by name. */
  method ReadNames(p: string, n: int) returns (names: seq<string>)
    ensures names == NamesIn(p, n)
  {
    hide After, Field;
    names := [];
    var ptr := p;
    var i := 0;
    while i < n
      invariant i <= n || n < 0
      invariant NamesIn(p, n) == names + NamesIn(ptr, n - i)
    {
      NamesNext(ptr, n - i);
      hide NamesIn;
      names := names + [Field(ptr)];
      var next := After(ptr);
      if next.None? {
        return;
      }
      ptr := next.value;
      i := i + 1;
    }
  }

  lemma NamesNext(p: string, n: int)
    requires n > 0
    ensures NamesIn(p, n) == [Field(p)] + match After(p) case None => [] case Some(rest) => NamesIn(rest, n - 1)
    ensures forall q :: NamesIn(q, 0) == []
  {
  }

  /** Names in the first of n cells. */
  function Cells(names: seq<string>, n: int): (cells: seq<Option<string>>)
    requires |names| <= n
    ensures |cells| == n
    ensures forall i :: 0 <= i < n ==> cells[i] == if i < |names| then Some(names[i]) else None
  {
    seq(n, i requires 0 <= i < n => if i < |names| then Some(names[i]) else None)
  }

  lemma {:induction false} ListingRead(names: seq<string>)
    requires names != [] && forall n :: n in names ==> Plain(n)
    ensures After(Listing(names)).Some?
    ensures NamesIn(After(Listing(names)).value, |names|) == names
  {
    hide After, Field;
    var rest := Listing(names[1..]);
    assert Listing(names) == [SEMI] + (names[0] + rest);
    Split("", names[0] + rest);
    assert "" + [SEMI] + (names[0] + rest) == [SEMI] + (names[0] + rest);
    assert names[0] in names;
    if |names| == 1 {
      assert names[0] + rest == names[0];
      Unsplit(names[0]);
      PlainEnds(names[0]);
    } else {
      ListingRead(names[1..]);
      var more := names[1] + Listing(names[1..][1..]);
      assert rest == [SEMI] + more;
      assert names[0] + rest == names[0] + [SEMI] + more;
      Split(names[0], more);
      Split("", more);
      assert "" + [SEMI] + more == [SEMI] + more;
    }
  }

  lemma PlainEnds(s: string)
    requires Plain(s)
    ensures After(s) == None
  {
    CountPlain(s);
    AfterCounts(s);
  }

  // ---------------------------------------------------------------- state

  /** Messages decoded so far in front of what is still to come. */
  function Prepend(ms: seq<MsgData>, rest: Option<seq<MsgData>>): Option<seq<MsgData>> {
    match rest
    case None => None
    case Some(more) => Some(ms + more)
  }

  lemma PrependStep(ms: seq<MsgData>, m: MsgData, rest: Option<seq<MsgData>>)
    ensures Prepend(ms, Prepend([m], rest)) == Prepend(ms + [m], rest)
    ensures Prepend([], rest) == rest
    ensures Prepend(ms, Some([])) == Some(ms)
  {
    if rest.Some? {
      assert ms + ([m] + rest.value) == ms + [m] + rest.value;
      assert [] + rest.value == rest.value;
    }
    assert ms + [] == ms;
  }

  class UserData {
    var roomAmount: nat
    var rooms: array<RoomData>
    var friends: seq<Option<string>>   // friend_amount cells, None while not written

    ghost predicate Valid()
      reads this, rooms
    {
      && rooms.Length == ROOM_MAX && roomAmount <= ROOM_MAX
      && Sound(rooms[..roomAmount])
      && (forall i :: roomAmount <= i < ROOM_MAX ==> rooms[i] == BLANK)
    }

    /** The rooms in use. */
    ghost function View(): seq<RoomData>
      requires Valid()
      reads this, rooms
    {
      rooms[..roomAmount]
    }

    constructor ()
      ensures Valid() && fresh(rooms) && View() == [] && friends == []
    {
      rooms := new RoomData[ROOM_MAX](_ => BLANK);
      roomAmount, friends := 0, [];
    }

    /** `free_user_data`. */
    method Free()
      modifies this
      ensures Valid() && fresh(rooms) && View() == [] && friends == []
    {
      rooms := new RoomData[ROOM_MAX](_ => BLANK);
      roomAmount, friends := 0, [];
    }

    /** `extract_frnd`: as many cells as announced are added to those already there, and filled with
        the names the packet holds.  A negative number takes cells away, as long as one is left. */
    method ExtractFrnd(packet: string) returns (ok: bool)
      modifies this`friends
      ensures match After(packet)
              case None => !ok && friends == old(friends)
              case Some(p1) =>
                if Atoi(p1) == 0 then ok && friends == old(friends)
                else match After(p1)
                  case None => !ok && friends == old(friends)
                  case Some(p2) =>
                    var amount := |old(friends)| + Atoi(p1);
                    if amount <= 0 then !ok && friends == old(friends)
                    else if Atoi(p1) < 0 then ok && friends == old(friends)[..amount]
                    else ok && friends == old(friends) + Cells(NamesIn(p2, Atoi(p1)), Atoi(p1))
    {
      var p1 := After(packet);
      if p1.None? {
        return false;
      }
      var count := Atoi(p1.value);
      if count == 0 {
        return true;
      }
      var p2 := After(p1.value);
      if p2.None? {
        return false;
      }
      if |friends| + count <= 0 {
        return false;
      }
      if count < 0 {
        friends := friends[..|friends| + count];
      } else {
        var names := ReadNames(p2.value, count);
        friends := friends + Cells(names, count);
      }
      ok := true;
    }

    /** `extract_room`.  The slot is taken even when the member names are missing. */
    method ExtractRoom(packet: string) returns (ok: bool)
      requires Valid() && Announces(packet)
      modifies this`roomAmount, rooms
      ensures Valid() && rooms == old(rooms) && View() == WithRoom(old(View()), packet)
      ensures ok <==> ParseRoom(packet).Some?
                      && (old(roomAmount) == ROOM_MAX || ParseRoom(packet).value.userAmount == 0
                          || ParseRoom(packet).value.names.Some?)
    {
      hide ParseRoom;
      var head := ParseRoom(packet);
      if head.None? {
        return false;
      }
      var h := head.value;
      if roomAmount == ROOM_MAX {
        return true;
      }
      var slot := roomAmount;
      roomAmount := roomAmount + 1;
      rooms[slot] := rooms[slot].(id := h.id, userAmount := h.userAmount, msgAmount := h.msgAmount,
                                  cells := Unwritten(h.msgAmount));
      assert rooms[..slot] == old(View());
      if h.userAmount == 0 {
        assert View() == old(View()) + [Announced(h)];
        return true;
      }
      if h.names.None? {
        assert View() == old(View()) + [Announced(h)];
        return false;
      }
      var names := ReadNames(h.names.value, h.userAmount);
      rooms[slot] := rooms[slot].(users := names);
      assert View() == old(View()) + [Announced(h)];
      ok := true;
    }

    /** The first room with the id, or -1. */
    method FindRoom(id: int) returns (index: int)
      requires Valid()
      ensures index == FirstAt(View(), id)
    {
      for i := 0 to roomAmount
        invariant forall k :: 0 <= k < i ==> rooms[k].id != id
      {
        if rooms[i].id == id {
          return i;
        }
      }
      return -1;
    }

    /** `add_messages_data`: it looks for the last room with the id and clips to the free cells. */
    method AddMessagesData(id: int, ms: seq<MsgData>)
      requires Valid()
      modifies rooms
      ensures Valid() && View() == Added(old(View()), id, ms)
    {
      hide Appended;
      var index := FindLastRoom(id);
      if index == -1 {
        return;
      }
      var amount := |ms|;
      if amount > rooms[index].msgAmount - rooms[index].msgIter {
        amount := rooms[index].msgAmount - rooms[index].msgIter;
      }
      assert ms[..amount] == FirstOf(ms, rooms[index].msgAmount - rooms[index].msgIter);
      CopyMessages(index, ms, amount);
    }

    /** Its first loop, which does not stop at a match. */
    method FindLastRoom(id: int) returns (index: int)
      requires Valid()
      ensures index == LastAt(View(), id)
    {
      index := -1;
      for i := 0 to roomAmount
        invariant -1 <= index < i && (index >= 0 ==> rooms[index].id == id)
        invariant forall k :: index < k < i ==> rooms[k].id != id
      {
        if rooms[i].id == id {
          index := i;
        }
      }
    }

    /** Its second loop: cell by cell from the iterator on. */
    method CopyMessages(index: nat, ms: seq<MsgData>, amount: nat)
      requires Valid() && index < roomAmount
      requires amount <= |ms| && rooms[index].msgIter + amount <= rooms[index].msgAmount
      modifies rooms
      ensures Valid() && View() == old(View())[index := Appended(old(View())[index], ms[..amount], 0)]
    {
      ghost var before := rooms[index];
      assert Appended(before, [], 0).cells == before.cells;
      hide Appended;
      for i := 0 to amount
        invariant Valid()
        invariant View() == old(View())[index := Appended(before, ms[..i], 0)]
      {
        AppendedNext(before, ms[..i], ms[i]);
        assert ms[..i + 1] == ms[..i] + [ms[i]];
        assert rooms[index] == View()[index];
        var room := rooms[index];
        rooms[index] := room.(cells := room.cells[room.msgIter := Some(ms[i])], msgIter := room.msgIter + 1);
        assert View() == old(View())[index := Appended(before, ms[..i + 1], 0)];
      }
    }

    /** The decoding loop of the batch branch: n messages, each from where the counting cursor stands. */
    method DecodeMessages(payload: string, n: nat) returns (ms: Option<seq<MsgData>>)
      requires 5 * n <= Count(payload)
      ensures ms == DecodeNext(payload, n)
    {
      hide Decode, Count;
      var ptr := payload;
      var decoded := [];
      PrependStep([], MsgData(0, "", 0, ""), DecodeNext(ptr, n));
      for i := 0 to n
        invariant 5 * (n - i) <= Count(ptr)
        invariant DecodeNext(payload, n) == Prepend(decoded, DecodeNext(ptr, n - i))
      {
        var msg := Decode(ptr);
        if msg.None? {
          return None;
        }
        SkipCounts(ptr, 5);
        var next := NextMsgStruct(ptr);
        StepDecode(ptr, msg.value, next.value, n - i);
        PrependStep(decoded, msg.value, DecodeNext(next.value, n - i - 1));
        decoded := decoded + [msg.value];
        ptr := next.value;
      }
      PrependStep(decoded, MsgData(0, "", 0, ""), None);
      return Some(decoded);
    }

    /** `extract_rmsg`. */
    method ExtractRmsg(packet: string, loginPending: bool) returns (ok: bool)
      requires Valid()
      modifies rooms
      ensures Valid() && View() == WithMessages(old(View()), packet, loginPending)
      ensures ok <==> Extracted(old(View()), packet, loginPending).Some?
    {
      hide Arriving, Payload, Added, Appended, FirstAt;
      var parsed := Payload(packet);
      if parsed.None? {
        return false;
      }
      var (id, payload) := parsed.value;
      var index := FindRoom(id);
      if index == -1 {
        return false;
      }
      var room := rooms[index];
      var arriving := Arrive(payload, loginPending, room);
      assert Extracted(View(), packet, loginPending) == arriving;
      if arriving.None? {
        return false;
      }
      if loginPending {
        AddMessagesData(id, arriving.value);
      } else {
        assert arriving.value == [arriving.value[0]];
        AddLive(index, arriving.value[0]);
      }
      ok := true;
    }

    /** The decoding part of `extract_rmsg`. */
    method Arrive(payload: string, loginPending: bool, room: RoomData) returns (ms: Option<seq<MsgData>>)
      requires Bounded(room)
      ensures ms == Arriving(payload, loginPending, room.msgAmount - room.msgIter)
      ensures !loginPending && ms.Some? ==> |ms.value| == 1
    {
      hide Decode, Count;
      if loginPending {
        var amount := CountMessages(payload);
        if amount.None? {
          return None;
        }
        var n := amount.value;
        if n > room.msgAmount - room.msgIter {
          n := room.msgAmount - room.msgIter;
        }
        ms := DecodeMessages(payload, n);
      } else {
        var msg := Decode(payload);
        ms := if msg.None? then None else Some([msg.value]);
      }
    }

    /** The live branch: one more cell, filled at the iterator. */
    method AddLive(index: nat, msg: MsgData)
      requires Valid() && index < roomAmount
      modifies rooms
      ensures Valid() && View() == old(View())[index := Appended(old(View())[index], [msg], 1)]
    {
      var room := rooms[index];
      var grown := room.cells + [None];
      rooms[index] := room.(msgAmount := room.msgAmount + 1,
                            cells := grown[room.msgIter := Some(msg)], msgIter := room.msgIter + 1);
      assert rooms[index].cells == Appended(room, [msg], 1).cells;
      assert View() == old(View())[index := Appended(room, [msg], 1)];
    }
  }

  /** One more message at the iterator. */
  lemma AppendedNext(r: RoomData, ms: seq<MsgData>, m: MsgData)
    requires Bounded(r) && r.msgIter + |ms| < r.msgAmount
    ensures var t := Appended(r, ms, 0);
            Appended(r, ms + [m], 0) == t.(cells := t.cells[t.msgIter := Some(m)], msgIter := t.msgIter + 1)
  {
    var t := Appended(r, ms, 0);
    assert Appended(r, ms + [m], 0).cells == t.cells[t.msgIter := Some(m)];
  }

  // ---------------------------------------------------------------- server to client

  /** A printed room packet opens exactly that room. */
  lemma RoomPacketRoundTrip(id: int, names: seq<string>, messages: int)
    requires names != [] && forall n :: n in names ==> Plain(n)
    ensures var head := ParseRoom(RoomPacket(id, names, messages));
            && head.Some? && head.value.id == id && head.value.userAmount == |names| && head.value.msgAmount == messages
            && head.value.names.Some? && NamesIn(head.value.names.value, |names|) == names
  {
    hide After, Atoi, Show, Field, NamesIn, Listing;
    ListingRead(names);
    ListingSplit(names);
    var more := After(Listing(names)).value;
    var p3 := Show(messages) + [SEMI] + more;
    var p2 := Show(|names|) + [SEMI] + p3;
    var p1 := Show(id) + [SEMI] + p2;
    assert RoomPacket(id, names, messages) == "room" + [SEMI] + p1 by {
      assert Show(messages) + Listing(names) == p3;
    }
    Split("room", p1);
    NumberField(id, p2);
    NumberField(|names|, p3);
    NumberField(messages, more);
  }

  /** And opens it with its members' names and as many empty cells as there are messages. */
  lemma OpensAsPrinted(t: seq<RoomData>, id: int, names: seq<string>, messages: int)
    requires Sound(t) && |t| < ROOM_MAX && names != [] && messages >= 0 && forall n :: n in names ==> Plain(n)
    ensures Announces(RoomPacket(id, names, messages))
    ensures var u := WithRoom(t, RoomPacket(id, names, messages));
            && |u| == |t| + 1 && u[..|t|] == t
            && u[|t|].id == id && u[|t|].users == names && u[|t|].userAmount == |names|
            && u[|t|].msgAmount == messages == |u[|t|].cells| && Log(u[|t|]) == []
  {
    hide ParseRoom, RoomPacket, NamesIn;
    RoomPacketRoundTrip(id, names, messages);
  }

  lemma ListingSplit(names: seq<string>)
    requires names != []
    ensures After(Listing(names)).Some? && Listing(names) == [SEMI] + After(Listing(names)).value
  {
    var rest := names[0] + Listing(names[1..]);
    assert Listing(names) == [SEMI] + rest;
    Split("", rest);
    assert "" + [SEMI] + rest == [SEMI] + rest;
  }

  lemma FriendsPacketRoundTrip(names: seq<string>)
    requires forall n :: n in names ==> Plain(n)
    ensures var p1 := After(FriendsPacket(names));
            && p1.Some? && Atoi(p1.value) == |names|
            && (names != [] ==> After(p1.value).Some? && NamesIn(After(p1.value).value, |names|) == names)
  {
    hide *;
    FriendsPacketBody(names);
    if names == [] {
      EmptyListing();
    } else {
      ListingRead(names);
      FriendsCount(names);
    }
  }

  lemma FriendsPacketBody(names: seq<string>)
    ensures After(FriendsPacket(names)) == Some(Show(|names|) + Listing(names))
  {
    hide After, Show, Listing;
    Split("frnd", Show(|names|) + Listing(names));
  }

  lemma FriendsCount(names: seq<string>)
    requires names != []
    ensures After(Listing(names)).Some? && Atoi(Show(|names|) + Listing(names)) == |names|
    ensures After(Show(|names|) + Listing(names)) == After(Listing(names))
  {
    hide After, Atoi, Show, Listing;
    ListingSplit(names);
    var more := After(Listing(names)).value;
    assert Show(|names|) + Listing(names) == Show(|names|) + [SEMI] + more;
    NumberField(|names|, more);
  }

  lemma EmptyListing()
    ensures Atoi(Show(0) + Listing([])) == 0
  {
    AtoiShow(0, "");
  }

  /** Read as a batch, that is while the login is pending, a history that fits one packet fills the room
      that announced it, in order and completely. */
  lemma HistoryFillsRoom(room: int, ms: seq<Printed>, packets: seq<string>, groups: seq<seq<Printed>>)
    requires room >= 1 && ms != [] && PlainSenders(ms) && Packing(room, ms, packets, groups) && |packets| == 1
    requires forall m :: m in ms ==> m.text != "" && Plain(m.text)
    ensures Payload(packets[0]).Some? && Payload(packets[0]).value.0 == room
    ensures Arriving(Payload(packets[0]).value.1, true, |ms|) == Some(KeptAll(ms))
  {
    hide Decode, MessagePart, RoomPrefix, DecodeNext, Parts, Atoi, After;
    assert groups == [] + [groups[0]];
    FlattenAppend([], groups[0]);
    assert groups[0] == ms;
    assert packets[0] == RoomPrefix(room) + Parts(ms);
    PrefixSkipped(room, Parts(ms));
    NumberField(room, Parts(ms));
    PartsCount(ms);
    TextSemisPlain(ms);
    FirstPacketExact(ms);
  }
}
