/**
  The room transfer after a login: the server sends one room packet, the client names the room it
  got, the server sends the next one.  Counters cap how often each room is sent.
*/
module Transfer {
  import opened Base
  import opened Text
  import opened ClientPackets

  datatype Reply = RoomSent(id: int) | RoomFail(id: int) | Done | Fail

  // ---------------------------------------------------------------- the server's functions

  datatype Next = Unknown | Last | Then(id: int)

  /** `get_next_room`: what follows the first occurrence of the id. */
  function NextRoom(chats: seq<int>, id: int): Next {
    if chats == [] then Unknown
    else if chats[0] == id then if |chats| == 1 then Last else Then(chats[1])
    else NextRoom(chats[1..], id)
  }

  /** Whether `send_room_packet` sends the room: its counter exists and is below the cap. */
  predicate Sendable(chats: seq<int>, counters: map<int, int>, id: int) {
    id in counters && id in chats && counters[id] < PACKET_FAIL_MAX
  }

  function SendReply(chats: seq<int>, counters: map<int, int>, id: int): Reply {
    if Sendable(chats, counters, id) then RoomSent(id) else RoomFail(id)
  }

  function SendCounters(chats: seq<int>, counters: map<int, int>, id: int): map<int, int> {
    if Sendable(chats, counters, id) then counters[id := counters[id] + 1] else counters
  }

  /** `on_room_request` on a reply about one room. */
  function AckReply(chats: seq<int>, counters: map<int, int>, id: int, ok: bool): Reply {
    if !ok then Fail
    else match NextRoom(chats, id)
      case Unknown => RoomFail(id)
      case Last => Done
      case Then(next) => SendReply(chats, counters, next)
  }

  function AckCounters(chats: seq<int>, counters: map<int, int>, id: int, ok: bool): map<int, int> {
    if ok && NextRoom(chats, id).Then? then SendCounters(chats, counters, NextRoom(chats, id).id) else counters
  }

  /** `on_room_request` on a whole packet. */
  function PacketReply(chats: seq<int>, counters: map<int, int>, packet: string): Reply {
    match ExtractRoomState(packet)
    case None => Fail
    case Some(ack) =>
      if ack.1 && ExtractSession(packet).None? then RoomFail(ack.0) else AckReply(chats, counters, ack.0, ack.1)
  }

  function PacketCounters(chats: seq<int>, counters: map<int, int>, packet: string): map<int, int> {
    match ExtractRoomState(packet)
    case None => counters
    case Some(ack) =>
      if ack.1 && ExtractSession(packet).None? then counters else AckCounters(chats, counters, ack.0, ack.1)
  }

  /** `room_packet_transfer` for a user in Redis. */
  function StartReply(chats: seq<int>, counters: map<int, int>): Reply {
    if chats == [] then Done else SendReply(chats, ResetCounters(chats, counters), chats[0])
  }

  function StartCounters(chats: seq<int>, counters: map<int, int>): map<int, int> {
    if chats == [] then counters else SendCounters(chats, ResetCounters(chats, counters), chats[0])
  }

  function ResetCounters(chats: seq<int>, counters: map<int, int>): map<int, int> {
    counters + map c | c in chats :: 0
  }

  /** One session's transfer state: the user's chat list, if the user is in Redis, and the counters of
      the session. */
  class RoomTransfer {
    const session: string
    var user: Option<seq<int>>
    var counters: map<int, int>

    function Chats(): seq<int>
      reads this
    {
      if user.Some? then user.value else []
    }

    constructor (session: string, user: Option<seq<int>>)
      ensures this.session == session && this.user == user && counters == map[]
    {
      this.session, this.user, counters := session, user, map[];
    }

    method GetNextRoom(id: int) returns (next: Next)
      ensures next == NextRoom(Chats(), id)
    {
      if user.None? {
        return Unknown;
      }
      var chats := user.value;
      var i := 0;
      while i < |chats|
        invariant 0 <= i <= |chats|
        invariant NextRoom(chats, id) == NextRoom(chats[i..], id)
      {
        if chats[i] == id {
          i := i + 1;
          return if i == |chats| then Last else Then(chats[i]);
        }
        i := i + 1;
      }
      return Unknown;
    }

    method SendRoomPacket(id: int) returns (reply: Reply)
      modifies this`counters
      ensures reply == SendReply(Chats(), old(counters), id)
      ensures counters == SendCounters(Chats(), old(counters), id)
    {
      if id !in counters {
        return RoomFail(id);
      }
      if user.None? || id !in user.value {
        return RoomFail(id);
      }
      if counters[id] >= PACKET_FAIL_MAX {
        return RoomFail(id);
      }
      counters := counters[id := counters[id] + 1];
      return RoomSent(id);
    }

    /** `on_room_request` on a whole packet.  A packet names its session, and the session its object. */
    method OnRoomRequest(packet: string) returns (reply: Reply)
      requires ExtractSession(packet).Some? ==> ExtractSession(packet).value == session
      modifies this`counters
      ensures reply == PacketReply(Chats(), old(counters), packet)
      ensures counters == PacketCounters(Chats(), old(counters), packet)
    {
      var ack := ExtractRoomState(packet);
      if ack.None? || !ack.value.1 {
        return Fail;
      }
      if ExtractSession(packet).None? {
        return RoomFail(ack.value.0);
      }
      var next := GetNextRoom(ack.value.0);
      match next
      case Unknown => reply := RoomFail(ack.value.0);
      case Last => reply := Done;
      case Then(id) => reply := SendRoomPacket(id);
    }

    /** `room_packet_transfer`: reset every chat's counter, send the first room; nothing at all for a
        session without a user in Redis. */
    method Start() returns (reply: Option<Reply>)
      modifies this`counters
      ensures reply == if user.None? then None else Some(StartReply(Chats(), old(counters)))
      ensures counters == StartCounters(Chats(), old(counters))
    {
      if user.None? {
        return None;
      }
      if |user.value| < 1 {
        return Some(Done);
      }
      Reset();
      var first := SendRoomPacket(user.value[0]);
      return Some(first);
    }

    /** The loop that sets every chat's counter to 0. */
    method Reset()
      requires user.Some?
      modifies this`counters
      ensures counters == ResetCounters(user.value, old(counters))
    {
      ResetNext([], counters, 0);
      for i := 0 to |user.value|
        invariant counters == ResetCounters(user.value[..i], old(counters))
      {
        ResetNext(user.value[..i], old(counters), user.value[i]);
        assert user.value[..i + 1] == user.value[..i] + [user.value[i]];
        counters := counters[user.value[i] := 0];
      }
      assert user.value[..|user.value|] == user.value;
    }
  }

  lemma ResetNext(chats: seq<int>, counters: map<int, int>, c: int)
    ensures ResetCounters([], counters) == counters
    ensures ResetCounters(chats + [c], counters) == ResetCounters(chats, counters)[c := 0]
  {
    assert forall k :: k in chats + [c] <==> k in chats || k == c;
  }

  // ---------------------------------------------------------------- any client

  datatype Ack = Ack(id: int, ok: bool)

  function RunReplies(chats: seq<int>, counters: map<int, int>, acks: seq<Ack>): seq<Reply> {
    if acks == [] then []
    else
      var ack := acks[0];
      [AckReply(chats, counters, ack.id, ack.ok)]
        + RunReplies(chats, AckCounters(chats, counters, ack.id, ack.ok), acks[1..])
  }

  function RunCounters(chats: seq<int>, counters: map<int, int>, acks: seq<Ack>): map<int, int> {
    if acks == [] then counters
    else RunCounters(chats, AckCounters(chats, counters, acks[0].id, acks[0].ok), acks[1..])
  }

  function Sent(replies: seq<Reply>): nat {
    if replies == [] then 0 else (if replies[0].RoomSent? then 1 else 0) + Sent(replies[1..])
  }

  /** How often the room with this id was sent. */
  function SentOf(replies: seq<Reply>, id: int): nat {
    if replies == [] then 0 else (if replies[0] == RoomSent(id) then 1 else 0) + SentOf(replies[1..], id)
  }

  /** The counters of the user's own chats are within the cap. */
  ghost predicate Capped(chats: seq<int>, counters: map<int, int>) {
    forall id :: id in chats && id in counters ==> 0 <= counters[id] <= PACKET_FAIL_MAX
  }

  /** The chats that have a counter. */
  ghost function Counted(chats: seq<int>, counters: map<int, int>): set<int> {
    set id | id in chats && id in counters
  }

  /** The sum of some counters. */
  ghost function Spent(counters: map<int, int>, keys: set<int>): int
    requires keys <= counters.Keys
  {
    if exists k :: k in keys then
      var k :| k in keys;
      counters[k] + Spent(counters, keys - {k})
    else 0
  }

  lemma {:induction false} SpentWithout(counters: map<int, int>, keys: set<int>, k: int)
    requires keys <= counters.Keys && k in keys
    ensures Spent(counters, keys) == counters[k] + Spent(counters, keys - {k})
    decreases keys
  {
    var j :| j in keys && Spent(counters, keys) == counters[j] + Spent(counters, keys - {j});
    if j == k {
    } else {
      SpentWithout(counters, keys - {j}, k);
      SpentWithout(counters, keys - {k}, j);
      assert keys - {j} - {k} == keys - {k} - {j};
    }
  }

  lemma {:induction false} SpentSame(a: map<int, int>, b: map<int, int>, keys: set<int>)
    requires keys <= a.Keys && keys <= b.Keys && forall k :: k in keys ==> a[k] == b[k]
    ensures Spent(a, keys) == Spent(b, keys)
    decreases keys
  {
    if k :| k in keys {
      SpentWithout(a, keys, k);
      SpentWithout(b, keys, k);
      SpentSame(a, b, keys - {k});
    }
  }

  lemma {:induction false} SpentBounded(counters: map<int, int>, keys: set<int>)
    requires keys <= counters.Keys && forall k :: k in keys ==> 0 <= counters[k] <= PACKET_FAIL_MAX
    ensures 0 <= Spent(counters, keys) <= PACKET_FAIL_MAX * |keys|
    decreases keys
  {
    if k :| k in keys {
      SpentWithout(counters, keys, k);
      SpentBounded(counters, keys - {k});
    }
  }

  /** A room packet is sent exactly when one counter goes up by one, within its cap. */
  lemma AckSpends(chats: seq<int>, counters: map<int, int>, id: int, ok: bool)
    requires Capped(chats, counters)
    ensures var now := AckCounters(chats, counters, id, ok);
            && now.Keys == counters.Keys && Capped(chats, now)
            && Spent(now, Counted(chats, now)) == Spent(counters, Counted(chats, counters))
                 + if AckReply(chats, counters, id, ok).RoomSent? then 1 else 0
  {
    var now := AckCounters(chats, counters, id, ok);
    var keys := Counted(chats, counters);
    assert Counted(chats, now) == keys;
    if AckReply(chats, counters, id, ok).RoomSent? {
      var next := NextRoom(chats, id).id;
      assert now == counters[next := counters[next] + 1];
      SpentWithout(counters, keys, next);
      SpentWithout(now, keys, next);
      SpentSame(counters, now, keys - {next});
    }
  }

  lemma {:induction false} RunSpends(chats: seq<int>, counters: map<int, int>, acks: seq<Ack>)
    requires Capped(chats, counters)
    ensures var now := RunCounters(chats, counters, acks);
            && now.Keys == counters.Keys && Capped(chats, now)
            && Sent(RunReplies(chats, counters, acks))
                 == Spent(now, Counted(chats, now)) - Spent(counters, Counted(chats, counters))
  {
    if acks == [] {
    } else {
      AckSpends(chats, counters, acks[0].id, acks[0].ok);
      RunSpends(chats, AckCounters(chats, counters, acks[0].id, acks[0].ok), acks[1..]);
      var first := AckReply(chats, counters, acks[0].id, acks[0].ok);
      var rest := RunReplies(chats, AckCounters(chats, counters, acks[0].id, acks[0].ok), acks[1..]);
      assert ([first] + rest)[1..] == rest;
    }
  }

  /** Room by room: what is sent of it is what its own counter rises by. */
  lemma {:induction false} RunSpendsEach(chats: seq<int>, counters: map<int, int>, acks: seq<Ack>, id: int)
    requires Capped(chats, counters)
    ensures var now := RunCounters(chats, counters, acks);
            && (id in now <==> id in counters)
            && SentOf(RunReplies(chats, counters, acks), id)
                 == if id in chats && id in counters then now[id] - counters[id] else 0
  {
    if acks == [] {
    } else {
      var now := AckCounters(chats, counters, acks[0].id, acks[0].ok);
      AckSpends(chats, counters, acks[0].id, acks[0].ok);
      RunSpendsEach(chats, now, acks[1..], id);
      var first := AckReply(chats, counters, acks[0].id, acks[0].ok);
      var rest := RunReplies(chats, now, acks[1..]);
      assert ([first] + rest)[1..] == rest;
    }
  }

  /** The replies from one transfer start on, to whatever the client answers. */
  function Transferred(chats: seq<int>, counters: map<int, int>, acks: seq<Ack>): seq<Reply> {
    [StartReply(chats, counters)] + RunReplies(chats, StartCounters(chats, counters), acks)
  }

  /** Whatever the session sent before and whatever the client replies, in whatever order and however
      often: from one transfer start to the next no room is sent more than three times, a room that is
      not among the user's chats never, and at most three packets a distinct chat go out in all. */
  lemma SendsAreBounded(chats: seq<int>, counters: map<int, int>, acks: seq<Ack>)
    ensures forall id :: SentOf(Transferred(chats, counters, acks), id) <= if id in chats then PACKET_FAIL_MAX else 0
    ensures Sent(Transferred(chats, counters, acks)) <= PACKET_FAIL_MAX * |set c | c in chats|
  {
    var rest := RunReplies(chats, StartCounters(chats, counters), acks);
    assert Transferred(chats, counters, acks)[1..] == rest;
    if chats == [] {
      EmptySendsNothing(counters, acks);
    } else {
      FirstCounts(chats, counters);
      var started := StartCounters(chats, counters);
      forall id ensures SentOf(Transferred(chats, counters, acks), id) <= if id in chats then PACKET_FAIL_MAX else 0 {
        RunSpendsEach(chats, started, acks, id);
        RunSpends(chats, started, acks);
      }
      RunSpends(chats, started, acks);
      SpentBounded(RunCounters(chats, started, acks), Counted(chats, started));
    }
  }

  lemma {:induction false} EmptySendsNothing(counters: map<int, int>, acks: seq<Ack>)
    ensures Sent(RunReplies([], counters, acks)) == 0
    ensures forall id :: SentOf(RunReplies([], counters, acks), id) == 0
  {
    if acks == [] {
    } else {
      EmptySendsNothing(counters, acks[1..]);
      var first := AckReply([], counters, acks[0].id, acks[0].ok);
      var rest := RunReplies([], counters, acks[1..]);
      assert ([first] + rest)[1..] == rest;
    }
  }

  /** A start resets what earlier transfers spent and counts the first room. */
  lemma FirstCounts(chats: seq<int>, counters: map<int, int>)
    requires chats != []
    ensures var started := StartCounters(chats, counters);
            && Capped(chats, started) && StartReply(chats, counters) == RoomSent(chats[0])
            && Counted(chats, started) == (set c | c in chats)
            && (forall c :: c in chats ==> c in started && started[c] == if c == chats[0] then 1 else 0)
            && Spent(started, Counted(chats, started)) == 1
  {
    var started := StartCounters(chats, counters);
    var keys := Counted(chats, started);
    assert chats[0] in chats;
    SpentWithout(started, keys, chats[0]);
    SpentZero(started, keys - {chats[0]});
  }

  lemma {:induction false} SpentZero(counters: map<int, int>, keys: set<int>)
    requires keys <= counters.Keys && forall k :: k in keys ==> counters[k] == 0
    ensures Spent(counters, keys) == 0
    decreases keys
  {
    if k :| k in keys {
      SpentWithout(counters, keys, k);
      SpentZero(counters, keys - {k});
    }
  }

  // ---------------------------------------------------------------- the client that acknowledges

  /** The replies to a client that acknowledges every room packet it gets, from the packet for id on;
      it ends because every packet spends a counter. */
  ghost function Walk(chats: seq<int>, counters: map<int, int>, id: int): seq<Reply>
    requires Capped(chats, counters)
    decreases PACKET_FAIL_MAX * |Counted(chats, counters)| - Spent(counters, Counted(chats, counters))
  {
    var now := AckCounters(chats, counters, id, true);
    AckSpends(chats, counters, id, true);
    SpentBounded(counters, Counted(chats, counters));
    SpentBounded(now, Counted(chats, now));
    assert Counted(chats, now) == Counted(chats, counters);
    var reply := AckReply(chats, counters, id, true);
    if reply.RoomSent? then [reply] + Walk(chats, now, reply.id) else [reply]
  }

  /** One whole transfer, whatever earlier ones of the session left in the counters. */
  ghost function Session(chats: seq<int>, counters: map<int, int>): seq<Reply> {
    if chats == [] then [Done]
    else
      FirstCounts(chats, counters);
      [StartReply(chats, counters)] + Walk(chats, StartCounters(chats, counters), chats[0])
  }

  function InOrder(chats: seq<int>): seq<Reply> {
    if chats == [] then [Done] else [RoomSent(chats[0])] + InOrder(chats[1..])
  }

  lemma {:induction false} NextAfterFirst(chats: seq<int>, f: nat)
    requires f < |chats| && chats[f] !in chats[..f]
    ensures NextRoom(chats, chats[f]) == if f == |chats| - 1 then Last else Then(chats[f + 1])
  {
    if f == 0 {
    } else {
      assert chats[0] in chats[..f];
      assert chats[1..][..f - 1] == chats[1..f];
      assert forall x :: x in chats[1..f] ==> x in chats[..f];
      NextAfterFirst(chats[1..], f - 1);
    }
  }

  /** With distinct chats, acknowledging chat k brings the rest in list order and then the end. */
  lemma {:induction false} WalkInOrder(chats: seq<int>, counters: map<int, int>, k: nat)
    requires NoDup(chats) && k < |chats| && Capped(chats, counters)
    requires forall j :: 0 <= j < |chats| ==> chats[j] in counters
    requires forall j :: k < j < |chats| ==> counters[chats[j]] == 0
    ensures Walk(chats, counters, chats[k]) == InOrder(chats[k + 1..])
    decreases |chats| - k
  {
    NextAfterFirst(chats, k);
    AckSpends(chats, counters, chats[k], true);
    if k < |chats| - 1 {
      assert chats[k + 1] in chats && Sendable(chats, counters, chats[k + 1]);
      var now := AckCounters(chats, counters, chats[k], true);
      assert forall j :: k + 1 < j < |chats| ==> chats[j] != chats[k + 1];
      WalkInOrder(chats, now, k + 1);
      assert InOrder(chats[k + 1..]) == [RoomSent(chats[k + 1])] + InOrder(chats[k + 2..]) by {
        assert chats[k + 1..][1..] == chats[k + 2..];
      }
    } else {
      assert chats[k + 1..] == [];
    }
  }

  /** Once a chat repeats, the walk circles before the repetition until a counter is spent. */
  lemma {:induction false} WalkCircles(chats: seq<int>, counters: map<int, int>, f: nat, j: nat)
    requires f < j < |chats| && NoDup(chats[..j]) && chats[j] in chats[..j] && Capped(chats, counters)
    ensures var w := Walk(chats, counters, chats[f]);
            w != [] && Done !in w && w[|w| - 1].RoomFail?
    decreases PACKET_FAIL_MAX * |Counted(chats, counters)| - Spent(counters, Counted(chats, counters))
  {
    assert chats[f] !in chats[..f] by {
      assert forall i :: 0 <= i < f ==> chats[..j][i] != chats[..j][f];
    }
    NextAfterFirst(chats, f);
    AckSpends(chats, counters, chats[f], true);
    SpentBounded(counters, Counted(chats, counters));
    var now := AckCounters(chats, counters, chats[f], true);
    SpentBounded(now, Counted(chats, now));
    assert Counted(chats, now) == Counted(chats, counters);
    if !AckReply(chats, counters, chats[f], true).RoomSent? {
    } else {
      var g := if f + 1 < j then f + 1 else PositionOf(chats[..j], chats[j]);
      WalkCircles(chats, now, g, j);
    }
  }

  ghost function PositionOf(s: seq<int>, x: int): (i: nat)
    requires x in s
    ensures i < |s| && s[i] == x
  {
    var i :| 0 <= i < |s| && s[i] == x;
    i
  }

  lemma {:induction false} FirstRepetition(chats: seq<int>, n: nat) returns (j: nat)
    requires n <= |chats| && !NoDup(chats[..n])
    ensures j < |chats| && NoDup(chats[..j]) && chats[j] in chats[..j]
  {
    if NoDup(chats[..n - 1]) {
      j := n - 1;
      forall i, k | 0 <= i < k < n - 1 ensures chats[..n][i] != chats[..n][k] {
        assert chats[..n - 1][i] != chats[..n - 1][k];
      }
      var a, b :| 0 <= a < b < n && chats[..n][a] == chats[..n][b];
      assert chats[..j][a] == chats[j];
    } else {
      j := FirstRepetition(chats, n - 1);
    }
  }

  /** An acknowledged transfer delivers every chat once, in list order, and then reports the end,
      exactly when the chat list has no repetition; otherwise the end is never reported. */
  lemma TransferCompletes(chats: seq<int>, counters: map<int, int>)
    ensures NoDup(chats) ==> Session(chats, counters) == InOrder(chats)
    ensures !NoDup(chats) ==>
      var w := Session(chats, counters);
      w != [] && Done !in w && w[|w| - 1].RoomFail?
  {
    if chats == [] {
    } else {
      FirstCounts(chats, counters);
      TransferContinues(chats, StartCounters(chats, counters));
    }
  }

  lemma TransferContinues(chats: seq<int>, started: map<int, int>)
    requires chats != [] && Capped(chats, started)
    requires forall c :: c in chats ==> c in started && started[c] == if c == chats[0] then 1 else 0
    ensures NoDup(chats) ==> Walk(chats, started, chats[0]) == InOrder(chats[1..])
    ensures !NoDup(chats) ==>
      var w := Walk(chats, started, chats[0]);
      w != [] && Done !in w && w[|w| - 1].RoomFail?
  {
    hide Walk, InOrder;
    if NoDup(chats) {
      WalkInOrder(chats, started, 0);
    } else {
      assert chats[..|chats|] == chats;
      var j := FirstRepetition(chats, |chats|);
      assert j > 0;
      WalkCircles(chats, started, 0, j);
    }
  }

  /** The list is read anew at every reply.  A chat added to it during a transfer has no counter: the
      reply to the last of the old chats is then a failure and no end, while a reply that names the new
      chat is answered with the end, whatever is still to come. */
  lemma GrownListFails(chats: seq<int>, counters: map<int, int>, room: int)
    requires chats != [] && NoDup(chats) && room !in chats && room !in counters
    ensures AckReply(chats + [room], counters, chats[|chats| - 1], true) == RoomFail(room)
    ensures AckReply(chats + [room], counters, room, true) == Done
    ensures forall i :: 0 <= i < |chats| ==> AckReply(chats + [room], counters, chats[i], true) != Done
  {
    var grown := chats + [room];
    forall i | 0 <= i < |chats| ensures NextRoom(grown, chats[i]) == Then(grown[i + 1]) {
      assert grown[i] == chats[i] && chats[i] !in grown[..i];
      NextAfterFirst(grown, i);
    }
    assert grown[..|chats|] == chats;
    NextAfterFirst(grown, |chats|);
  }

  function Repeated(ack: Ack, n: nat): (acks: seq<Ack>)
    ensures |acks| == n && forall i :: 0 <= i < n ==> acks[i] == ack
  {
    seq(n, _ => ack)
  }

  /** The cap is reached and not only kept: a client that acknowledges the same room over and over gets
      the next one three times, and not again. */
  lemma CapIsReached(chats: seq<int>, counters: map<int, int>, k: nat, n: nat)
    requires NoDup(chats) && k + 1 < |chats|
    ensures SentOf(Transferred(chats, counters, Repeated(Ack(chats[k], true), n)), chats[k + 1])
         == if n < PACKET_FAIL_MAX then n else PACKET_FAIL_MAX
  {
    FirstCounts(chats, counters);
    var started := StartCounters(chats, counters);
    assert chats[k + 1] in chats && chats[k + 1] != chats[0];
    assert chats[k] !in chats[..k];
    NextAfterFirst(chats, k);
    CapCounts(chats, started, chats[k], chats[k + 1], n);
    var rest := RunReplies(chats, started, Repeated(Ack(chats[k], true), n));
    assert Transferred(chats, counters, Repeated(Ack(chats[k], true), n))[1..] == rest;
  }

  lemma {:induction false} CapCounts(chats: seq<int>, counters: map<int, int>, id: int, next: int, n: nat)
    requires NextRoom(chats, id) == Then(next) && next in chats && next in counters
    requires 0 <= counters[next] <= PACKET_FAIL_MAX
    ensures SentOf(RunReplies(chats, counters, Repeated(Ack(id, true), n)), next)
         == if n < PACKET_FAIL_MAX - counters[next] then n else PACKET_FAIL_MAX - counters[next]
    decreases n
  {
    var acks := Repeated(Ack(id, true), n);
    if n == 0 {
    } else {
      var now := AckCounters(chats, counters, id, true);
      assert acks[1..] == Repeated(Ack(id, true), n - 1);
      CapCounts(chats, now, id, next, n - 1);
      var rest := RunReplies(chats, now, acks[1..]);
      assert ([AckReply(chats, counters, id, true)] + rest)[1..] == rest;
    }
  }

  /** A reply about no room, or one too short for a session, is a plain failure; one whose session is
      not 16 characters long is a failure for its room.  Neither moves a counter. */
  lemma MalformedReplies(chats: seq<int>, counters: map<int, int>, front: string, id: int)
    ensures id == 0 || |front| + |Show(id)| + 4 < 26 ==>
      PacketReply(chats, counters, front + [SEMI] + Show(id) + [SEMI] + "ok") == Fail
    ensures id != 0 && |front| + |Show(id)| + 4 >= 26
            && ExtractSession(front + [SEMI] + Show(id) + [SEMI] + "ok").None? ==>
      PacketReply(chats, counters, front + [SEMI] + Show(id) + [SEMI] + "ok") == RoomFail(id)
    ensures id == 0 || ExtractSession(front + [SEMI] + Show(id) + [SEMI] + "ok").None? ==>
      PacketCounters(chats, counters, front + [SEMI] + Show(id) + [SEMI] + "ok") == counters
  {
    hide ExtractRoomState, ExtractSession, Show;
    RoomStateExactly(front, id, "ok");
  }
}
