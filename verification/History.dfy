/**
  What becomes of a printed history in a client, packet by packet.  How a packet is read depends on
  whether the login is still pending when it arrives: as a batch while it is, as one message after.
*/
module History {
  import opened Base
  import opened Text
  import opened Codec
  import opened Packets
  import opened Rooms

  /** What a batch can carry: neither an empty text nor one with a semicolon. */
  ghost predicate AllCarriable(ms: seq<Printed>) {
    forall m :: m in ms ==> m.text != "" && Plain(m.text)
  }

  // ---------------------------------------------------------------- packets read after the login

  /** Read live, a batch gives its first message and nothing else. */
  lemma LiveBatch(ms: seq<Printed>, free: nat)
    requires ms != [] && PlainSenders(ms)
    ensures Arriving(Parts(ms), false, free) == if ms[0].text == "" then None else Some([Kept(ms[0])])
  {
    hide Decode, MessagePart;
    DecodePart(ms[0], Parts(ms[1..]));
  }

  /** What a client stores for a continuation read live: every field one place further on. */
  function Shifted(ms: seq<Printed>): MsgData
    requires ms != [] && ms[0].date >= 1
  {
    var m := ms[0];
    var rest := Show(|m.text|) + [SEMI] + (m.text + [SEMI] + Parts(ms[1..]));
    MsgData(0, Clip(Show(m.id), NAME_MAX_SIZE - 1),
            Atoi(m.sender + [SEMI] + (Show(m.date) + [SEMI] + rest)), Clip(rest, Shorter(m.date)))
  }

  /** Read live, a continuation is not refused: the stray semicolon shifts its fields, and the date
      stands where the length should. */
  lemma LiveContinuation(ms: seq<Printed>, free: nat)
    requires ms != [] && PlainSenders(ms)
    ensures Arriving([SEMI] + Parts(ms), false, free) == if ms[0].date < 1 then None else Some([Shifted(ms)])
  {
    hide Decode, After, Field, Atoi, Show;
    var m := ms[0];
    var rest := Show(|m.text|) + [SEMI] + (m.text + [SEMI] + Parts(ms[1..]));
    var p3 := Show(m.date) + [SEMI] + rest;
    var p2 := m.sender + [SEMI] + p3;
    var p1 := Show(m.id) + [SEMI] + p2;
    var p := [SEMI] + p1;
    assert Parts(ms) == p1;
    assert p == "" + [SEMI] + p1;
    Split("", p1);
    NumberField(m.id, p2);
    Split(m.sender, p3);
    NumberField(m.date, rest);
    NoNumber(p1);
    DecodeFields(p, p1, p2, p3, rest);
  }

  lemma NoNumber(rest: string)
    ensures Atoi([SEMI] + rest) == 0
  {
    assert ([SEMI] + rest)[0] == SEMI;
  }

  // ---------------------------------------------------------------- packet by packet

  /** The room after these packets, each with the state of the login at its arrival. */
  function FedAll(r: RoomData, packets: seq<string>, pending: seq<bool>): (t: RoomData)
    requires Bounded(r) && |pending| == |packets|
    ensures Bounded(t) && t.id == r.id
    decreases |packets|
  {
    if packets == [] then r
    else
      var n := |packets| - 1;
      FedRoom(FedAll(r, packets[..n], pending[..n]), packets[n], pending[n])
  }

  lemma PacketBody(room: int, ms: seq<Printed>, packets: seq<string>, groups: seq<seq<Printed>>, k: nat)
    requires room >= 1 && Packing(room, ms, packets, groups) && k < |packets|
    ensures Payload(packets[k]) == Some((room, if k == 0 then Parts(groups[0]) else [SEMI] + Parts(groups[k])))
  {
    hide MessagePart, RoomPrefix, Parts, After, Atoi, Skip;
    var body := if k == 0 then Parts(groups[0]) else [SEMI] + Parts(groups[k]);
    assert packets[k] == RoomPrefix(room) + body;
    PrefixSkipped(room, body);
    NumberField(room, body);
  }

  lemma PackedGroups(room: int, ms: seq<Printed>, packets: seq<string>, groups: seq<seq<Printed>>)
    requires Packing(room, ms, packets, groups)
    ensures |groups| == |packets| && Flatten(groups) == ms && forall k :: 0 <= k < |groups| ==> groups[k] != []
  {
    hide Flatten, Render, MessagePart;
  }

  lemma GroupIsCarriable(ms: seq<Printed>, groups: seq<seq<Printed>>, k: nat)
    requires Flatten(groups) == ms && k < |groups| && PlainSenders(ms) && AllCarriable(ms)
    ensures PlainSenders(groups[k]) && AllCarriable(groups[k])
  {
    GroupMembers(groups, k);
  }

  lemma FirstShape(room: int, ms: seq<Printed>, packets: seq<string>, groups: seq<seq<Printed>>)
    requires ms != [] && Packing(room, ms, packets, groups)
    ensures |packets| >= 1 && |groups| == |packets| && 1 <= |groups[0]| <= |ms| && groups[0][0] == ms[0]
    ensures |ms| >= |groups[0]| + |packets| - 1
  {
    hide *;
    PackedGroups(room, ms, packets, groups);
    OnePacket(room, ms, packets, groups);
    FirstGroup(groups);
    assert ms[..|groups[0]|][0] == ms[0];
  }

  /** The first packet of a history, in the room announced for it. */
  lemma FirstFed(r: RoomData, ms: seq<Printed>, packets: seq<string>, groups: seq<seq<Printed>>, pending: bool)
    requires Bounded(r) && r.id >= 1 && r.msgIter == 0 && r.msgAmount == |ms|
    requires ms != [] && Packing(r.id, ms, packets, groups) && PlainSenders(ms) && AllCarriable(ms)
    ensures |packets| >= 1 && 1 <= |groups[0]| <= |ms| && groups[0][0] == ms[0]
    ensures Log(FedRoom(r, packets[0], pending)) == if pending then KeptAll(groups[0]) else [Kept(ms[0])]
  {
    hide *;
    FirstShape(r.id, ms, packets, groups);
    PackedGroups(r.id, ms, packets, groups);
    PacketBody(r.id, ms, packets, groups, 0);
    GroupIsCarriable(ms, groups, 0);
    assert FreeCells(r) == |ms| by { AllFree(r); }
    FirstRead(groups[0], |ms|, pending);
    assert |Log(r)| == 0;
    FedAs(r, packets[0], Parts(groups[0]), pending);
  }

  lemma AllFree(r: RoomData)
    requires Bounded(r) && r.msgIter == 0
    ensures FreeCells(r) == r.msgAmount
  {
  }

  lemma FirstRead(ms: seq<Printed>, free: nat, pending: bool)
    requires ms != [] && |ms| <= free && PlainSenders(ms) && AllCarriable(ms)
    ensures Arriving(Parts(ms), pending, free) == Some(if pending then KeptAll(ms) else [Kept(ms[0])])
  {
    hide *;
    FirstIsCarriable(ms);
    if pending { BatchFits(ms, free); } else { LiveBatch(ms, free); }
  }

  lemma FirstIsCarriable(ms: seq<Printed>)
    requires ms != [] && AllCarriable(ms)
    ensures ms[0].text != ""
  {
    assert ms[0] in ms;
  }

  lemma FedAs(r: RoomData, packet: string, body: string, pending: bool)
    requires Bounded(r) && Payload(packet) == Some((r.id, body))
    ensures Log(FedRoom(r, packet, pending)) == Log(r) + match Arriving(body, pending, FreeCells(r))
                                                         case None => []
                                                         case Some(ms) => ms
  {
    hide Arriving, Payload, Appended, Log;
    if Arriving(body, pending, FreeCells(r)).None? {
      assert Log(r) + [] == Log(r);
    }
  }

  lemma BatchFits(ms: seq<Printed>, free: nat)
    requires ms != [] && |ms| <= free && PlainSenders(ms) && AllCarriable(ms)
    ensures Arriving(Parts(ms), true, free) == Some(KeptAll(ms))
  {
    hide Decode, DecodeNext, MessagePart, Parts, Kept, Count;
    PartsCount(ms);
    TextSemisPlain(ms);
    FirstPacketExact(ms);
    FifthOf(|ms|, 0);
  }

  lemma {:induction false} FirstGroup(groups: seq<seq<Printed>>)
    requires groups != [] && forall k :: 0 <= k < |groups| ==> groups[k] != []
    ensures |Flatten(groups)| >= |groups[0]| + |groups| - 1 && Flatten(groups)[..|groups[0]|] == groups[0]
  {
    var n := |groups| - 1;
    if n == 0 {
      assert groups == [] + [groups[0]];
      FlattenAppend([], groups[0]);
      assert Flatten(groups) == groups[0];
    } else {
      FirstGroup(groups[..n]);
      assert Flatten(groups) == Flatten(groups[..n]) + groups[n];
    }
  }

  /** A continuation adds nothing, or a message no server ever numbered. */
  lemma ContinuationFed(r: RoomData, ms: seq<Printed>, packets: seq<string>, groups: seq<seq<Printed>>,
                        k: nat, pending: bool)
    requires Bounded(r) && r.id >= 1 && 0 < k < |packets|
    requires Packing(r.id, ms, packets, groups) && PlainSenders(ms) && AllCarriable(ms)
    ensures k < |groups| && groups[k] != []
    ensures Log(FedRoom(r, packets[k], pending))
         == Log(r) + if pending || groups[k][0].date < 1 then [] else [Shifted(groups[k])]
  {
    hide *;
    var free := FreeCells(r);
    PackedGroups(r.id, ms, packets, groups);
    PacketBody(r.id, ms, packets, groups, k);
    GroupIsCarriable(ms, groups, k);
    ContinuationRead(groups[k], free, pending);
    FedAs(r, packets[k], [SEMI] + Parts(groups[k]), pending);
  }

  function FreeCells(r: RoomData): nat
    requires Bounded(r)
  {
    r.msgAmount - r.msgIter
  }

  lemma ContinuationRead(ms: seq<Printed>, free: nat, pending: bool)
    requires ms != [] && PlainSenders(ms) && AllCarriable(ms)
    ensures Arriving([SEMI] + Parts(ms), pending, free)
         == if pending || ms[0].date < 1 then None else Some([Shifted(ms)])
  {
    hide *;
    if pending { ContinuationRefused(ms, free); } else { LiveContinuation(ms, free); }
  }

  lemma ContinuationRefused(ms: seq<Printed>, free: nat)
    requires ms != [] && PlainSenders(ms) && AllCarriable(ms)
    ensures Arriving([SEMI] + Parts(ms), true, free) == None
  {
    hide *;
    ContinuationPacket(ms);
    CarriableSemis(ms);
    Uncountable([SEMI] + Parts(ms), free);
  }

  lemma CarriableSemis(ms: seq<Printed>)
    requires AllCarriable(ms)
    ensures TextSemis(ms) == 0
  {
    hide TextSemis, Plain;
    TextSemisPlain(ms);
  }

  lemma Uncountable(payload: string, free: nat)
    requires !Countable(payload)
    ensures Arriving(payload, true, free) == None
  {
    hide Countable;
  }

  /** After the first packet only messages with id 0 are added. */
  lemma {:induction false} OnlyTheFirstCounts(r: RoomData, ms: seq<Printed>, packets: seq<string>,
                                              groups: seq<seq<Printed>>, pending: seq<bool>, n: nat)
    requires Bounded(r) && r.id >= 1 && 1 <= n <= |packets| == |pending|
    requires Packing(r.id, ms, packets, groups) && PlainSenders(ms) && AllCarriable(ms)
    ensures var first := Log(FedRoom(r, packets[0], pending[0]));
            var log := Log(FedAll(r, packets[..n], pending[..n]));
            first <= log && forall i :: |first| <= i < |log| ==> log[i].id == 0
    decreases n
  {
    hide FedRoom, Packing, AllCarriable, PlainSenders;
    assert packets[..n][..n - 1] == packets[..n - 1] && pending[..n][..n - 1] == pending[..n - 1];
    if n == 1 {
      assert FedAll(r, packets[..0], pending[..0]) == r;
    } else {
      OnlyTheFirstCounts(r, ms, packets, groups, pending, n - 1);
      ContinuationFed(FedAll(r, packets[..n - 1], pending[..n - 1]), ms, packets, groups, n - 1, pending[n - 1]);
    }
  }

  /** Exactly when a history fills the room announced for it: it fits one packet, and that packet is
      read while the login is pending, or holds only one message. */
  lemma ArrivesExactly(r: RoomData, ms: seq<Printed>, packets: seq<string>, groups: seq<seq<Printed>>,
                       pending: seq<bool>)
    requires Bounded(r) && r.id >= 1 && r.msgIter == 0 && r.msgAmount == |ms| && |pending| == |packets|
    requires ms != [] && Packing(r.id, ms, packets, groups) && PlainSenders(ms) && AllCarriable(ms)
    requires forall m :: m in ms ==> m.id >= 1
    ensures |packets| >= 1
    ensures Log(FedAll(r, packets, pending)) == KeptAll(ms) <==> |packets| == 1 && (pending[0] || |ms| == 1)
  {
    hide *;
    PackedGroups(r.id, ms, packets, groups);
    FirstShape(r.id, ms, packets, groups);
    assert packets[..|packets|] == packets && pending[..|packets|] == pending;
    FirstFed(r, ms, packets, groups, pending[0]);
    OnlyTheFirstCounts(r, ms, packets, groups, pending, |packets|);
    var first := Log(FedRoom(r, packets[0], pending[0]));
    var log := Log(FedAll(r, packets, pending));
    if |packets| == 1 {
      OnePacketFed(r, packets, pending);
      OneGroup(groups);
      if |ms| == 1 { assert KeptAll(ms) == [Kept(ms[0])]; }
    } else if log == KeptAll(ms) {
      assert |first| < |log| && log[|first|] == Kept(ms[|first|]) && ms[|first|] in ms;
      KeptId(ms[|first|]);
      assert false;
    }
  }

  lemma KeptId(m: Printed)
    ensures Kept(m).id == m.id
  {
  }

  lemma OneGroup(groups: seq<seq<Printed>>)
    requires |groups| == 1
    ensures Flatten(groups) == groups[0]
  {
    assert groups == [] + [groups[0]];
    FlattenAppend([], groups[0]);
  }

  lemma OnePacketFed(r: RoomData, packets: seq<string>, pending: seq<bool>)
    requires Bounded(r) && |packets| == |pending| == 1
    ensures FedAll(r, packets, pending) == FedRoom(r, packets[0], pending[0])
  {
    assert FedAll(r, packets[..0], pending[..0]) == r;
  }
}
