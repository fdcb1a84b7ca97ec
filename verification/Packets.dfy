/**
  Packing a room's history into packets of bounded size, and how much of it the client can read back.
*/
module Packets {
  import opened Base
  import opened Text
  import opened Codec

  /** Packet number k: a continuation carries one semicolon between the prefix and its messages. */
  function Render(room: int, k: nat, group: seq<Printed>): string {
    Lead(room, k) + Parts(group)
  }

  function Lead(room: int, k: nat): string {
    RoomPrefix(room) + if k == 0 then "" else [SEMI]
  }

  function Flatten(groups: seq<seq<Printed>>): seq<Printed> {
    if groups == [] then [] else Flatten(groups[..|groups| - 1]) + groups[|groups| - 1]
  }

  /** A message that fits a packet of its own, so that no copy into the buffer is cut. */
  predicate FitsAlone(room: int, m: Printed) {
    |RoomPrefix(room)| + 1 + |MessagePart(m)| <= PACKET_MAX_SIZE
  }

  /** The packets carry consecutive groups of the history, each group as large as it can be. */
  ghost predicate Packing(room: int, ms: seq<Printed>, packets: seq<string>, groups: seq<seq<Printed>>) {
    && |packets| == |groups| && Flatten(groups) == ms
    && (forall k :: 0 <= k < |groups| ==>
         && groups[k] != [] && packets[k] == Render(room, k, groups[k])
         && |packets[k]| <= PACKET_MAX_SIZE && (|groups[k]| > 1 ==> |packets[k]| < PACKET_MAX_SIZE))
    && (forall k :: 0 < k < |groups| ==> |packets[k - 1]| + |MessagePart(groups[k][0])| >= PACKET_MAX_SIZE)
  }

  lemma {:induction false} PartsAppend(ms: seq<Printed>, m: Printed)
    ensures Parts(ms + [m]) == Parts(ms) + MessagePart(m)
  {
    hide MessagePart;
    if ms == [] {
      assert ms + [m] == [m] && Parts([m][1..]) == "";
    } else {
      PartsAppend(ms[1..], m);
      assert (ms + [m])[1..] == ms[1..] + [m];
    }
  }

  lemma {:induction false} PartsConcat(a: seq<Printed>, b: seq<Printed>)
    ensures Parts(a + b) == Parts(a) + Parts(b)
  {
    hide MessagePart;
    if b == [] {
      assert a + b == a;
    } else {
      var n := |b| - 1;
      assert a + b == (a + b[..n]) + [b[n]];
      assert b == b[..n] + [b[n]];
      PartsConcat(a, b[..n]);
      PartsAppend(a + b[..n], b[n]);
      PartsAppend(b[..n], b[n]);
    }
  }

  lemma FlattenAppend(groups: seq<seq<Printed>>, g: seq<Printed>)
    ensures Flatten(groups + [g]) == Flatten(groups) + g
  {
    assert (groups + [g])[..|groups|] == groups;
  }

  lemma ClosePacket(room: int, packets: seq<string>, groups: seq<seq<Printed>>, packet: string, current: seq<Printed>)
    requires Packing(room, Flatten(groups), packets, groups) && current != []
    requires packet == Render(room, |groups|, current)
    requires |packet| <= PACKET_MAX_SIZE && (|current| > 1 ==> |packet| < PACKET_MAX_SIZE)
    requires |groups| > 0 ==> |packets[|groups| - 1]| + |MessagePart(current[0])| >= PACKET_MAX_SIZE
    ensures Packing(room, Flatten(groups) + current, packets + [packet], groups + [current])
  {
    hide MessagePart, Render;
    FlattenAppend(groups, current);
  }

  lemma ExtendRender(room: int, k: nat, g: seq<Printed>, m: Printed)
    ensures Render(room, k, g) + MessagePart(m) == Render(room, k, g + [m])
    ensures Render(room, 0, []) == RoomPrefix(room)
    ensures k > 0 ==> RoomPrefix(room) + [SEMI] + MessagePart(m) == Render(room, k, [m])
  {
    hide MessagePart, RoomPrefix;
    PartsAppend(g, m);
    PartsAppend([], m);
    assert [] + [m] == [m];
  }

  /** The loop's state after some messages: closed packets, and one being filled. */
  ghost predicate Filling(room: int, taken: seq<Printed>, packets: seq<string>, groups: seq<seq<Printed>>,
                          packet: string, current: seq<Printed>) {
    && Packing(room, Flatten(groups), packets, groups)
    && Flatten(groups) + current == taken
    && packet == Render(room, |groups|, current)
    && |packet| <= PACKET_MAX_SIZE && (|current| > 1 ==> |packet| < PACKET_MAX_SIZE)
    && (groups != [] ==> current != [] && |packets[|groups| - 1]| + |MessagePart(current[0])| >= PACKET_MAX_SIZE)
    && |groups| + (if current == [] then 0 else 1) <= |taken|
  }

  lemma FillingAppend(room: int, taken: seq<Printed>, packets: seq<string>, groups: seq<seq<Printed>>,
                      packet: string, current: seq<Printed>, m: Printed)
    requires Filling(room, taken, packets, groups, packet, current)
    requires |packet| + |MessagePart(m)| < PACKET_MAX_SIZE
    ensures Filling(room, taken + [m], packets, groups, packet + MessagePart(m), current + [m])
  {
    hide MessagePart, Render, Packing;
    ExtendRender(room, |groups|, current, m);
  }

  lemma FillingFlush(room: int, taken: seq<Printed>, packets: seq<string>, groups: seq<seq<Printed>>,
                     packet: string, current: seq<Printed>, m: Printed)
    requires Filling(room, taken, packets, groups, packet, current) && FitsAlone(room, m)
    requires |packet| + |MessagePart(m)| >= PACKET_MAX_SIZE
    ensures Filling(room, taken + [m], packets + [packet], groups + [current],
                    RoomPrefix(room) + [SEMI] + MessagePart(m), [m])
  {
    hide MessagePart, Render;
    ExtendRender(room, |groups| + 1, [], m);
    ExtendRender(room, |groups|, [], m);
    ClosePacket(room, packets, groups, packet, current);
    FlattenAppend(groups, current);
  }

  /** `get_room_message_packets`: the caller asks only for rooms with messages, and the array of
      pointers, sized for one packet a message, is never overrun. */
  method RoomMessagePackets(room: int, ms: seq<Printed>) returns (packets: seq<string>, ghost groups: seq<seq<Printed>>)
    requires ms != [] && forall m :: m in ms ==> FitsAlone(room, m)
    ensures Packing(room, ms, packets, groups)
  {
    hide MessagePart, Render, Packing, RoomPrefix;
    var prefix := RoomPrefix(room);
    var temp := new string[|ms|];
    var counter := 0;
    var packet := prefix;
    ghost var current: seq<Printed> := [];
    groups := [];
    EmptyFilling(room, ms[0]);
    assert FitsAlone(room, ms[0]);
    for i := 0 to |ms|
      invariant counter == |groups| && (i > 0 ==> current != []) && counter <= i
      invariant Filling(room, ms[..i], temp[..counter], groups, packet, current)
    {
      var part := MessagePart(ms[i]);
      assert ms[i] in ms && FitsAlone(room, ms[i]);
      assert ms[..i + 1] == ms[..i] + [ms[i]];
      if |packet| + |part| >= PACKET_MAX_SIZE {
        FillingFlush(room, ms[..i], temp[..counter], groups, packet, current, ms[i]);
        temp[counter] := packet;
        assert temp[..counter + 1] == temp[..counter] + [packet];
        counter := counter + 1;
        packet := prefix + [SEMI] + part;
        groups, current := groups + [current], [ms[i]];
      } else {
        FillingAppend(room, ms[..i], temp[..counter], groups, packet, current, ms[i]);
        packet := packet + part;
        current := current + [ms[i]];
      }
    }
    assert ms[..|ms|] == ms;
    ClosePacket(room, temp[..counter], groups, packet, current);
    temp[counter] := packet;
    assert temp[..counter + 1] == temp[..counter] + [packet];
    counter := counter + 1;
    groups := groups + [current];
    packets := temp[..counter];
  }

  lemma EmptyFilling(room: int, m: Printed)
    requires FitsAlone(room, m)
    ensures Filling(room, [], [], [], RoomPrefix(room), [])
  {
    hide MessagePart;
    ExtendRender(room, 0, [], m);
  }

  // ---------------------------------------------------------------- what packing keeps

  /** The packets' bodies, one after the other. */
  ghost function Bodies(room: int, packets: seq<string>): string
    requires forall k :: 0 <= k < |packets| ==> |Lead(room, k)| <= |packets[k]|
  {
    if packets == [] then ""
    else
      var k := |packets| - 1;
      Bodies(room, packets[..k]) + packets[k][|Lead(room, k)|..]
  }

  /** Taking prefix and stray semicolon off every packet leaves the printed history, in order, cut
      only between messages. */
  lemma {:induction false} PackingConserves(room: int, packets: seq<string>, groups: seq<seq<Printed>>)
    requires |packets| == |groups| && forall k :: 0 <= k < |groups| ==> packets[k] == Render(room, k, groups[k])
    ensures forall k :: 0 <= k < |packets| ==> |Lead(room, k)| <= |packets[k]|
    ensures Bodies(room, packets) == Parts(Flatten(groups))
    decreases |packets|
  {
    if packets != [] {
      hide MessagePart, RoomPrefix, Parts;
      var k := |packets| - 1;
      PackingConserves(room, packets[..k], groups[..k]);
      PartsConcat(Flatten(groups[..k]), groups[k]);
      assert packets[k][|Lead(room, k)|..] == Parts(groups[k]);
    } else {
      assert Parts([]) == "";
    }
  }

  /** The sizes the system's names, numbers and messages have. */
  predicate Ordinary(m: Printed) {
    && 0 <= m.id < 0x8000_0000 && -0x8000_0000_0000_0000 <= m.date < 0x8000_0000_0000_0000
    && |m.sender| <= NAME_MAX_SIZE && |m.text| <= MESSAGE_MAX_SIZE
  }

  lemma ShowBounds(n: int)
    ensures 0 <= n < 1000 ==> |Show(n)| <= 3
    ensures 0 <= n < 0x8000_0000 ==> |Show(n)| <= 10
    ensures -0x8000_0000_0000_0000 <= n < 0x8000_0000_0000_0000 ==> |Show(n)| <= 20
  {
    TenPowers();
    var m: nat := if n < 0 then -n else n;
    if m < 1000 { DigitsBound(m, 3); }
    if m < 0x8000_0000 { DigitsBound(m, 10); }
    if m <= 0x8000_0000_0000_0000 { DigitsBound(m, 19); }
  }

  lemma TenPowers()
    ensures Pow10(3) == 1000 && Pow10(10) == 10_000_000_000 && Pow10(19) == 10_000_000_000_000_000_000
  {
    assert Pow10(1) == 10 && Pow10(2) == 100 && Pow10(3) == 1000 && Pow10(4) == 10_000 && Pow10(5) == 100_000;
    assert Pow10(6) == 1_000_000 && Pow10(7) == 10_000_000 && Pow10(8) == 100_000_000 && Pow10(9) == 1_000_000_000;
    assert Pow10(10) == 10_000_000_000 && Pow10(11) == 100_000_000_000 && Pow10(12) == 1_000_000_000_000;
    assert Pow10(13) == 10_000_000_000_000 && Pow10(14) == 100_000_000_000_000 && Pow10(15) == 1_000_000_000_000_000;
    assert Pow10(16) == 10_000_000_000_000_000 && Pow10(17) == 100_000_000_000_000_000;
    assert Pow10(18) == 1_000_000_000_000_000_000;
  }

  lemma PartBound(room: int, m: Printed)
    requires Ordinary(m) && 0 <= room < 0x8000_0000
    ensures |MessagePart(m)| <= 442 && |RoomPrefix(room)| <= 16
    ensures FitsAlone(room, m)
  {
    ShowBounds(m.id);
    ShowBounds(m.date);
    ShowBounds(|m.text|);
    ShowBounds(room);
  }

  /** With ordinary messages every packet is shorter than 1024, all but the last hold at least two
      messages, and there are at most half as many packets as messages, rounded up. */
  lemma PackingIsTight(room: int, ms: seq<Printed>, packets: seq<string>, groups: seq<seq<Printed>>)
    requires Packing(room, ms, packets, groups) && 0 <= room < 0x8000_0000 && forall m :: m in ms ==> Ordinary(m)
    ensures forall k :: 0 <= k < |packets| ==> |packets[k]| < PACKET_MAX_SIZE
    ensures forall k :: 0 <= k < |packets| - 1 ==> |groups[k]| >= 2
    ensures |packets| <= (|ms| + 1) / 2
  {
    hide MessagePart, RoomPrefix;
    forall k | 0 <= k < |groups|
      ensures |packets[k]| < PACKET_MAX_SIZE && (k < |groups| - 1 ==> |groups[k]| >= 2)
    {
      GroupMembers(groups, k);
      PartBound(room, groups[k][0]);
      if |groups[k]| == 1 {
        assert groups[k] == [groups[k][0]];
        PartsAppend([], groups[k][0]);
        assert Parts(groups[k]) == MessagePart(groups[k][0]);
        if k + 1 < |groups| {
          GroupMembers(groups, k + 1);
          PartBound(room, groups[k + 1][0]);
        }
      }
    }
    PairsOrMore(groups);
  }

  lemma {:induction false} GroupMembers(groups: seq<seq<Printed>>, k: nat)
    requires k < |groups|
    ensures forall m :: m in groups[k] ==> m in Flatten(groups)
  {
    if k == |groups| - 1 {
    } else {
      GroupMembers(groups[..|groups| - 1], k);
    }
  }

  lemma {:induction false} PairsOrMore(groups: seq<seq<Printed>>)
    requires forall k :: 0 <= k < |groups| ==> groups[k] != []
    requires forall k :: 0 <= k < |groups| - 1 ==> |groups[k]| >= 2
    ensures groups != [] ==> |Flatten(groups)| >= 2 * (|groups| - 1) + |groups[|groups| - 1]|
  {
    if |groups| <= 1 {
    } else {
      PairsOrMore(groups[..|groups| - 1]);
    }
  }

  lemma OnePacket(room: int, ms: seq<Printed>, packets: seq<string>, groups: seq<seq<Printed>>)
    requires Packing(room, ms, packets, groups) && ms != []
    ensures |packets| >= 1
    ensures |packets| == 1 <==> |RoomPrefix(room)| + |Parts(ms)| < PACKET_MAX_SIZE || |ms| == 1
  {
    hide MessagePart, RoomPrefix;
    if |groups| == 1 {
      assert groups == [] + [groups[0]];
      FlattenAppend([], groups[0]);
      assert groups[0] == ms;
    } else {
      TwoGroups(groups);
    }
  }

  /** The first group and the next message are part of the history. */
  lemma {:induction false} TwoGroups(groups: seq<seq<Printed>>)
    requires |groups| >= 2 && groups[0] != [] && groups[1] != []
    ensures |Flatten(groups)| >= 2
    ensures |Parts(Flatten(groups))| >= |Parts(groups[0])| + |MessagePart(groups[1][0])|
  {
    hide MessagePart;
    var n := |groups| - 1;
    PartsConcat(Flatten(groups[..n]), groups[n]);
    if n == 1 {
      assert groups[..n] == [] + [groups[0]];
      FlattenAppend([], groups[0]);
      assert Flatten(groups[..n]) == groups[0];
    } else {
      TwoGroups(groups[..n]);
    }
  }

  /** Read as batches, that is while the login is pending: a history of non-empty, semicolon-free texts
      arrives whole exactly when it fits one packet, since the first packet is read back in full and
      every continuation is refused.  Module History has the packets that arrive later, too. */
  lemma ArrivesWhole(room: int, ms: seq<Printed>, packets: seq<string>, groups: seq<seq<Printed>>)
    requires Packing(room, ms, packets, groups) && ms != [] && PlainSenders(ms)
    requires forall m :: m in ms ==> m.text != "" && Plain(m.text)
    ensures forall k :: 0 <= k < |packets| ==>
      Skip(packets[k], 2).Some?
      && DecodeBatch(Skip(packets[k], 2).value) == if k == 0 then Some(KeptAll(groups[0])) else None
    ensures (forall k :: 0 <= k < |packets| ==> DecodeBatch(Skip(packets[k], 2).value).Some?) <==> |packets| == 1
    ensures |packets| == 1 <==> |RoomPrefix(room)| + |Parts(ms)| < PACKET_MAX_SIZE || |ms| == 1
  {
    hide Skip, DecodeBatch, Parts;
    forall k | 0 <= k < |packets|
      ensures Skip(packets[k], 2).Some?
      ensures DecodeBatch(Skip(packets[k], 2).value) == if k == 0 then Some(KeptAll(groups[0])) else None
    {
      PacketReadBack(room, ms, packets, groups, k);
    }
    OnePacket(room, ms, packets, groups);
  }

  lemma PacketReadBack(room: int, ms: seq<Printed>, packets: seq<string>, groups: seq<seq<Printed>>, k: nat)
    requires Packing(room, ms, packets, groups) && PlainSenders(ms) && k < |packets|
    requires forall m :: m in ms ==> m.text != "" && Plain(m.text)
    ensures Skip(packets[k], 2).Some?
    ensures DecodeBatch(Skip(packets[k], 2).value) == if k == 0 then Some(KeptAll(groups[0])) else None
  {
    hide MessagePart, RoomPrefix, DecodeBatch, Skip, Parts, After, Atoi;
    GroupMembers(groups, k);
    if k == 0 {
      assert packets[k] == RoomPrefix(room) + Parts(groups[k]);
      PrefixSkipped(room, Parts(groups[k]));
      FirstPacketExact(groups[k]);
    } else {
      assert packets[k] == RoomPrefix(room) + ([SEMI] + Parts(groups[k]));
      PrefixSkipped(room, [SEMI] + Parts(groups[k]));
      ContinuationPacket(groups[k]);
    }
  }
}
