/**
  The client's table of rooms as a value: what a room packet and a message packet make of it, and what
  it holds after any run of packets.  Each room is an append-only log behind an iterator.
*/
module Rooms {
  import opened Base
  import opened Text
  import opened Codec

  datatype RoomData = RoomData(
    id: int, userAmount: int, msgAmount: int, msgIter: int, cells: seq<Option<MsgData>>, users: seq<string>)

  const BLANK := RoomData(0, 0, 0, 0, [], [])

  /** The iterator stays within the allocated cells and every cell before it is filled. */
  predicate Bounded(r: RoomData) {
    && 0 <= r.msgIter <= r.msgAmount == |r.cells|
    && forall k :: 0 <= k < r.msgIter ==> r.cells[k].Some?
  }

  function Log(r: RoomData): (log: seq<MsgData>)
    requires Bounded(r)
    ensures |log| == r.msgIter
    ensures forall k :: 0 <= k < r.msgIter ==> log[k] == r.cells[k].value
  {
    seq(r.msgIter, k requires 0 <= k < r.msgIter => r.cells[k].value)
  }

  function Written(ms: seq<MsgData>): (cells: seq<Option<MsgData>>)
    ensures |cells| == |ms| && forall k :: 0 <= k < |ms| ==> cells[k] == Some(ms[k])
  {
    seq(|ms|, k requires 0 <= k < |ms| => Some(ms[k]))
  }

  function Unwritten(n: nat): (cells: seq<Option<MsgData>>)
    ensures |cells| == n && forall k :: 0 <= k < n ==> cells[k] == None
  {
    seq(n, _ => None)
  }

  /** Messages written from the iterator on, after that many more cells were allocated. */
  function Appended(r: RoomData, ms: seq<MsgData>, more: nat): (t: RoomData)
    requires Bounded(r) && r.msgIter + |ms| <= r.msgAmount + more
    ensures Bounded(t) && Log(t) == Log(r) + ms && t.id == r.id && t.msgAmount == r.msgAmount + more
    ensures t.users == r.users && t.userAmount == r.userAmount
  {
    r.(msgAmount := r.msgAmount + more, msgIter := r.msgIter + |ms|,
       cells := r.cells[..r.msgIter] + Written(ms) + (r.cells + Unwritten(more))[r.msgIter + |ms|..])
  }

  // ---------------------------------------------------------------- packets

  datatype RoomHead = RoomHead(id: int, userAmount: int, msgAmount: int, names: Option<string>)

  function ParseRoom(packet: string): Option<RoomHead> {
    match After(packet)
    case None => None
    case Some(p1) =>
      match After(p1)
      case None => None
      case Some(p2) =>
        match After(p2)
        case None => None
        case Some(p3) => Some(RoomHead(Atoi(p1), Atoi(p2), Atoi(p3), After(p3)))
  }

  /** The loop both name extractors run: up to n names, fewer when the text ends early. */
  function NamesIn(p: string, n: int): (names: seq<string>)
    ensures |names| <= if n < 0 then 0 else n
    decreases n
  {
    if n <= 0 then []
    else match After(p)
      case None => [Field(p)]
      case Some(rest) => [Field(p)] + NamesIn(rest, n - 1)
  }

  /** What a message packet adds to a room: a batch while the login is pending, clipped to the free
      cells, and one message otherwise. */
  function Arriving(payload: string, loginPending: bool, free: nat): Option<seq<MsgData>> {
    if loginPending then
      if Countable(payload) then DecodeNext(payload, if Count(payload) / 5 < free then Count(payload) / 5 else free)
      else None
    else match Decode(payload)
      case None => None
      case Some(m) => Some([m])
  }

  /** A message packet taken apart: its room id and its messages. */
  function Payload(packet: string): Option<(int, string)> {
    match After(packet)
    case None => None
    case Some(p1) =>
      if Atoi(p1) < 1 then None
      else match After(p1)
        case None => None
        case Some(p2) => Some((Atoi(p1), p2))
  }

  lemma ArrivingFits(payload: string, loginPending: bool, free: nat)
    ensures var ms := Arriving(payload, loginPending, free);
            && (loginPending && ms.Some? ==> |ms.value| <= free)
            && (!loginPending && ms.Some? ==> |ms.value| == 1)
  {
    if loginPending && Countable(payload) {
      DecodeLength(payload, if Count(payload) / 5 < free then Count(payload) / 5 else free);
    }
  }

  /** What a packet adds to one room, if it is for that room and well formed. */
  function Fed(r: RoomData, packet: string, loginPending: bool): Option<seq<MsgData>>
    requires Bounded(r)
  {
    if Payload(packet).None? || r.id != Payload(packet).value.0 then None
    else Arriving(Payload(packet).value.1, loginPending, r.msgAmount - r.msgIter)
  }

  /** The room after the packet, whatever other rooms there are. */
  function FedRoom(r: RoomData, packet: string, loginPending: bool): (t: RoomData)
    requires Bounded(r)
    ensures Bounded(t) && t.id == r.id
  {
    match Fed(r, packet, loginPending)
    case None => r
    case Some(ms) =>
      ArrivingFits(Payload(packet).value.1, loginPending, r.msgAmount - r.msgIter);
      Appended(r, ms, if loginPending then 0 else 1)
  }

  // ---------------------------------------------------------------- the table

  predicate Sound(t: seq<RoomData>) {
    |t| <= ROOM_MAX && forall i :: 0 <= i < |t| ==> Bounded(t[i])
  }

  ghost predicate DistinctIds(t: seq<RoomData>) {
    forall i, j :: 0 <= i < j < |t| ==> t[i].id != t[j].id
  }

  function FirstAt(t: seq<RoomData>, id: int): (k: int)
    ensures -1 <= k < |t|
    ensures k >= 0 ==> t[k].id == id
    ensures forall i :: 0 <= i < (if k < 0 then |t| else k) ==> t[i].id != id
  {
    if t == [] then -1
    else if t[0].id == id then 0
    else
      var k := FirstAt(t[1..], id);
      if k < 0 then -1 else k + 1
  }

  function LastAt(t: seq<RoomData>, id: int): (k: int)
    ensures -1 <= k < |t|
    ensures k >= 0 ==> t[k].id == id
    ensures forall i :: k < i < |t| ==> t[i].id != id
  {
    if t == [] then -1
    else if t[|t| - 1].id == id then |t| - 1
    else LastAt(t[..|t| - 1], id)
  }

  function FirstOf(ms: seq<MsgData>, n: nat): (first: seq<MsgData>)
    ensures |first| <= n && first <= ms && (|ms| <= n ==> first == ms) && (|ms| > n ==> |first| == n)
  {
    if |ms| <= n then ms else ms[..n]
  }

  /** `add_messages_data`: into the last room with the id, as far as its cells go. */
  function Added(t: seq<RoomData>, id: int, ms: seq<MsgData>): (u: seq<RoomData>)
    requires Sound(t)
    ensures Sound(u) && |u| == |t|
  {
    var k := LastAt(t, id);
    if k < 0 then t else t[k := Appended(t[k], FirstOf(ms, t[k].msgAmount - t[k].msgIter), 0)]
  }

  /** What `extract_rmsg` finds in a packet: the first room with the id sets the limit. */
  function Extracted(t: seq<RoomData>, packet: string, loginPending: bool): Option<seq<MsgData>>
    requires Sound(t)
  {
    if Payload(packet).None? || FirstAt(t, Payload(packet).value.0) < 0 then None
    else Fed(t[FirstAt(t, Payload(packet).value.0)], packet, loginPending)
  }

  /** `extract_rmsg`: one message goes into the first room with the id, a batch into the last. */
  function WithMessages(t: seq<RoomData>, packet: string, loginPending: bool): (u: seq<RoomData>)
    requires Sound(t)
    ensures Sound(u) && |u| == |t|
  {
    match Extracted(t, packet, loginPending)
    case None => t
    case Some(ms) =>
      var id := Payload(packet).value.0;
      var k := FirstAt(t, id);
      if loginPending then Added(t, id, ms)
      else
        ArrivingFits(Payload(packet).value.1, false, t[k].msgAmount - t[k].msgIter);
        t[k := Appended(t[k], ms, 1)]
  }

  /** A room as its packet announces it. */
  function Announced(head: RoomHead): (r: RoomData)
    requires head.msgAmount >= 0
    ensures Bounded(r) && Log(r) == [] && r.id == head.id && r.msgAmount == head.msgAmount
  {
    RoomData(head.id, head.userAmount, head.msgAmount, 0, Unwritten(head.msgAmount),
             if head.userAmount == 0 || head.names.None? then [] else NamesIn(head.names.value, head.userAmount))
  }

  predicate Announces(packet: string) {
    ParseRoom(packet).Some? ==> ParseRoom(packet).value.msgAmount >= 0
  }

  /** `extract_room`: a further slot, even when the member names are missing, while there is one. */
  function WithRoom(t: seq<RoomData>, packet: string): (u: seq<RoomData>)
    requires Sound(t) && Announces(packet)
    ensures Sound(u) && t <= u
  {
    if ParseRoom(packet).None? || |t| == ROOM_MAX then t else t + [Announced(ParseRoom(packet).value)]
  }

  /** With a repeated id, a live message goes to the first room that has it. */
  lemma RepeatedLive(t: seq<RoomData>, packet: string, i: nat)
    requires Sound(t) && i < |t| && Payload(packet).Some? && Payload(packet).value.0 == t[i].id
    requires forall j :: 0 <= j < i ==> t[j].id != t[i].id
    ensures WithMessages(t, packet, false) == t[i := FedRoom(t[i], packet, false)]
  {
    hide Payload, Arriving, Appended;
    assert FirstAt(t, t[i].id) == i;
    ArrivingFits(Payload(packet).value.1, false, t[i].msgAmount - t[i].msgIter);
  }

  /** And a batch to the last, as far as the free cells of both allow. */
  lemma RepeatedBatch(t: seq<RoomData>, packet: string, first: nat, last: nat)
    requires Sound(t) && first <= last < |t| && t[first].id == t[last].id
    requires Payload(packet).Some? && Payload(packet).value.0 == t[last].id
    requires forall j :: 0 <= j < first || last < j < |t| ==> t[j].id != t[last].id
    ensures var u := WithMessages(t, packet, true);
            && |u| == |t| && (forall j :: 0 <= j < |t| && j != last ==> u[j] == t[j])
            && var ms := Arriving(Payload(packet).value.1, true, t[first].msgAmount - t[first].msgIter);
               Log(u[last]) == Log(t[last]) + if ms.None? then []
                                              else FirstOf(ms.value, t[last].msgAmount - t[last].msgIter)
  {
    hide Payload, Arriving, Appended, Log;
    assert FirstAt(t, t[last].id) == first && LastAt(t, t[last].id) == last;
    assert Log(t[last]) + [] == Log(t[last]);
  }

  // ---------------------------------------------------------------- runs

  datatype Input = NewRoom(packet: string) | Messages(packet: string, loginPending: bool)

  predicate Allowed(input: Input) {
    input.NewRoom? ==> Announces(input.packet)
  }

  /** The table after a run of packets from an empty one: sound, whatever the packets hold. */
  function Table(inputs: seq<Input>): (t: seq<RoomData>)
    requires forall k :: 0 <= k < |inputs| ==> Allowed(inputs[k])
    ensures Sound(t)
  {
    if inputs == [] then []
    else
      var n := |inputs| - 1;
      var before := Table(inputs[..n]);
      assert Allowed(inputs[n]);
      match inputs[n]
      case NewRoom(packet) => WithRoom(before, packet)
      case Messages(packet, loginPending) => WithMessages(before, packet, loginPending)
  }

  /** A room as its user sees it. */
  datatype Record = Record(id: int, amount: int, log: seq<MsgData>)

  function RecordOf(r: RoomData): Record
    requires Bounded(r)
  {
    Record(r.id, r.msgAmount, Log(r))
  }

  /** The messages of an input for one room, whatever the state of that room. */
  function Carried(input: Input, id: int): Option<seq<MsgData>> {
    if input.NewRoom? || Payload(input.packet).None? || Payload(input.packet).value.0 != id then None
    else if input.loginPending then DecodeBatch(Payload(input.packet).value.1)
    else Arriving(Payload(input.packet).value.1, false, 0)
  }

  /** Batches fill the announced amount and no more; a live message always finds room. */
  function RecordNext(r: Record, input: Input): Record
    requires r.amount >= 0
  {
    match Carried(input, r.id)
    case None => r
    case Some(ms) =>
      if input.loginPending then r.(log := FirstOf(r.log + ms, r.amount))
      else Record(r.id, r.amount + 1, r.log + ms)
  }

  function RecordAfter(r: Record, inputs: seq<Input>): (t: Record)
    requires r.amount >= 0
    ensures t.amount >= r.amount
  {
    if inputs == [] then r else RecordNext(RecordAfter(r, inputs[..|inputs| - 1]), inputs[|inputs| - 1])
  }

  /** A batch that is counted as whole decodes as a whole. */
  predicate WellFormed(input: Input) {
    && Allowed(input)
    && (input.Messages? && input.loginPending && Payload(input.packet).Some? ==>
          (Countable(Payload(input.packet).value.1) ==> DecodeBatch(Payload(input.packet).value.1).Some?))
  }

  predicate Opens(input: Input, id: int) {
    input.NewRoom? && ParseRoom(input.packet).Some? && ParseRoom(input.packet).value.id == id
  }

  ghost predicate WellFormedRun(inputs: seq<Input>) {
    && (forall k :: 0 <= k < |inputs| ==> WellFormed(inputs[k]))
    && (forall j, k, id :: 0 <= j < k < |inputs| && Opens(inputs[j], id) ==> !Opens(inputs[k], id))
  }

  /** How many room packets could be read. */
  function Openings(inputs: seq<Input>): nat {
    if inputs == [] then 0
    else
      var last := inputs[|inputs| - 1];
      Openings(inputs[..|inputs| - 1]) + if last.NewRoom? && ParseRoom(last.packet).Some? then 1 else 0
  }

  lemma {:induction false} DecodePrefix(p: string, n: nat, k: nat)
    requires k <= n && DecodeNext(p, n).Some?
    ensures |DecodeNext(p, n).value| == n && DecodeNext(p, k) == Some(DecodeNext(p, n).value[..k])
    decreases n
  {
    hide Decode, Skip;
    DecodeLength(p, n);
    if k == 0 {
    } else if n == 1 {
      assert k == 1 && DecodeNext(p, n).value[..k] == DecodeNext(p, n).value;
    } else if k == 1 {
    } else {
      var rest := Skip(p, 5).value;
      DecodePrefix(rest, n - 1, k - 1);
      var m, ms := Decode(p).value, DecodeNext(rest, n - 1).value;
      assert ([m] + ms)[..k] == [m] + ms[..k - 1];
    }
  }

  /** One packet does to a room's cells what it does to its record. */
  lemma FedIsRecordNext(r: RoomData, packet: string, loginPending: bool)
    requires Bounded(r) && WellFormed(Messages(packet, loginPending))
    ensures RecordOf(FedRoom(r, packet, loginPending)) == RecordNext(RecordOf(r), Messages(packet, loginPending))
  {
    hide Decode, Count, EndsInSemi, Payload;
    if Payload(packet).Some? && Payload(packet).value.0 == r.id {
      var payload := Payload(packet).value.1;
      var free := r.msgAmount - r.msgIter;
      ArrivingFits(payload, loginPending, free);
      if loginPending && Countable(payload) {
        var n := Count(payload) / 5;
        DecodePrefix(payload, n, if n < free then n else free);
        ClippedAlike(Log(r), DecodeNext(payload, n).value, r.msgAmount);
      }
    }
  }

  lemma ClippedAlike(log: seq<MsgData>, ms: seq<MsgData>, amount: nat)
    requires |log| <= amount
    ensures FirstOf(log + ms, amount) == log + ms[..if |ms| < amount - |log| then |ms| else amount - |log|]
  {
  }

  /** With distinct ids every room is fed on its own. */
  lemma EachIsFed(t: seq<RoomData>, packet: string, loginPending: bool, i: nat)
    requires Sound(t) && DistinctIds(t) && i < |t|
    ensures WithMessages(t, packet, loginPending)[i] == FedRoom(t[i], packet, loginPending)
  {
    hide Arriving, Payload;
    if Payload(packet).Some? {
      var id := Payload(packet).value.0;
      var first, last := FirstAt(t, id), LastAt(t, id);
      assert first == last;
      if first >= 0 {
        ArrivingFits(Payload(packet).value.1, loginPending, t[first].msgAmount - t[first].msgIter);
      }
    }
  }

  /** Slot i was opened by input k and holds what has arrived since. */
  ghost predicate HoldsSince(r: RoomData, inputs: seq<Input>, k: nat)
    requires Bounded(r)
  {
    && k < |inputs| && Opens(inputs[k], r.id) && Announces(inputs[k].packet)
    && RecordOf(r) == RecordAfter(Record(r.id, ParseRoom(inputs[k].packet).value.msgAmount, []), inputs[k + 1..])
  }

  ghost predicate Holds(r: RoomData, inputs: seq<Input>)
    requires Bounded(r)
  {
    exists k: nat :: HoldsSince(r, inputs, k)
  }

  lemma HoldsOn(r: RoomData, t: RoomData, inputs: seq<Input>, input: Input, k: nat)
    requires Bounded(r) && Bounded(t) && HoldsSince(r, inputs, k)
    requires t.id == r.id && RecordOf(t) == RecordNext(RecordOf(r), input)
    ensures HoldsSince(t, inputs + [input], k) && Holds(t, inputs + [input])
  {
    hide RecordNext, RecordOf;
    var since := (inputs + [input])[k + 1..];
    assert since == inputs[k + 1..] + [input];
    assert since[..|since| - 1] == inputs[k + 1..];
  }

  /** Over every run of packets with distinct room ids: as many slots as room packets, 32 at most, and
      each room's cells hold exactly what its packets have carried since it was opened, in order. */
  lemma {:induction false} LogIsWhatArrived(inputs: seq<Input>)
    requires WellFormedRun(inputs)
    ensures DistinctIds(Table(inputs))
    ensures |Table(inputs)| == if Openings(inputs) < ROOM_MAX then Openings(inputs) else ROOM_MAX
    ensures forall i :: 0 <= i < |Table(inputs)| ==> Holds(Table(inputs)[i], inputs)
  {
    if inputs == [] {
    } else {
      var n := |inputs| - 1;
      var before, input := inputs[..n], inputs[n];
      assert inputs == before + [input];
      LogIsWhatArrived(before);
      var t, u := Table(before), Table(inputs);
      hide Table, Openings, ParseRoom;
      match input
      case NewRoom(packet) => OpenedHolds(before, t, packet, u);
      case Messages(packet, loginPending) =>
        forall i | 0 <= i < |u| ensures u[i].id == t[i].id && Holds(u[i], inputs) {
          StillHolds(before, t, packet, loginPending, i);
        }
    }
  }

  lemma StillHolds(before: seq<Input>, t: seq<RoomData>, packet: string, loginPending: bool, i: nat)
    requires Sound(t) && DistinctIds(t) && i < |t| && WellFormed(Messages(packet, loginPending))
    requires Holds(t[i], before)
    ensures var u := WithMessages(t, packet, loginPending);
            u[i].id == t[i].id && Holds(u[i], before + [Messages(packet, loginPending)])
  {
    hide RecordNext, WithMessages, RecordOf, HoldsSince, FedRoom;
    EachIsFed(t, packet, loginPending, i);
    FedIsRecordNext(t[i], packet, loginPending);
    var k: nat :| HoldsSince(t[i], before, k);
    HoldsOn(t[i], FedRoom(t[i], packet, loginPending), before, Messages(packet, loginPending), k);
  }

  lemma OpenedHolds(before: seq<Input>, t: seq<RoomData>, packet: string, u: seq<RoomData>)
    requires Sound(t) && DistinctIds(t) && WellFormedRun(before + [NewRoom(packet)]) && Announces(packet)
    requires forall i :: 0 <= i < |t| ==> Holds(t[i], before)
    requires u == WithRoom(t, packet)
    ensures DistinctIds(u)
    ensures forall i :: 0 <= i < |u| ==> Holds(u[i], before + [NewRoom(packet)])
  {
    hide HoldsSince, Announced, Opens, ParseRoom;
    forall i | 0 <= i < |u| ensures Holds(u[i], before + [NewRoom(packet)]) {
      if i < |t| {
        OldHolds(before, t[i], packet);
      } else {
        NewHolds(before, packet);
      }
    }
    if |u| > |t| {
      forall i | 0 <= i < |t| ensures t[i].id != u[|t|].id { NewIsDistinct(before, t[i], packet); }
    }
  }

  lemma OldHolds(before: seq<Input>, r: RoomData, packet: string)
    requires Bounded(r) && Holds(r, before)
    ensures Holds(r, before + [NewRoom(packet)])
  {
    hide HoldsSince, RecordOf;
    var k: nat :| HoldsSince(r, before, k);
    HoldsOn(r, r, before, NewRoom(packet), k);
  }

  lemma NewHolds(before: seq<Input>, packet: string)
    requires ParseRoom(packet).Some? && Announces(packet)
    ensures Holds(Announced(ParseRoom(packet).value), before + [NewRoom(packet)])
  {
    hide ParseRoom;
    var inputs := before + [NewRoom(packet)];
    assert inputs[|before|] == NewRoom(packet) && inputs[|before| + 1..] == [];
    assert HoldsSince(Announced(ParseRoom(packet).value), inputs, |before|);
  }

  lemma NewIsDistinct(before: seq<Input>, r: RoomData, packet: string)
    requires Bounded(r) && Holds(r, before) && WellFormedRun(before + [NewRoom(packet)])
    ensures ParseRoom(packet).Some? ==> r.id != ParseRoom(packet).value.id
  {
    hide ParseRoom, WellFormed, RecordOf, RecordAfter;
    var inputs := before + [NewRoom(packet)];
    var k: nat :| HoldsSince(r, before, k);
    assert Opens(inputs[k], r.id) && inputs[|before|] == NewRoom(packet);
  }

  // ---------------------------------------------------------------- a login, and after it

  /** Everything a run of packets carries for one room. */
  function AllCarried(inputs: seq<Input>, id: int): seq<MsgData> {
    if inputs == [] then []
    else
      AllCarried(inputs[..|inputs| - 1], id)
        + match Carried(inputs[|inputs| - 1], id) case None => [] case Some(ms) => ms
  }

  /** While the login is pending: the announced amount of messages, in order of arrival. */
  lemma {:induction false} LoginFillsUp(r: Record, inputs: seq<Input>)
    requires |r.log| <= r.amount && forall k :: 0 <= k < |inputs| && inputs[k].Messages? ==> inputs[k].loginPending
    ensures RecordAfter(r, inputs) == r.(log := FirstOf(r.log + AllCarried(inputs, r.id), r.amount))
  {
    if inputs == [] {
      assert r.log + [] == r.log;
    } else {
      var n := |inputs| - 1;
      LoginFillsUp(r, inputs[..n]);
      assert inputs[n].Messages? ==> inputs[n].loginPending;
      LoginNext(r, AllCarried(inputs[..n], r.id), inputs[n]);
      hide Carried, RecordNext;
    }
  }

  lemma LoginNext(r: Record, sofar: seq<MsgData>, input: Input)
    requires r.amount >= 0 && (input.Messages? ==> input.loginPending)
    ensures RecordNext(r.(log := FirstOf(r.log + sofar, r.amount)), input)
         == r.(log := FirstOf(r.log + (sofar + match Carried(input, r.id) case None => [] case Some(ms) => ms),
                              r.amount))
  {
    hide DecodeBatch, Arriving, Payload;
    if Carried(input, r.id).Some? {
      var ms := Carried(input, r.id).value;
      assert r.log + (sofar + ms) == (r.log + sofar) + ms;
      ClipTwice(r.log + sofar, ms, r.amount);
    } else {
      assert sofar + [] == sofar;
    }
  }

  lemma NotARoom(input: Input, id: int)
    requires Carried(input, id).Some?
    ensures input.Messages?
  {
  }

  lemma ClipTwice(a: seq<MsgData>, b: seq<MsgData>, n: nat)
    ensures FirstOf(FirstOf(a, n) + b, n) == FirstOf(a + b, n)
  {
  }

  /** Afterwards: every message, in order of arrival, in a cell of its own. */
  lemma {:induction false} LiveAppends(r: Record, inputs: seq<Input>)
    requires r.amount >= 0 && forall k :: 0 <= k < |inputs| && inputs[k].Messages? ==> !inputs[k].loginPending
    ensures RecordAfter(r, inputs)
         == Record(r.id, r.amount + |AllCarried(inputs, r.id)|, r.log + AllCarried(inputs, r.id))
  {
    if inputs == [] {
      assert r.log + [] == r.log;
    } else {
      var n := |inputs| - 1;
      LiveAppends(r, inputs[..n]);
      var sofar := AllCarried(inputs[..n], r.id);
      if Carried(inputs[n], r.id).Some? {
        NotARoom(inputs[n], r.id);
        var ms := Carried(inputs[n], r.id).value;
        assert |ms| == 1;
        assert r.log + (sofar + ms) == (r.log + sofar) + ms;
      } else {
        assert sofar + [] == sofar;
      }
    }
  }
}
