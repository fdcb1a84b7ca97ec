/**
  A login from the first room packet to the last: the server's transfer, the client's packet handler and
  the client's pending requests, step by step.  Packets wait on the wire in order; a reply is answered
  when it is sent; waiter threads, deadlines, cancellations and callbacks act at any time.  The user's
  chat list stays as it is throughout.
*/
module LoginRun {
  import opened Base
  import opened Text
  import opened Codec
  import opened ClientPackets
  import opened Rooms
  import opened Recognize
  import opened Transfer
  import opened Client
  import opened Packets
  import History
  import Requests

  /** What the server prints about a room: its members' names and the packets of its history. */
  datatype Book = Book(names: seq<string>, amount: int, batches: seq<string>)

  datatype Sys = Sys(
    client: Recognize.State, chats: seq<int>, counters: map<int, int>,
    wire: seq<string>,     // sent to the client and not yet read
    replies: seq<Reply>)   // what the server has answered, the start of the transfer first

  datatype Act = Deliver | Think(act: Requests.Act)

  function RoomText(books: map<int, Book>, id: int): string
    requires id in books
  {
    RoomPacket(id, books[id].names, books[id].amount)
  }

  /** A reply as packets. */
  function Texts(books: map<int, Book>, reply: Reply): seq<string> {
    match reply
    case RoomSent(id) => if id in books then [RoomText(books, id)] + books[id].batches else []
    case RoomFail(id) => ["room" + [SEMI] + (Show(id) + [SEMI] + "fail")]
    case Done => ["room;ok"]
    case Fail => ["room;fail"]
  }

  predicate IsRoom(msg: string) { |msg| >= 5 && msg[..4] == "room" }

  predicate IsMessages(msg: string) { |msg| >= 5 && msg[..4] == "rmsg" }

  /** `recognize_packet` on the two kinds of a transfer. */
  function Handled(c: Recognize.State, msg: string): (Recognize.State, Option<string>)
    requires Sound(c.rooms) && (IsRoom(msg) ==> Announces(msg))
  {
    if |msg| > PACKET_MAX_SIZE then (c, None)
    else if IsRoom(msg) then OnRoom(c, msg)
    else if IsMessages(msg) then (OnMessages(c, msg), None)
    else (c, None)
  }

  predicate Enabled(s: Sys, a: Act) {
    match a
    case Deliver => s.wire != [] && Sound(s.client.rooms) && (IsRoom(s.wire[0]) ==> Announces(s.wire[0]))
    case Think(act) => Requests.Enabled(s.client.requests, act)
  }

  function Do(books: map<int, Book>, s: Sys, a: Act): Sys
    requires Enabled(s, a)
  {
    match a
    case Think(act) => s.(client := s.client.(requests := Requests.Do(s.client.requests, act)))
    case Deliver =>
      var (client, sent) := Handled(s.client, s.wire[0]);
      match sent
      case None => s.(client := client, wire := s.wire[1..])
      case Some(packet) =>
        var reply := PacketReply(s.chats, s.counters, packet);
        s.(client := client, counters := PacketCounters(s.chats, s.counters, packet),
           wire := s.wire[1..] + Texts(books, reply), replies := s.replies + [reply])
  }

  ghost predicate Possible(books: map<int, Book>, s: Sys, acts: seq<Act>)
    decreases |acts|
  {
    acts != [] ==> Enabled(s, acts[0]) && Possible(books, Do(books, s, acts[0]), acts[1..])
  }

  ghost function DoAll(books: map<int, Book>, s: Sys, acts: seq<Act>): Sys
    requires Possible(books, s, acts)
    decreases |acts|
  {
    if acts == [] then s else DoAll(books, Do(books, s, acts[0]), acts[1..])
  }

  /** The login's slot is taken whenever a room's packet is read. */
  ghost predicate HeldThroughout(books: map<int, Book>, s: Sys, acts: seq<Act>)
    requires Possible(books, s, acts)
    decreases |acts|
  {
    acts != [] ==>
      && (acts[0].Deliver? && IsRoom(s.wire[0]) && Opening(s.wire[0]) ==> Recognize.Pending(s.client, Requests.Login))
      && HeldThroughout(books, Do(books, s, acts[0]), acts[1..])
  }

  // ---------------------------------------------------------------- what the server prints

  /** Rooms as the server prints them: positive ids, names without semicolons, packets of legal size. */
  ghost predicate Printable(books: map<int, Book>, chats: seq<int>) {
    forall id :: id in chats ==>
      && id >= 1 && id in books && books[id].names != [] && books[id].amount >= 0
      && (forall n :: n in books[id].names ==> Plain(n))
      && |RoomText(books, id)| <= PACKET_MAX_SIZE
      && (forall b :: b in books[id].batches ==> IsMessages(b))
  }

  /** `room_packet_transfer` has just sent the first room to a client with a session. */
  ghost predicate Started(books: map<int, Book>, s: Sys) {
    && s.chats != [] && NoDup(s.chats) && Printable(books, s.chats)
    && IsSession(s.client.session) && Sound(s.client.rooms)
    && (forall c :: c in s.chats ==> c in s.counters && s.counters[c] == if c == s.chats[0] then 1 else 0)
    && s.replies == [RoomSent(s.chats[0])] && s.wire == Texts(books, RoomSent(s.chats[0]))
  }

  /** The first n rooms, each sent once. */
  function SentUpTo(chats: seq<int>, n: nat): (replies: seq<Reply>)
    requires n <= |chats|
    ensures |replies| == n && forall i :: 0 <= i < n ==> replies[i] == RoomSent(chats[i])
  {
    seq(n, i requires 0 <= i < n => RoomSent(chats[i]))
  }

  ghost predicate OnlyMessages(wire: seq<string>) {
    forall m :: m in wire ==> IsMessages(m)
  }

  ghost predicate Steady(books: map<int, Book>, s: Sys) {
    && s.chats != [] && NoDup(s.chats) && Printable(books, s.chats) && Sound(s.client.rooms)
  }

  /** Room k is on the wire behind nothing but messages, and every later room is still unsent. */
  ghost predicate Going(books: map<int, Book>, s: Sys, k: nat, pre: seq<string>) {
    && Steady(books, s) && k < |s.chats| && IsSession(s.client.session)
    && s.replies == SentUpTo(s.chats, k + 1)
    && OnlyMessages(pre) && s.wire == pre + Texts(books, RoomSent(s.chats[k]))
    && (forall c :: c in s.chats ==> c in s.counters)
    && (forall j :: k < j < |s.chats| ==> s.counters[s.chats[j]] == 0)
  }

  /** A room was read and not acknowledged. */
  ghost predicate Stopped(books: map<int, Book>, s: Sys, n: nat) {
    Steady(books, s) && n <= |s.chats| && s.replies == SentUpTo(s.chats, n) && OnlyMessages(s.wire)
  }

  /** The end is on the wire or read. */
  ghost predicate Ended(books: map<int, Book>, s: Sys) {
    && Steady(books, s) && s.replies == SentUpTo(s.chats, |s.chats|) + [Done]
    && forall m :: m in s.wire ==> IsMessages(m) || m == "room;ok"
  }

  // ---------------------------------------------------------------- the packets, read

  /** A printed room packet is a room packet, opens its room and is not mistaken for a verdict. */
  lemma RoomTextReads(id: int, names: seq<string>, amount: int)
    requires id >= 1 && names != [] && amount >= 0 && forall n :: n in names ==> Plain(n)
    ensures var msg := RoomPacket(id, names, amount);
            && IsRoom(msg) && Opening(msg) && RoomId(msg) == id && Announces(msg)
            && (forall rooms: seq<RoomData> :: RoomRead(rooms, msg))
  {
    hide After, Atoi, Show, Listing, Field, NamesIn;
    RoomPacketRoundTrip(id, names, amount);
    var rest := Show(|names|) + [SEMI] + (Show(amount) + Listing(names));
    var msg := RoomPacket(id, names, amount);
    assert msg == "room" + [SEMI] + (Show(id) + [SEMI] + rest);
    Split("room", Show(id) + [SEMI] + rest);
    NumberField(id, rest);
    ListingSplit(names);
    assert |msg| >= 10;
  }

  lemma OkReads(c: Recognize.State)
    requires Sound(c.rooms)
    ensures IsRoom("room;ok") && SaysOk("room;ok") && Announces("room;ok") && !Opening("room;ok")
    ensures OnRoom(c, "room;ok") == (Signalled(c, Requests.Login, true), None)
  {
    assert "room;ok"[..4] == "room" && "room;ok"[5..] == "ok";
    NoThird();
  }

  lemma NoThird()
    ensures ParseRoom("room;ok") == None
  {
    Split("room", "ok");
    assert "room" + [SEMI] + "ok" == "room;ok";
    PlainEnds("ok");
  }

  // ---------------------------------------------------------------- one step

  lemma MessagesRead(books: map<int, Book>, s: Sys)
    requires s.wire != [] && IsMessages(s.wire[0]) && Sound(s.client.rooms)
    ensures Enabled(s, Deliver)
    ensures var t := Do(books, s, Deliver);
            && t == s.(client := t.client, wire := s.wire[1..])
            && t.client.session == s.client.session && Sound(t.client.rooms)
            && t.client.requests.reports == s.client.requests.reports
  {
    hide WithMessages, Extracted;
  }

  lemma Thought(books: map<int, Book>, s: Sys, act: Requests.Act)
    requires Enabled(s, Think(act))
    ensures var t := Do(books, s, Think(act));
            && t == s.(client := t.client)
            && t.client.session == s.client.session && t.client.rooms == s.client.rooms
  {
  }

  /** The server's answer to the acknowledgement of room k. */
  lemma Acknowledged(s: Sys, k: nat, session: string)
    requires NoDup(s.chats) && k < |s.chats| && s.chats[k] >= 1 && IsSession(session)
    requires forall c :: c in s.chats ==> c in s.counters
    requires forall j :: k < j < |s.chats| ==> s.counters[s.chats[j]] == 0
    ensures var packet := RoomReply(session, s.chats[k], "ok");
            var reply := PacketReply(s.chats, s.counters, packet);
            var counters := PacketCounters(s.chats, s.counters, packet);
            && reply == (if k + 1 < |s.chats| then RoomSent(s.chats[k + 1]) else Done)
            && counters.Keys == s.counters.Keys
            && (forall j :: k + 1 < j < |s.chats| ==> counters[s.chats[j]] == 0)
  {
    hide ExtractRoomState, ExtractSession, RoomReply;
    RoomReplyRoundTrip(session, s.chats[k], "ok");
    NextAfterFirst(s.chats, k);
    if k + 1 < |s.chats| {
      assert s.chats[k + 1] in s.chats && Sendable(s.chats, s.counters, s.chats[k + 1]);
    }
  }

  lemma PrintedRoomReads(books: map<int, Book>, chats: seq<int>, id: int)
    requires Printable(books, chats) && id in chats
    ensures id in books && id >= 1 && OnlyMessages(books[id].batches)
    ensures var msg := RoomText(books, id);
            && IsRoom(msg) && Opening(msg) && RoomId(msg) == id && Announces(msg) && |msg| <= PACKET_MAX_SIZE
            && (forall rooms: seq<RoomData> :: RoomRead(rooms, msg))
  {
    hide RoomPacket, Opening, RoomId, Announces, RoomRead, IsRoom, IsMessages, Plain;
    RoomTextReads(id, books[id].names, books[id].amount);
  }

  lemma GoingParts(books: map<int, Book>, s: Sys, k: nat)
    requires Going(books, s, k, [])
    ensures k < |s.chats| && s.chats[k] in s.chats && Printable(books, s.chats) && s.chats[k] in books
    ensures s.wire != [] && s.wire[0] == RoomText(books, s.chats[k]) && s.wire[1..] == books[s.chats[k]].batches
    ensures Steady(books, s) && IsSession(s.client.session) && s.replies == SentUpTo(s.chats, k + 1)
    ensures NoDup(s.chats) && Sound(s.client.rooms) && forall c :: c in s.chats ==> c in s.counters
    ensures forall j :: k < j < |s.chats| ==> s.counters[s.chats[j]] == 0
  {
    hide RoomText, NoDup, IsSession, OnlyMessages, SentUpTo, Sound;
    assert s.chats[k] in s.chats;
    hide Printable;
  }

  /** The client reads room k. */
  lemma RoomReadBy(books: map<int, Book>, s: Sys, k: nat)
    requires Going(books, s, k, [])
    ensures Enabled(s, Deliver) && IsRoom(s.wire[0]) && Opening(s.wire[0])
    ensures s.chats[k] in books
    ensures var t := Do(books, s, Deliver);
            var batches := books[s.chats[k]].batches;
            if !Recognize.Pending(s.client, Requests.Login) then Stopped(books, t, k + 1) && t.wire == batches
            else if k + 1 < |s.chats| then Going(books, t, k + 1, batches)
            else Ended(books, t)
  {
    hide *;
    GoingParts(books, s, k);
    var id := s.chats[k];
    PrintedRoomReads(books, s.chats, id);
    Delivered(books, s, s.wire[0], id);
    var t := Do(books, s, Deliver);
    Acknowledged(s, k, s.client.session);
    KeepsSteady(books, s, t);
    if !Recognize.Pending(s.client, Requests.Login) {
      MakesStopped(books, t, k + 1);
    } else if k + 1 < |s.chats| {
      OneMore(s.chats, k + 1);
      MakesGoing(books, t, k + 1, books[id].batches);
    } else {
      MakesEnded(books, t, books[id].batches);
    }
  }

  lemma KeepsSteady(books: map<int, Book>, s: Sys, t: Sys)
    requires Steady(books, s) && t.chats == s.chats && Sound(t.client.rooms)
    ensures Steady(books, t)
  {
  }

  lemma MakesStopped(books: map<int, Book>, t: Sys, n: nat)
    requires Steady(books, t) && n <= |t.chats| && t.replies == SentUpTo(t.chats, n) && OnlyMessages(t.wire)
    ensures Stopped(books, t, n)
  {
  }

  lemma MakesGoing(books: map<int, Book>, t: Sys, k: nat, pre: seq<string>)
    requires Steady(books, t) && k < |t.chats| && IsSession(t.client.session) && t.replies == SentUpTo(t.chats, k + 1)
    requires OnlyMessages(pre) && t.wire == pre + Texts(books, RoomSent(t.chats[k]))
    requires forall c :: c in t.chats ==> c in t.counters
    requires forall j :: k < j < |t.chats| ==> t.counters[t.chats[j]] == 0
    ensures Going(books, t, k, pre)
  {
  }

  lemma MakesEnded(books: map<int, Book>, t: Sys, pre: seq<string>)
    requires Steady(books, t) && t.replies == SentUpTo(t.chats, |t.chats|) + [Done]
    requires OnlyMessages(pre) && t.wire == pre + Texts(books, Done)
    ensures Ended(books, t)
  {
  }

  lemma OneMore(chats: seq<int>, n: nat)
    requires n < |chats|
    ensures SentUpTo(chats, n) + [RoomSent(chats[n])] == SentUpTo(chats, n + 1)
  {
  }

  /** What delivering a well-formed room packet does to the whole system. */
  lemma Delivered(books: map<int, Book>, s: Sys, msg: string, id: int)
    requires s.wire != [] && s.wire[0] == msg && Sound(s.client.rooms) && |msg| <= PACKET_MAX_SIZE
    requires IsRoom(msg) && Opening(msg) && RoomId(msg) == id && Announces(msg) && RoomRead(s.client.rooms, msg)
    ensures Enabled(s, Deliver)
    ensures var t := Do(books, s, Deliver);
            var packet := RoomReply(s.client.session, id, "ok");
            var reply := PacketReply(s.chats, s.counters, packet);
            var client := s.client.(rooms := WithRoom(s.client.rooms, msg));
            t == if !Recognize.Pending(s.client, Requests.Login) then s.(client := client, wire := s.wire[1..])
                 else s.(client := client, wire := s.wire[1..] + Texts(books, reply), replies := s.replies + [reply],
                         counters := PacketCounters(s.chats, s.counters, packet))
  {
    Reads(s.client, msg, id);
    hide OnRoom, Opening, RoomRead, RoomId, WithRoom, RoomReply, PacketReply, PacketCounters, Texts, Announces;
  }

  lemma Reads(c: Recognize.State, msg: string, id: int)
    requires Sound(c.rooms) && IsRoom(msg) && Opening(msg) && RoomId(msg) == id
    requires Announces(msg) && RoomRead(c.rooms, msg)
    ensures OnRoom(c, msg) == (c.(rooms := WithRoom(c.rooms, msg)),
      if Recognize.Pending(c, Requests.Login) then Some(RoomReply(c.session, id, "ok")) else None)
  {
    hide RoomRead, RoomId, WithRoom, RoomReply, Announces;
  }

  // ---------------------------------------------------------------- all runs

  lemma StoppedStep(books: map<int, Book>, s: Sys, a: Act, n: nat)
    requires Stopped(books, s, n) && Enabled(s, a)
    ensures Stopped(books, Do(books, s, a), n)
  {
    if a.Deliver? {
      assert s.wire[0] in s.wire && forall m :: m in s.wire[1..] ==> m in s.wire;
      hide Do, IsMessages, Printable, NoDup;
      MessagesRead(books, s);
    } else {
      hide Do, IsMessages, Printable, NoDup;
      Thought(books, s, a.act);
    }
  }

  lemma EndedStep(books: map<int, Book>, s: Sys, a: Act)
    requires Ended(books, s) && Enabled(s, a)
    ensures Ended(books, Do(books, s, a))
    ensures a.Deliver? ==> !(IsRoom(s.wire[0]) && Opening(s.wire[0]))
  {
    if a.Deliver? {
      assert s.wire[0] in s.wire && forall m :: m in s.wire[1..] ==> m in s.wire;
      if IsMessages(s.wire[0]) {
        assert !IsRoom(s.wire[0]);
        hide Do, IsMessages, IsRoom, Opening, Printable, NoDup;
        MessagesRead(books, s);
      } else {
        OkReads(s.client);
        hide OnRoom, Opening, IsRoom, IsMessages, Printable, NoDup, Announces;
      }
    } else {
      hide Do, IsMessages, Printable, NoDup;
      Thought(books, s, a.act);
    }
  }

  lemma {:induction false} StoppedStays(books: map<int, Book>, s: Sys, acts: seq<Act>, n: nat)
    requires Stopped(books, s, n) && Possible(books, s, acts)
    ensures Stopped(books, DoAll(books, s, acts), n)
    decreases |acts|
  {
    hide Stopped, Do, Enabled;
    if acts == [] {
    } else {
      StoppedStep(books, s, acts[0], n);
      StoppedStays(books, Do(books, s, acts[0]), acts[1..], n);
    }
  }

  lemma {:induction false} EndedStays(books: map<int, Book>, s: Sys, acts: seq<Act>)
    requires Ended(books, s) && Possible(books, s, acts)
    ensures Ended(books, DoAll(books, s, acts)) && HeldThroughout(books, s, acts)
    decreases |acts|
  {
    hide Ended, Do, Enabled, IsRoom, Opening;
    if acts == [] {
    } else {
      EndedStep(books, s, acts[0]);
      EndedStays(books, Do(books, s, acts[0]), acts[1..]);
    }
  }

  /** A message in front of room k is read, or another thread acts. */
  lemma GoingStep(books: map<int, Book>, s: Sys, a: Act, k: nat, pre: seq<string>)
    requires Going(books, s, k, pre) && Enabled(s, a) && (a.Deliver? ==> pre != [])
    ensures Going(books, Do(books, s, a), k, if a.Deliver? then pre[1..] else pre)
    ensures a.Deliver? ==> !IsRoom(s.wire[0])
  {
    if a.Deliver? {
      assert pre[0] in pre && s.wire[0] == pre[0] && forall m :: m in pre[1..] ==> m in pre;
      assert s.wire[1..] == pre[1..] + Texts(books, RoomSent(s.chats[k]));
      assert !IsRoom(s.wire[0]);
      hide Do, IsMessages, IsRoom, Printable, NoDup, Texts, IsSession, SentUpTo;
      MessagesRead(books, s);
    } else {
      hide Do, IsMessages, Printable, NoDup, Texts, IsSession, SentUpTo;
      Thought(books, s, a.act);
    }
  }

  /** What a run has come to once the wire is empty. */
  ghost predicate Outcome(books: map<int, Book>, s: Sys, acts: seq<Act>)
    requires Possible(books, s, acts)
  {
    var t := DoAll(books, s, acts);
    if HeldThroughout(books, s, acts) then t.wire == [] ==> Ended(books, t)
    else exists n: nat :: Stopped(books, t, n)
  }

  /** A first step that finds the slot taken, or reads no room, decides nothing. */
  lemma OutcomeBefore(books: map<int, Book>, s: Sys, acts: seq<Act>)
    requires Possible(books, s, acts) && acts != []
    requires acts[0].Deliver? && IsRoom(s.wire[0]) && Opening(s.wire[0]) ==> Recognize.Pending(s.client, Requests.Login)
    requires Outcome(books, Do(books, s, acts[0]), acts[1..])
    ensures Outcome(books, s, acts)
  {
    hide Stopped, Ended, Do, IsRoom, Opening, Recognize.Pending, Announces, Sound, Requests.Enabled;
    var t := Do(books, s, acts[0]);
    assert DoAll(books, s, acts) == DoAll(books, t, acts[1..]);
    assert HeldThroughout(books, s, acts) == HeldThroughout(books, t, acts[1..]);
  }

  /** A first step that reads a room and finds the slot free decides all. */
  lemma OutcomeStopped(books: map<int, Book>, s: Sys, acts: seq<Act>, n: nat)
    requires Possible(books, s, acts) && acts != []
    requires acts[0].Deliver? && IsRoom(s.wire[0]) && Opening(s.wire[0]) && !Recognize.Pending(s.client, Requests.Login)
    requires Stopped(books, DoAll(books, Do(books, s, acts[0]), acts[1..]), n)
    ensures Outcome(books, s, acts)
  {
    hide Stopped, Ended, Do, IsRoom, Opening, Recognize.Pending, Announces, Sound, Requests.Enabled;
    assert DoAll(books, s, acts) == DoAll(books, Do(books, s, acts[0]), acts[1..]);
  }

  lemma {:induction false} GoingEnds(books: map<int, Book>, s: Sys, acts: seq<Act>, k: nat, pre: seq<string>)
    requires Going(books, s, k, pre) && Possible(books, s, acts)
    ensures Outcome(books, s, acts)
    decreases |acts|
  {
    if acts == [] {
      GoingHasWire(books, s, k, pre);
    } else {
      var t := Do(books, s, acts[0]);
      if acts[0].Deliver? && pre == [] {
        GoingParts(books, s, k);
        hide Going, Stopped, Ended, Do, Enabled, IsRoom, Opening, Recognize.Pending;
        RoomReadBy(books, s, k);
        var batches := books[s.chats[k]].batches;
        if !Recognize.Pending(s.client, Requests.Login) {
          StoppedStays(books, t, acts[1..], k + 1);
          OutcomeStopped(books, s, acts, k + 1);
        } else if k + 1 < |s.chats| {
          GoingEnds(books, t, acts[1..], k + 1, batches);
          OutcomeBefore(books, s, acts);
        } else {
          EndedStays(books, t, acts[1..]);
        }
      } else {
        hide Going, Stopped, Ended, Do, Enabled, IsRoom, Opening, Recognize.Pending;
        GoingStep(books, s, acts[0], k, pre);
        GoingEnds(books, t, acts[1..], k, if acts[0].Deliver? then pre[1..] else pre);
        OutcomeBefore(books, s, acts);
      }
    }
  }

  lemma GoingHasWire(books: map<int, Book>, s: Sys, k: nat, pre: seq<string>)
    requires Going(books, s, k, pre)
    ensures s.wire != []
  {
    assert s.chats[k] in s.chats;
  }

  lemma AllInOrder(chats: seq<int>)
    ensures SentUpTo(chats, |chats|) + [Done] == InOrder(chats)
  {
    if chats == [] {
      assert SentUpTo(chats, 0) == [];
    } else {
      AllInOrder(chats[1..]);
      assert SentUpTo(chats, |chats|) == [RoomSent(chats[0])] + SentUpTo(chats[1..], |chats| - 1);
    }
  }

  /** Whatever waiters, deadlines, cancellations and callbacks do: once every packet has been read, the
      server has sent all rooms in order and reported the end if the login was still pending at every
      room packet; otherwise it has sent only the rooms up to some point and never reports the end. */
  lemma EndsExactlyWhenHeld(books: map<int, Book>, s: Sys, acts: seq<Act>)
    requires Started(books, s) && Possible(books, s, acts) && DoAll(books, s, acts).wire == []
    ensures var t := DoAll(books, s, acts);
            && (HeldThroughout(books, s, acts) ==> t.replies == InOrder(s.chats))
            && (HeldThroughout(books, s, acts) <==> Done in t.replies)
            && (!HeldThroughout(books, s, acts) ==>
                  exists n: nat :: n <= |s.chats| && t.replies == SentUpTo(s.chats, n))
  {
    StartedGoes(books, s);
    SameChats(books, s, acts);
    hide Started, Possible, HeldThroughout, DoAll;
    GoingEnds(books, s, acts, 0, []);
    AllInOrder(s.chats);
    var t := DoAll(books, s, acts);
    if HeldThroughout(books, s, acts) {
      assert t.replies[|s.chats|] == Done;
    }
  }

  lemma StartedGoes(books: map<int, Book>, s: Sys)
    requires Started(books, s)
    ensures Going(books, s, 0, [])
  {
    assert [] + Texts(books, RoomSent(s.chats[0])) == Texts(books, RoomSent(s.chats[0]));
    assert SentUpTo(s.chats, 1) == [RoomSent(s.chats[0])];
    forall j | 0 < j < |s.chats| ensures s.counters[s.chats[j]] == 0 {
      assert s.chats[j] in s.chats;
    }
  }

  lemma {:induction false} SameChats(books: map<int, Book>, s: Sys, acts: seq<Act>)
    requires Possible(books, s, acts)
    ensures DoAll(books, s, acts).chats == s.chats
    decreases |acts|
  {
    if acts == [] {
    } else {
      StepKeepsChats(books, s, acts[0]);
      hide Do, Enabled;
      SameChats(books, Do(books, s, acts[0]), acts[1..]);
    }
  }

  lemma StepKeepsChats(books: map<int, Book>, s: Sys, a: Act)
    requires Enabled(s, a)
    ensures Do(books, s, a).chats == s.chats
  {
    hide Handled, Announces;
  }

  // ---------------------------------------------------------------- the callback comes early

  lemma RunOn(books: map<int, Book>, s: Sys, a: Act, acts: seq<Act>)
    requires Enabled(s, a) && Possible(books, Do(books, s, a), acts)
    ensures Possible(books, s, [a] + acts)
    ensures DoAll(books, s, [a] + acts) == DoAll(books, Do(books, s, a), acts)
  {
    hide Do, Enabled;
    assert ([a] + acts)[1..] == acts;
  }

  /** What is left on the wire of a stopped transfer can be read. */
  lemma {:induction false} Drain(books: map<int, Book>, s: Sys, n: nat) returns (acts: seq<Act>)
    requires Stopped(books, s, n)
    ensures Possible(books, s, acts)
    ensures var t := DoAll(books, s, acts);
            t.wire == [] && Stopped(books, t, n) && t.client.requests.reports == s.client.requests.reports
    decreases |s.wire|
  {
    if s.wire == [] {
      acts := [];
    } else {
      assert s.wire[0] in s.wire;
      MessagesRead(books, s);
      StoppedStep(books, s, Deliver, n);
      hide Stopped, Do, Enabled;
      acts := Drain(books, Do(books, s, Deliver), n);
      RunOn(books, s, Deliver, acts);
      acts := [Deliver] + acts;
    }
  }

  /** The first room's only batch, read in the slot just opened for it. */
  lemma FirstBatchRead(id: int, names: seq<string>, ms: seq<Printed>)
    requires id >= 1 && names != [] && (forall n :: n in names ==> Plain(n))
    requires ms != [] && PlainSenders(ms) && History.AllCarriable(ms)
    ensures Announces(RoomPacket(id, names, |ms|))
    ensures Extracted(WithRoom([], RoomPacket(id, names, |ms|)), Render(id, 0, ms), true).Some?
  {
    hide RoomPacket, ParseRoom, MessagePart, Parts, After, Atoi, Skip, Arriving, RoomPrefix, NamesIn;
    RoomPacketRoundTrip(id, names, |ms|);
    var rooms := WithRoom([], RoomPacket(id, names, |ms|));
    assert |rooms| == 1 && rooms[0].id == id && rooms[0].msgIter == 0 && rooms[0].msgAmount == |ms|;
    assert FirstAt(rooms, id) == 0;
    assert Render(id, 0, ms) == RoomPrefix(id) + Parts(ms);
    PrefixSkipped(id, Parts(ms));
    PayloadOf(id, Parts(ms));
    History.BatchFits(ms, |ms|);
  }

  lemma PayloadOf(id: int, body: string)
    requires id >= 1
    ensures Payload(RoomPrefix(id) + body) == Some((id, body))
  {
    hide RoomPrefix, After, Atoi, Show;
    PrefixSkipped(id, body);
    NumberField(id, body);
  }

  /** The setting of the run below. */
  ghost predicate EarlyCallback(books: map<int, Book>, s: Sys, q: nat, ms: seq<Printed>) {
    && Started(books, s) && |s.chats| >= 3 && s.client.rooms == []
    && Requests.Waiting(s.client.requests, Requests.Login, q)
    && ms != [] && PlainSenders(ms) && History.AllCarriable(ms) && s.chats[0] in books
    && books[s.chats[0]].amount == |ms| && books[s.chats[0]].batches == [Render(s.chats[0], 0, ms)]
    && 18 <= |Render(s.chats[0], 0, ms)| <= PACKET_MAX_SIZE
  }

  /** The first room is read and acknowledged. */
  lemma FirstRoom(books: map<int, Book>, s: Sys, q: nat, ms: seq<Printed>)
    requires EarlyCallback(books, s, q, ms)
    ensures Enabled(s, Deliver)
    ensures var t := Do(books, s, Deliver);
            && Going(books, t, 1, [Render(s.chats[0], 0, ms)]) && t.chats == s.chats
            && t.client.requests == s.client.requests
            && Extracted(t.client.rooms, Render(s.chats[0], 0, ms), true).Some?
  {
    EarlyParts(books, s, q, ms);
    hide *;
    var id := s.chats[0];
    StartedGoes(books, s);
    GoingParts(books, s, 0);
    PrintedRoomReads(books, s.chats, id);
    RoomReadBy(books, s, 0);
    BookNamed(books, s);
    FirstBatchRead(id, books[id].names, ms);
    StepKeepsChats(books, s, Deliver);
    Delivered(books, s, s.wire[0], id);
    RoomTextOf(books, id);
  }

  lemma RoomTextOf(books: map<int, Book>, id: int)
    requires id in books
    ensures RoomText(books, id) == RoomPacket(id, books[id].names, books[id].amount)
  {
    hide RoomPacket;
  }

  lemma EarlyParts(books: map<int, Book>, s: Sys, q: nat, ms: seq<Printed>)
    requires EarlyCallback(books, s, q, ms)
    ensures Started(books, s) && |s.chats| >= 3 && s.client.rooms == [] && Recognize.Pending(s.client, Requests.Login)
    ensures ms != [] && PlainSenders(ms) && History.AllCarriable(ms) && s.chats[0] in books
    ensures books[s.chats[0]].amount == |ms| && books[s.chats[0]].batches == [Render(s.chats[0], 0, ms)]
  {
    hide Started, PlainSenders, History.AllCarriable, Render;
  }

  lemma BookNamed(books: map<int, Book>, s: Sys)
    requires Started(books, s)
    ensures var id := s.chats[0];
            id in books && id >= 1 && books[id].names != [] && forall n :: n in books[id].names ==> Plain(n)
  {
    assert s.chats[0] in s.chats;
  }

  /** The batch behind it is read and reported. */
  lemma FirstBatch(books: map<int, Book>, s: Sys, batch: string)
    requires Going(books, s, 1, [batch]) && 18 <= |batch| <= PACKET_MAX_SIZE
    requires Recognize.Pending(s.client, Requests.Login) && Extracted(s.client.rooms, batch, true).Some?
    ensures Enabled(s, Deliver)
    ensures var t := Do(books, s, Deliver);
            && Going(books, t, 1, []) && t.chats == s.chats
            && t.client.requests == Requests.Do(s.client.requests, Requests.Signal(Requests.Login, true))
  {
    assert [batch][0] == batch && [batch][1..] == [];
    GoingMessage(books, s, 1, batch);
    hide Going, Extracted, WithMessages, Requests.Do;
    MessagesRead(books, s);
    GoingStep(books, s, Deliver, 1, [batch]);
    StepKeepsChats(books, s, Deliver);
    BatchTells(books, s, batch);
  }

  lemma GoingMessage(books: map<int, Book>, s: Sys, k: nat, batch: string)
    requires Going(books, s, k, [batch])
    ensures s.wire != [] && s.wire[0] == batch && IsMessages(batch) && Sound(s.client.rooms)
  {
    hide Printable, NoDup, Texts, SentUpTo, IsMessages;
    assert batch in [batch];
  }

  lemma BatchTells(books: map<int, Book>, s: Sys, batch: string)
    requires s.wire != [] && s.wire[0] == batch && IsMessages(batch) && 18 <= |batch| <= PACKET_MAX_SIZE
    requires Enabled(s, Deliver) && Recognize.Pending(s.client, Requests.Login)
    requires Extracted(s.client.rooms, batch, true).Some?
    ensures Do(books, s, Deliver).client.requests
         == Requests.Do(s.client.requests, Requests.Signal(Requests.Login, true))
  {
    hide Extracted, WithMessages, Requests.Do, Announces;
  }

  /** The waiter wakes and the callback runs. */
  lemma CallbackRuns(books: map<int, Book>, s: Sys, q: nat, requests: Requests.State)
    requires Going(books, s, 1, []) && Requests.Waiting(requests, Requests.Login, q)
    requires s.client.requests == Requests.Do(requests, Requests.Signal(Requests.Login, true))
    ensures Enabled(s, Think(Requests.Wake(q)))
    ensures var woken := Do(books, s, Think(Requests.Wake(q)));
            && Enabled(woken, Think(Requests.Dispatch(q)))
            && var t := Do(books, woken, Think(Requests.Dispatch(q)));
               && Going(books, t, 1, []) && t.chats == s.chats && !Recognize.Pending(t.client, Requests.Login)
               && |t.client.requests.reports| == |requests.reports| + 1
               && t.client.requests.reports[|requests.reports|].id == q
               && t.client.requests.reports[|requests.reports|].verdict == Requests.Success
  {
    Requests.ReportsAsTold(requests, Requests.Login, q, true);
    hide Going, Requests.Waiting, Requests.Do, Requests.Enabled;
    GoingStep(books, s, Think(Requests.Wake(q)), 1, []);
    GoingStep(books, Do(books, s, Think(Requests.Wake(q))), Think(Requests.Dispatch(q)), 1, []);
  }

  /** The second room finds the slot free, and what is left can be read. */
  lemma SecondRoom(books: map<int, Book>, s: Sys) returns (acts: seq<Act>)
    requires Going(books, s, 1, []) && |s.chats| >= 3 && !Recognize.Pending(s.client, Requests.Login)
    ensures Possible(books, s, acts)
    ensures var t := DoAll(books, s, acts);
            && t.wire == [] && t.replies == [RoomSent(s.chats[0]), RoomSent(s.chats[1])]
            && t.client.requests.reports == s.client.requests.reports
  {
    RoomReadBy(books, s, 1);
    RoomKeepsReports(books, s);
    StepKeepsChats(books, s, Deliver);
    var stopped := Do(books, s, Deliver);
    hide Going, Do, Enabled, Recognize.Pending;
    acts := Drain(books, stopped, 2);
    SameChats(books, stopped, acts);
    RunOn(books, s, Deliver, acts);
    acts := [Deliver] + acts;
    assert SentUpTo(s.chats, 2) == [RoomSent(s.chats[0]), RoomSent(s.chats[1])];
  }

  lemma RoomKeepsReports(books: map<int, Book>, s: Sys)
    requires Enabled(s, Deliver)
    ensures Do(books, s, Deliver).client.requests.reports == s.client.requests.reports
  {
    hide WithRoom, WithMessages, Extracted, RoomRead, Opening, Announces, PacketReply, PacketCounters, Texts;
  }

  /** A login to three rooms or more, the first with a history of one packet: read that packet, let the
      callback report the success, and the third room is never sent nor the end reported. */
  lemma CallbackCutsTransfer(books: map<int, Book>, s: Sys, q: nat, ms: seq<Printed>) returns (acts: seq<Act>)
    requires EarlyCallback(books, s, q, ms)
    ensures Possible(books, s, acts) && !HeldThroughout(books, s, acts)
    ensures var t := DoAll(books, s, acts);
            && t.wire == [] && t.replies == [RoomSent(s.chats[0]), RoomSent(s.chats[1])]
            && |t.client.requests.reports| == |s.client.requests.reports| + 1
            && var report := t.client.requests.reports[|s.client.requests.reports|];
               report.id == q && report.verdict == Requests.Success
  {
    var batch := Render(s.chats[0], 0, ms);
    assert Started(books, s) && Requests.Waiting(s.client.requests, Requests.Login, q);
    assert Recognize.Pending(s.client, Requests.Login);
    assert |s.chats| >= 3 && 18 <= |batch| <= PACKET_MAX_SIZE;
    hide *;
    FirstRoom(books, s, q, ms);
    var s1 := Do(books, s, Deliver);
    SameSlot(s.client, s1.client);
    FirstBatch(books, s1, batch);
    var s2 := Do(books, s1, Deliver);
    CallbackRuns(books, s2, q, s.client.requests);
    var s3 := Do(books, s2, Think(Requests.Wake(q)));
    var s4 := Do(books, s3, Think(Requests.Dispatch(q)));
    acts := SecondRoom(books, s4);
    RunOn(books, s3, Think(Requests.Dispatch(q)), acts);
    RunOn(books, s2, Think(Requests.Wake(q)), [Think(Requests.Dispatch(q))] + acts);
    RunOn(books, s1, Deliver, [Think(Requests.Wake(q))] + ([Think(Requests.Dispatch(q))] + acts));
    acts := [Deliver] + ([Think(Requests.Wake(q))] + ([Think(Requests.Dispatch(q))] + acts));
    RunOn(books, s, Deliver, acts);
    acts := [Deliver] + acts;
    EndsExactlyWhenHeld(books, s, acts);
  }

  lemma SameSlot(c: Recognize.State, d: Recognize.State)
    requires d.requests == c.requests
    ensures Recognize.Pending(d, Requests.Login) <==> Recognize.Pending(c, Requests.Login)
  {
  }

  // ---------------------------------------------------------------- such a login

  const NAMES := ["ann", "bob"]
  const HELLO := Printed(1, "ann", 5, "hello")

  /** Three rooms of ann and bob, one message in the first. */
  function ThreeRooms(): map<int, Book> {
    map[2 := Book(NAMES, 1, [Render(2, 0, [HELLO])]), 3 := Book(NAMES, 0, []), 4 := Book(NAMES, 0, [])]
  }

  lemma HelloFits()
    ensures 18 <= |Render(2, 0, [HELLO])| <= PACKET_MAX_SIZE && IsMessages(Render(2, 0, [HELLO]))
    ensures PlainSenders([HELLO]) && History.AllCarriable([HELLO])
  {
    hide Show;
    PartBound(2, HELLO);
    PartsAppend([], HELLO);
    assert [] + [HELLO] == [HELLO] && Parts([HELLO]) == MessagePart(HELLO);
    assert RoomPrefix(2) == "rmsg" + [SEMI] + (Show(2) + [SEMI]);
  }

  lemma NamesFit(id: int, amount: int)
    requires 1 <= id < 1000 && 0 <= amount < 1000
    ensures |RoomPacket(id, NAMES, amount)| <= PACKET_MAX_SIZE && forall n :: n in NAMES ==> Plain(n)
  {
    hide Show;
    ShowBounds(id);
    ShowBounds(amount);
    ShowBounds(2);
    ListingAppend(["ann"], "bob");
    ListingAppend([], "ann");
    assert [] + ["ann"] == ["ann"] && ["ann"] + ["bob"] == NAMES;
    assert |Listing(NAMES)| == 8;
  }

  lemma ThreeArePrintable()
    ensures Printable(ThreeRooms(), [2, 3, 4])
  {
    hide RoomPacket, Render, IsMessages, Plain;
    HelloFits();
    NamesFit(2, 1);
    NamesFit(3, 0);
    NamesFit(4, 0);
  }

  /** The first room is on the wire and the login's waiter is blocked. */
  function Beginning(): Sys {
    var requests := Requests.State(map[Requests.Login := 0],
      map[0 := Requests.Request(Requests.Login, false, false, false, Requests.Blocked, 0)], 1, [], []);
    var client := Recognize.State("aaaaaaaaaaaaaaaa", [], requests);
    Sys(client, [2, 3, 4], map[2 := 1, 3 := 0, 4 := 0], Texts(ThreeRooms(), RoomSent(2)), [RoomSent(2)])
  }

  lemma BeginningIsEarly()
    ensures EarlyCallback(ThreeRooms(), Beginning(), 0, [HELLO])
  {
    ThreeArePrintable();
    HelloFits();
    hide Printable, Render, Texts, PlainSenders, History.AllCarriable;
  }

  /** Three rooms, a message in the first, and a login that waits: the transfer breaks off after the
      second room and the login has been reported as a success. */
  lemma ThirdRoomNeverArrives() returns (s: Sys, acts: seq<Act>)
    ensures Started(ThreeRooms(), s) && s.chats == [2, 3, 4] && Possible(ThreeRooms(), s, acts)
    ensures var t := DoAll(ThreeRooms(), s, acts);
            && t.wire == [] && t.replies == [RoomSent(2), RoomSent(3)]
            && |t.client.requests.reports| == 1 && t.client.requests.reports[0].verdict == Requests.Success
  {
    s := Beginning();
    BeginningIsEarly();
    assert s.chats == [2, 3, 4] && s.client.requests.reports == [];
    assert EarlyCallback(ThreeRooms(), s, 0, [HELLO]) ==> Started(ThreeRooms(), s);
    hide *;
    acts := CallbackCutsTransfer(ThreeRooms(), s, 0, [HELLO]);
  }

  // ---------------------------------------------------------------- a history of several packets

  /** A continuation that is read while the login waits tells the login of a failure, whatever was
      told before: unless a further packet or thread comes in between, its callback reports so. */
  lemma ContinuationFailsLogin(c: Recognize.State, q: nat, room: int, ms: seq<Printed>, packets: seq<string>,
                               groups: seq<seq<Printed>>, k: nat)
    requires Sound(c.rooms) && Requests.Waiting(c.requests, Requests.Login, q) && room >= 1 && 0 < k < |packets|
    requires Packing(room, ms, packets, groups) && PlainSenders(ms) && History.AllCarriable(ms)
    requires 18 <= |packets[k]|
    ensures var told := OnMessages(c, packets[k]).requests;
            && Requests.Enabled(told, Requests.Wake(q))
            && var woken := Requests.Do(told, Requests.Wake(q));
               && Requests.Enabled(woken, Requests.Dispatch(q))
               && var done := Requests.Do(woken, Requests.Dispatch(q));
                  && |done.reports| == |c.requests.reports| + 1
                  && done.reports[|c.requests.reports|].verdict == Requests.Failure
  {
    hide *;
    ContinuationNotRead(c, room, ms, packets, groups, k);
    Told(c, packets[k]);
    WaitingHolds(c, q);
    Requests.ReportsAsTold(c.requests, Requests.Login, q, false);
  }

  lemma WaitingHolds(c: Recognize.State, q: nat)
    requires Requests.Waiting(c.requests, Requests.Login, q)
    ensures Recognize.Pending(c, Requests.Login)
  {
  }

  lemma Told(c: Recognize.State, msg: string)
    requires Sound(c.rooms) && |msg| >= 18 && Extracted(c.rooms, msg, true) == None
    ensures Recognize.Pending(c, Requests.Login) ==>
      OnMessages(c, msg).requests == Requests.Do(c.requests, Requests.Signal(Requests.Login, false))
  {
    hide Extracted, WithMessages, Requests.Do;
  }

  lemma ContinuationNotRead(c: Recognize.State, room: int, ms: seq<Printed>, packets: seq<string>,
                            groups: seq<seq<Printed>>, k: nat)
    requires Sound(c.rooms) && room >= 1 && 0 < k < |packets|
    requires Packing(room, ms, packets, groups) && PlainSenders(ms) && History.AllCarriable(ms)
    ensures Extracted(c.rooms, packets[k], true) == None
  {
    hide *;
    History.PackedGroups(room, ms, packets, groups);
    History.PacketBody(room, ms, packets, groups, k);
    History.GroupIsCarriable(ms, groups, k);
    forall free: nat ensures Arriving([SEMI] + Parts(groups[k]), true, free) == None {
      History.ContinuationRefused(groups[k], free);
    }
    NotRead(c.rooms, packets[k], room, [SEMI] + Parts(groups[k]));
  }

  lemma NotRead(rooms: seq<RoomData>, packet: string, room: int, body: string)
    requires Sound(rooms) && Payload(packet) == Some((room, body))
    requires forall free: nat :: Arriving(body, true, free) == None
    ensures Extracted(rooms, packet, true) == None
  {
    hide Payload, Arriving;
  }
}
