/**
  Logouts that overlap, one store command at a time.  Each takes its user out of Redis before it looks
  for other members of its rooms, so whichever goes last finds nobody and saves the room.  Messages
  may arrive meanwhile in any room of which no logout holds a copy; without that guard one can be lost.
*/
module Logouts {
  import opened Base
  import opened Chat
  import opened Store
  import opened Simulation

  /** How far one `redis_to_mongodb` has come; rest starts with the room being treated. */
  datatype Proc =
    | Leaving(rest: seq<int>)                             // user saved, keys still there
    | AtRoom(rest: seq<int>)
    | Checking(rest: seq<int>, copy: RoomDoc, seen: nat)  // room read, members before seen are not in Redis
    | Saving(rest: seq<int>, copy: RoomDoc)
    | Finished

  datatype State = State(
    saved: map<int, RoomDoc>,      // MongoDB
    rooms: map<int, RoomKeys>,     // Redis
    loaded: set<int>,              // users whose keys exist
    chats: map<int, seq<int>>,
    procs: map<int, Proc>)

  datatype Act =
    | Begin(user: int) | Offline(user: int) | ReadRoom(user: int) | Check(user: int) | Save(user: int)
    | Receive(user: int, room: int, text: string, date: int)
    | Enter(user: int)

  predicate Idle(s: State, u: int) {
    u !in s.procs || s.procs[u].Finished?
  }

  /** h's logout has read room r and not yet finished with it. */
  ghost predicate Holding(s: State, h: int, r: int) {
    && h in s.procs && (s.procs[h].Checking? || s.procs[h].Saving?)
    && s.procs[h].rest != [] && s.procs[h].rest[0] == r
  }

  ghost predicate Held(s: State, r: int) {
    exists h :: Holding(s, h, r)
  }

  ghost predicate Enabled(s: State, a: Act) {
    match a
    case Begin(u) => u in s.loaded && u in s.chats && Idle(s, u)
    case Offline(u) => u in s.procs && s.procs[u].Leaving?
    case ReadRoom(u) => u in s.procs && s.procs[u].AtRoom?
    case Check(u) => u in s.procs && s.procs[u].Checking? && s.procs[u].rest != []
    case Save(u) => u in s.procs && s.procs[u].Saving? && s.procs[u].rest != []
    case Receive(u, r, _, _) => u in s.loaded && u in s.chats && r in s.chats[u] && r in s.rooms
    case Enter(u) => u !in s.loaded && u in s.chats && Idle(s, u)
  }

  /** A message comes in while no logout holds the room's copy. */
  ghost predicate Orderly(s: State, a: Act) {
    Enabled(s, a) && (a.Receive? ==> !Held(s, a.room))
  }

  ghost function Do(s: State, a: Act): State
    requires Enabled(s, a)
  {
    match a
    case Begin(u) => s.(procs := s.procs[u := Leaving(s.chats[u])])
    case Offline(u) => s.(loaded := s.loaded - {u}, procs := s.procs[u := AtRoom(s.procs[u].rest)])
    case ReadRoom(u) =>
      var rest := s.procs[u].rest;
      s.(procs := s.procs[u := if rest == [] || rest[0] !in s.rooms then Finished
                               else Checking(rest, Snapshot(rest[0], s.rooms[rest[0]]), 0)])
    case Check(u) =>
      var p := s.procs[u];
      s.(procs := s.procs[u := if p.seen >= |p.copy.users| then Saving(p.rest, p.copy)
                               else if p.copy.users[p.seen] != u && p.copy.users[p.seen] in s.loaded
                               then AtRoom(p.rest[1..])
                               else Checking(p.rest, p.copy, p.seen + 1)])
    case Save(u) =>
      var p := s.procs[u];
      s.(saved := s.saved[p.rest[0] := p.copy], procs := s.procs[u := AtRoom(p.rest[1..])])
    case Receive(u, r, text, date) => s.(rooms := s.rooms[r := Posted(s.rooms[r], u, text, date)])
    case Enter(u) =>
      s.(loaded := s.loaded + {u},
         rooms := s.rooms + map r | r in s.chats[u] && r !in s.rooms && r in s.saved :: Imported(s.saved[r]))
  }

  // ---------------------------------------------------------------- invariant

  ghost predicate InSync(s: State, r: int)
    requires r in s.rooms && r in s.saved
  {
    s.saved[r] == Snapshot(r, s.rooms[r])
  }

  /** u's logout is past taking u offline and has yet to deal with r. */
  ghost predicate Pending(s: State, u: int, r: int) {
    u in s.procs && (s.procs[u].AtRoom? || s.procs[u].Checking? || s.procs[u].Saving?) && r in s.procs[u].rest
  }

  /** Somebody will still take care of r: a loaded member, or one whose logout is pending. */
  ghost predicate CaredFor(s: State, r: int)
    requires r in s.saved
  {
    exists u :: u in s.saved[r].users && (u in s.loaded || Pending(s, u, r))
  }

  ghost predicate RoomsOk(s: State) {
    && (forall r :: r in s.rooms ==> r in s.saved && s.rooms[r].users == s.saved[r].users)
    && (forall r :: r in s.saved && r !in s.rooms ==> s.saved[r] == Snapshot(r, Imported(s.saved[r])))
    && (forall u, r :: u in s.chats && r in s.chats[u] ==> r in s.saved && u in s.saved[r].users)
    && (forall u, r :: r in s.saved && u in s.saved[r].users && u in s.chats ==> r in s.chats[u])
    && (forall u :: u in s.chats ==> NoDup(s.chats[u]))
  }

  ghost predicate LoadedOk(s: State) {
    forall u, r :: u in s.loaded && u in s.chats && r in s.chats[u] ==> r in s.rooms
  }

  ghost predicate ProcOk(s: State, u: int)
    requires u in s.procs
  {
    match s.procs[u]
    case Finished => true
    case Leaving(rest) => u in s.loaded && u in s.chats && rest == s.chats[u]
    case AtRoom(rest) => Past(s, u, rest)
    case Checking(rest, copy, seen) => Past(s, u, rest) && Holds(s, rest, copy)
    case Saving(rest, copy) => Past(s, u, rest) && Holds(s, rest, copy)
  }

  ghost predicate Past(s: State, u: int, rest: seq<int>) {
    && u !in s.loaded && u in s.chats
    && NoDup(rest) && (forall r :: r in rest ==> r in s.rooms && r in s.chats[u])
  }

  ghost predicate Holds(s: State, rest: seq<int>, copy: RoomDoc) {
    rest != [] && rest[0] in s.rooms && copy == Snapshot(rest[0], s.rooms[rest[0]])
  }

  ghost predicate ProcsOk(s: State) {
    forall u :: u in s.procs ==> ProcOk(s, u)
  }

  ghost predicate LagCaredFor(s: State) {
    forall r :: r in s.rooms && r in s.saved ==> InSync(s, r) || CaredFor(s, r)
  }

  ghost predicate Safe(s: State) {
    RoomsOk(s) && LoadedOk(s) && ProcsOk(s) && LagCaredFor(s)
  }

  lemma CareStays(s: State, t: State, r: int)
    requires r in s.saved && r in t.saved && t.saved[r].users == s.saved[r].users && CaredFor(s, r)
    requires forall u :: u in s.loaded && u in s.saved[r].users ==> u in t.loaded || Pending(t, u, r)
    requires forall u :: Pending(s, u, r) && u in s.saved[r].users ==> u in t.loaded || Pending(t, u, r)
    ensures CaredFor(t, r)
  {
    var u :| u in s.saved[r].users && (u in s.loaded || Pending(s, u, r));
    assert u in t.saved[r].users && (u in t.loaded || Pending(t, u, r));
  }

  lemma BeginSafe(s: State, a: Act)
    requires Safe(s) && a.Begin? && Enabled(s, a)
    ensures Safe(Do(s, a))
  {
    var t := Do(s, a);
    forall r | r in t.rooms && r in t.saved && !InSync(t, r) ensures CaredFor(t, r) {
      assert forall u :: Pending(s, u, r) ==> Pending(t, u, r);
      CareStays(s, t, r);
    }
  }

  lemma OfflineSafe(s: State, a: Act)
    requires Safe(s) && a.Offline? && Enabled(s, a)
    ensures Safe(Do(s, a))
  {
    var t := Do(s, a);
    assert ProcOk(s, a.user);
    forall u | u in t.procs ensures ProcOk(t, u) { assert ProcOk(s, u); }
    forall r | r in t.rooms && r in t.saved && !InSync(t, r) ensures CaredFor(t, r) {
      assert forall u :: Pending(s, u, r) ==> Pending(t, u, r);
      CareStays(s, t, r);
    }
  }

  lemma ReadRoomSafe(s: State, a: Act)
    requires Safe(s) && a.ReadRoom? && Enabled(s, a)
    ensures Safe(Do(s, a))
  {
    var t := Do(s, a);
    assert ProcOk(s, a.user);
    forall u | u in t.procs ensures ProcOk(t, u) { assert ProcOk(s, u); }
    forall r | r in t.rooms && r in t.saved && !InSync(t, r) ensures CaredFor(t, r) {
      var rest := s.procs[a.user].rest;
      assert rest != [] ==> rest[0] in rest;
      assert forall u :: Pending(s, u, r) ==> Pending(t, u, r);
      CareStays(s, t, r);
    }
  }

  lemma CheckSafe(s: State, a: Act)
    requires Safe(s) && a.Check? && Enabled(s, a)
    ensures Safe(Do(s, a))
  {
    CheckKeepsProcs(s, a);
    CheckKeepsCare(s, a);
    hide ProcsOk, LagCaredFor, NoDup, Imported, Snapshot;
  }

  lemma CheckKeepsProcs(s: State, a: Act)
    requires ProcsOk(s) && a.Check? && Enabled(s, a)
    ensures ProcsOk(Do(s, a))
  {
    hide Imported, Posted, Snapshot;
    assert ProcOk(s, a.user);
    forall u | u in Do(s, a).procs ensures ProcOk(Do(s, a), u) { assert ProcOk(s, u); }
  }

  lemma CheckKeepsCare(s: State, a: Act)
    requires Safe(s) && a.Check? && Enabled(s, a)
    ensures LagCaredFor(Do(s, a))
  {
    var t := Do(s, a);
    var p := s.procs[a.user];
    assert ProcOk(s, a.user);
    assert p.copy.users == s.saved[p.rest[0]].users by { SnapshotMembers(p.rest[0], s.rooms[p.rest[0]]); }
    hide Imported, Posted, Snapshot, NoDup, ProcsOk, LoadedOk, RoomsOk, Past, Holds;
    forall r | r in t.rooms && r in t.saved && !InSync(t, r) ensures CaredFor(t, r) {
      if r == p.rest[0] && t.procs[a.user].AtRoom? {
        var other := p.copy.users[p.seen];
        assert other in s.saved[r].users && other in t.loaded;
      } else {
        assert forall x :: x in p.rest ==> x == p.rest[0] || x in p.rest[1..];
        assert forall u :: Pending(s, u, r) ==> Pending(t, u, r);
        CareStays(s, t, r);
      }
    }
  }

  lemma SaveSafe(s: State, a: Act)
    requires Safe(s) && a.Save? && Enabled(s, a)
    ensures Safe(Do(s, a))
  {
    assert ProcOk(s, a.user);
    var p := s.procs[a.user];
    assert p.rest[0] in p.rest && p.rest[0] in s.rooms;
    SnapshotMembers(p.rest[0], s.rooms[p.rest[0]]);
    SaveKeepsProcs(s, a);
    SaveKeepsCare(s, a);
    hide ProcsOk, LagCaredFor, NoDup, Imported, Snapshot;
  }

  lemma SaveKeepsProcs(s: State, a: Act)
    requires ProcsOk(s) && a.Save? && Enabled(s, a)
    ensures ProcsOk(Do(s, a))
  {
    hide Imported, Posted, Snapshot;
    assert ProcOk(s, a.user);
    forall u | u in Do(s, a).procs ensures ProcOk(Do(s, a), u) { assert ProcOk(s, u); }
  }

  lemma SaveKeepsCare(s: State, a: Act)
    requires Safe(s) && a.Save? && Enabled(s, a)
    ensures LagCaredFor(Do(s, a))
  {
    var t := Do(s, a);
    var p := s.procs[a.user];
    assert ProcOk(s, a.user);
    assert p.rest[0] in p.rest;
    assert p.copy.users == s.saved[p.rest[0]].users by { SnapshotMembers(p.rest[0], s.rooms[p.rest[0]]); }
    assert InSync(t, p.rest[0]);
    hide Imported, Posted, Snapshot, NoDup, ProcsOk, LoadedOk, RoomsOk, Past, Holds;
    forall r | r in t.rooms && r in t.saved && !InSync(t, r) ensures CaredFor(t, r) {
      assert forall x :: x in p.rest ==> x == p.rest[0] || x in p.rest[1..];
      assert forall u :: Pending(s, u, r) ==> Pending(t, u, r);
      CareStays(s, t, r);
    }
  }

  lemma ReceiveSafe(s: State, a: Act)
    requires Safe(s) && a.Receive? && Orderly(s, a)
    ensures Safe(Do(s, a))
  {
    assert Posted(s.rooms[a.room], a.user, a.text, a.date).users == s.rooms[a.room].users;
    ReceiveKeepsProcs(s, a);
    ReceiveKeepsCare(s, a);
    hide ProcsOk, LagCaredFor, NoDup, Imported, Snapshot, Posted;
  }

  lemma ReceiveKeepsProcs(s: State, a: Act)
    requires ProcsOk(s) && a.Receive? && Orderly(s, a)
    ensures ProcsOk(Do(s, a))
  {
    hide Imported, Posted, Snapshot, NoDup;
    forall u | u in Do(s, a).procs ensures ProcOk(Do(s, a), u) {
      assert ProcOk(s, u);
      assert !Holding(s, u, a.room);
    }
  }

  lemma ReceiveKeepsCare(s: State, a: Act)
    requires Safe(s) && a.Receive? && Orderly(s, a)
    ensures LagCaredFor(Do(s, a))
  {
    var t := Do(s, a);
    assert a.room in s.saved && a.user in s.saved[a.room].users;
    hide Imported, Posted, Snapshot, NoDup, ProcsOk, LoadedOk, RoomsOk;
    forall r | r in t.rooms && r in t.saved && !InSync(t, r) ensures CaredFor(t, r) {
      if r == a.room {
        assert a.user in t.saved[r].users && a.user in t.loaded;
      } else {
        assert forall u :: Pending(s, u, r) ==> Pending(t, u, r);
        CareStays(s, t, r);
      }
    }
  }

  lemma EnterRooms(s: State, t: State, u: int)
    requires RoomsOk(s) && u in s.chats && t.saved == s.saved && t.chats == s.chats
    requires t.rooms == s.rooms + map r | r in s.chats[u] && r !in s.rooms && r in s.saved :: Imported(s.saved[r])
    ensures RoomsOk(t)
    ensures forall r :: r in s.rooms ==> r in t.rooms && t.rooms[r] == s.rooms[r]
    ensures forall r :: r in t.rooms && r !in s.rooms ==> InSync(t, r)
    ensures forall r :: r in s.chats[u] ==> r in t.rooms
  {
    hide Imported;
    forall r | r in t.rooms && r !in s.rooms ensures t.rooms[r].users == s.saved[r].users && InSync(t, r) {
      assert s.saved[r] == Snapshot(r, Imported(s.saved[r]));
    }
  }

  lemma EnterSafe(s: State, a: Act)
    requires Safe(s) && a.Enter? && Enabled(s, a)
    ensures Safe(Do(s, a))
  {
    var t := Do(s, a);
    EnterRooms(s, t, a.user);
    EnterCare(s, t, a.user);
  }

  lemma EnterCare(s: State, t: State, v: int)
    requires Safe(s) && RoomsOk(t) && v in s.chats && Idle(s, v)
    requires t.saved == s.saved && t.chats == s.chats && t.procs == s.procs
    requires t.loaded == s.loaded + {v} && forall r :: r in s.chats[v] ==> r in t.rooms
    requires forall r :: r in s.rooms ==> r in t.rooms && t.rooms[r] == s.rooms[r]
    requires forall r :: r in t.rooms && r !in s.rooms ==> InSync(t, r)
    ensures Safe(t)
  {
    hide RoomsOk;
    forall u | u in t.procs ensures ProcOk(t, u) { assert ProcOk(s, u); }
    forall r | r in t.rooms && r in t.saved && !InSync(t, r) ensures CaredFor(t, r) {
      assert forall u :: Pending(s, u, r) ==> Pending(t, u, r);
      CareStays(s, t, r);
    }
  }

  lemma DoSafe(s: State, a: Act)
    requires Safe(s) && Orderly(s, a)
    ensures Safe(Do(s, a))
  {
    match a
    case Begin(_) => BeginSafe(s, a);
    case Offline(_) => OfflineSafe(s, a);
    case ReadRoom(_) => ReadRoomSafe(s, a);
    case Check(_) => CheckSafe(s, a);
    case Save(_) => SaveSafe(s, a);
    case Receive(_, _, _, _) => ReceiveSafe(s, a);
    case Enter(_) => EnterSafe(s, a);
  }

  // ---------------------------------------------------------------- runs

  ghost predicate Possible(s: State, acts: seq<Act>)
    decreases |acts|
  {
    acts != [] ==> Enabled(s, acts[0]) && Possible(Do(s, acts[0]), acts[1..])
  }

  ghost predicate AllOrderly(s: State, acts: seq<Act>)
    requires Possible(s, acts)
    decreases |acts|
  {
    acts != [] ==> Orderly(s, acts[0]) && AllOrderly(Do(s, acts[0]), acts[1..])
  }

  ghost function DoAll(s: State, acts: seq<Act>): State
    requires Possible(s, acts)
    decreases |acts|
  {
    if acts == [] then s else DoAll(Do(s, acts[0]), acts[1..])
  }

  lemma {:induction false} SafeThroughout(s: State, acts: seq<Act>)
    requires Safe(s) && Possible(s, acts) && AllOrderly(s, acts)
    ensures Safe(DoAll(s, acts))
    decreases |acts|
  {
    if acts == [] {
    } else {
      DoSafe(s, acts[0]);
      SafeThroughout(Do(s, acts[0]), acts[1..]);
    }
  }

  ghost predicate AllIdle(s: State) {
    forall u :: u in s.procs ==> s.procs[u].Finished?
  }

  ghost predicate Secured(s: State) {
    forall r :: r in s.rooms ==>
      r in s.saved && (InSync(s, r) || exists u :: u in s.saved[r].users && u in s.loaded)
  }

  /** However logouts, logins and orderly messages interleave: once no logout is under way, every
      room without a loaded member is in MongoDB exactly as it is in Redis. */
  lemma LastLeaverSaves(s: State, acts: seq<Act>)
    requires Safe(s) && Possible(s, acts) && AllOrderly(s, acts) && AllIdle(DoAll(s, acts))
    ensures Secured(DoAll(s, acts))
  {
    SafeThroughout(s, acts);
    var t := DoAll(s, acts);
    assert forall u, r :: !Pending(t, u, r);
    forall r | r in t.rooms && !InSync(t, r) ensures exists u :: u in t.saved[r].users && u in t.loaded {
      assert CaredFor(t, r);
    }
  }

  /** The machine starts from any state the server can be in between events. */
  ghost function Begun(w: World): State {
    State(w.mongo.rooms, w.redis.rooms, w.redis.users.Keys, map u | u in w.mongo.users :: ProfileOf(w, u).chats, map[])
  }

  lemma GoodIsSafe(w: World)
    requires Good(w)
    ensures Safe(Begun(w))
  {
    var s := Begun(w);
    assert forall r :: r in w.redis.rooms ==> CachedRoom(w, r);
    forall r | r in s.saved && r !in s.rooms ensures s.saved[r] == Snapshot(r, Imported(s.saved[r])) {
      HistoryNumbered(w, r);
      ImportedRoom(w.mongo, r);
    }
    forall u | u in s.chats
      ensures NoDup(s.chats[u]) && forall r :: r in s.chats[u] <==> r in s.saved && u in s.saved[r].users
    {
      ProfileChats(w, u);
      assert Indexed(Abs(w)) && Abs(w).users[u] == ProfileOf(w, u);
    }
    forall u | u in s.loaded && u in s.chats ensures forall r :: r in s.chats[u] ==> r in s.rooms {
      assert LoadedUser(w, u);
    }
    forall r | r in s.rooms && r in s.saved && !InSync(s, r) ensures CaredFor(s, r) {
      assert SomeMemberLoaded(w, r);
    }
  }

  // ---------------------------------------------------------------- one logout alone

  /** acts leads from s to t, step by step. */
  ghost predicate Leads(s: State, acts: seq<Act>, t: State) {
    Possible(s, acts) && DoAll(s, acts) == t
  }

  lemma LeadsOn(s: State, a: Act, m: State, acts: seq<Act>, t: State)
    requires Enabled(s, a) && Do(s, a) == m && Leads(m, acts, t)
    ensures Leads(s, [a] + acts, t)
  {
    assert ([a] + acts)[1..] == acts;
  }

  /** s with u's logout at p and MongoDB's rooms as given. */
  ghost function With(s: State, u: int, saved: map<int, RoomDoc>, p: Proc): State {
    s.(saved := saved, procs := s.procs[u := p])
  }

  lemma WithStep(s: State, u: int, saved: map<int, RoomDoc>, p: Proc, saved': map<int, RoomDoc>, p': Proc)
    ensures With(With(s, u, saved, p), u, saved', p') == With(s, u, saved', p')
  {
    assert s.procs[u := p][u := p'] == s.procs[u := p'];
  }

  /** Looking at one member after the other decides as Store.AnyOther does. */
  lemma {:induction false} ChecksAlone(s: State, gone: Redis, u: int, saved: map<int, RoomDoc>, rest: seq<int>,
                                       copy: RoomDoc, seen: nat, tail: seq<Act>, t: State) returns (acts: seq<Act>)
    requires rest != [] && seen <= |copy.users| && gone.users.Keys == s.loaded
    requires forall i :: 0 <= i < seen ==> copy.users[i] == u || copy.users[i] !in s.loaded
    requires var kept := if AnyOther(copy.users, gone, u) then saved else saved[rest[0] := copy];
             Leads(With(s, u, kept, AtRoom(rest[1..])), tail, t)
    ensures Leads(With(s, u, saved, Checking(rest, copy, seen)), acts, t)
    decreases |copy.users| - seen
  {
    hide Leads;
    var now := With(s, u, saved, Checking(rest, copy, seen));
    if seen == |copy.users| {
      var kept := saved[rest[0] := copy];
      WithStep(s, u, saved, Saving(rest, copy), kept, AtRoom(rest[1..]));
      LeadsOn(With(s, u, saved, Saving(rest, copy)), Save(u), With(s, u, kept, AtRoom(rest[1..])), tail, t);
      acts := [Save(u)] + tail;
      WithStep(s, u, saved, Checking(rest, copy, seen), saved, Saving(rest, copy));
      LeadsOn(now, Check(u), With(s, u, saved, Saving(rest, copy)), acts, t);
    } else if copy.users[seen] != u && copy.users[seen] in s.loaded {
      acts := tail;
      WithStep(s, u, saved, Checking(rest, copy, seen), saved, AtRoom(rest[1..]));
      LeadsOn(now, Check(u), With(s, u, saved, AtRoom(rest[1..])), acts, t);
    } else {
      acts := ChecksAlone(s, gone, u, saved, rest, copy, seen + 1, tail, t);
      WithStep(s, u, saved, Checking(rest, copy, seen), saved, Checking(rest, copy, seen + 1));
      LeadsOn(now, Check(u), With(s, u, saved, Checking(rest, copy, seen + 1)), acts, t);
    }
    acts := [Check(u)] + acts;
  }

  lemma FlushFirst(saved: map<int, RoomDoc>, r: Redis, u: int, c: int, chats: seq<int>)
    requires c in r.rooms
    ensures Flush(if AnyOther(r.rooms[c].users, r, u) then saved else saved[c := Snapshot(c, r.rooms[c])], r, u, chats)
         == Flush(saved, r, u, [c] + chats)
  {
    hide AnyOther, Snapshot;
    assert forall k :: k in [c] + chats <==> k == c || k in chats;
  }

  /** The rooms one after the other come out as Store.Flush. */
  lemma {:induction false} RoomsAlone(s: State, gone: Redis, u: int, saved: map<int, RoomDoc>, rest: seq<int>)
    returns (acts: seq<Act>)
    requires gone.rooms == s.rooms && gone.users.Keys == s.loaded && forall r :: r in rest ==> r in s.rooms
    ensures Leads(With(s, u, saved, AtRoom(rest)), acts, With(s, u, Flush(saved, gone, u, rest), Finished))
    decreases |rest|
  {
    var t := With(s, u, Flush(saved, gone, u, rest), Finished);
    hide Snapshot, AnyOther, Flush, Leads;
    if rest == [] {
      FlushFirstNone(saved, gone, u);
      LeadsNowhere(t);
      acts := [];
      WithStep(s, u, saved, AtRoom(rest), saved, Finished);
      LeadsOn(With(s, u, saved, AtRoom(rest)), ReadRoom(u), t, acts, t);
    } else {
      var c := rest[0];
      assert c in rest && rest == [c] + rest[1..];
      var copy := Snapshot(c, s.rooms[c]);
      SnapshotMembers(c, s.rooms[c]);
      FlushFirst(saved, gone, u, c, rest[1..]);
      acts := RoomsAlone(s, gone, u, if AnyOther(copy.users, gone, u) then saved else saved[c := copy], rest[1..]);
      acts := ChecksAlone(s, gone, u, saved, rest, copy, 0, acts, t);
      WithStep(s, u, saved, AtRoom(rest), saved, Checking(rest, copy, 0));
      LeadsOn(With(s, u, saved, AtRoom(rest)), ReadRoom(u), With(s, u, saved, Checking(rest, copy, 0)), acts, t);
    }
    acts := [ReadRoom(u)] + acts;
  }

  lemma FlushFirstNone(saved: map<int, RoomDoc>, r: Redis, u: int)
    ensures Flush(saved, r, u, []) == saved
  {
  }

  lemma LeadsNowhere(t: State)
    ensures Leads(t, [], t)
  {
  }

  lemma SnapshotMembers(r: int, keys: RoomKeys)
    ensures Snapshot(r, keys).users == keys.users
  {
  }

  /** Uninterrupted, the machine's steps do to the rooms what the logout of module Store does. */
  lemma AloneIsLeave(w: World, session: string) returns (acts: seq<Act>)
    requires Good(w) && session in w.redis.sessions && w.redis.sessions[session] in w.redis.users
    ensures Possible(Begun(w), acts) && AllIdle(DoAll(Begun(w), acts))
    ensures var t := DoAll(Begun(w), acts);
            var left := Leave(w, session);
            && t.saved == left.mongo.rooms && t.rooms == left.redis.rooms && t.loaded == left.redis.users.Keys
  {
    var u := w.redis.sessions[session];
    assert LoadedUsersOk(w) && Indexed(Abs(w));
    LoadedChats(w, u);
    hide *;
    LeaveInFull(w, session);
    BegunWith(w, u);
    acts := LeavesAlone(Begun(w), Forget(w.redis, u), u);
  }

  lemma LeaveInFull(w: World, session: string)
    requires LoadedUsersOk(w) && session in w.redis.sessions && w.redis.sessions[session] in w.redis.users
    ensures var u := w.redis.sessions[session];
            var gone := Forget(w.redis, u);
            && gone.rooms == w.redis.rooms && gone.users.Keys == w.redis.users.Keys - {u}
            && Leave(w, session).redis == gone
            && Leave(w, session).mongo.rooms == Flush(w.mongo.rooms, gone, u, w.redis.users[u].chats)
  {
    var u := w.redis.sessions[session];
    assert LoadedUser(w, u);
    PresentAll(w.redis.users[u].chats, w.redis.rooms.Keys);
    hide Flush, IdsNamed;
  }

  lemma BegunWith(w: World, u: int)
    requires u in w.mongo.users
    ensures var s := Begun(w);
            && s.saved == w.mongo.rooms && s.rooms == w.redis.rooms
            && s.loaded == w.redis.users.Keys && s.procs == map[]
            && u in s.chats && s.chats[u] == ProfileOf(w, u).chats
  {
    hide ProfileOf;
  }

  lemma LeavesAlone(s: State, gone: Redis, u: int) returns (acts: seq<Act>)
    requires u in s.loaded && u in s.chats && s.procs == map[] && forall r :: r in s.chats[u] ==> r in s.rooms
    requires gone.rooms == s.rooms && gone.users.Keys == s.loaded - {u}
    ensures Possible(s, acts) && AllIdle(DoAll(s, acts))
    ensures DoAll(s, acts).saved == Flush(s.saved, gone, u, s.chats[u])
    ensures DoAll(s, acts).rooms == s.rooms && DoAll(s, acts).loaded == gone.users.Keys
  {
    var chats := s.chats[u];
    var out := s.(loaded := s.loaded - {u});
    var t := With(out, u, Flush(s.saved, gone, u, chats), Finished);
    acts := RoomsAlone(out, gone, u, s.saved, chats);
    hide Flush;
    assert Leads(s, [Begin(u)] + ([Offline(u)] + acts), t) by {
      hide Leads;
      var s1 := With(s, u, s.saved, Leaving(chats));
      assert Do(s1, Offline(u)) == With(out, u, s.saved, AtRoom(chats)) by {
        assert s.procs[u := Leaving(chats)][u := AtRoom(chats)] == s.procs[u := AtRoom(chats)];
      }
      LeadsOn(s1, Offline(u), With(out, u, s.saved, AtRoom(chats)), acts, t);
      LeadsOn(s, Begin(u), s1, [Offline(u)] + acts, t);
    }
    acts := [Begin(u)] + ([Offline(u)] + acts);
  }

  /** The machine's login and message are those of module Store. */
  lemma EnterIsLoad(w: World, session: string, socket: int)
    requires Good(w) && Fresh(w, LoadData(session, socket)) && session in w.redis.sessions
    requires w.redis.sessions[session] in w.mongo.users
    requires w.mongo.users[w.redis.sessions[session]].name != "Unknown"
    ensures var u := w.redis.sessions[session];
            && Enabled(Begun(w), Enter(u))
            && var s := Do(Begun(w), Enter(u));
               var t := Load(w, session, socket);
               s.saved == t.mongo.rooms && s.rooms == t.redis.rooms && s.loaded == t.redis.users.Keys
  {
    var u := w.redis.sessions[session];
    assert u !in w.redis.users && UserDocsOk(w.mongo) by { hide Inv; }
    hide Good, Load;
    Basics(w);
    DocChats(w, u);
    hide UserDocsOk, IdOf;
    LoadReaches(w, u, session, socket);
    BegunWith(w, u);
    EnterIsLoaded(w, u, session, socket);
  }

  lemma EnterIsLoaded(w: World, u: int, session: string, socket: int)
    requires u in w.mongo.users && u !in w.redis.users
    ensures Enabled(Begun(w), Enter(u))
    ensures var s := Do(Begun(w), Enter(u));
            var t := Loaded(w, u, session, socket);
            s.saved == t.mongo.rooms && s.rooms == t.redis.rooms && s.loaded == t.redis.users.Keys
  {
    assert ProfileOf(w, u).chats == w.mongo.users[u].chats;
    hide Imported, ProfileOf, NamesOf;
  }

  lemma ReceiveIsSend(w: World, session: string, room: int, text: string, date: int)
    requires Good(w) && session in w.redis.sessions && w.redis.sessions[session] in w.redis.users
    requires room in w.redis.users[w.redis.sessions[session]].chats
    ensures var u := w.redis.sessions[session];
            && Enabled(Begun(w), Receive(u, room, text, date))
            && var s := Do(Begun(w), Receive(u, room, text, date));
               var t := SendMessage(w, session, room, text, date);
               s.saved == t.mongo.rooms && s.rooms == t.redis.rooms && s.loaded == t.redis.users.Keys
  {
    var u := w.redis.sessions[session];
    assert LoadedUsersOk(w) && Indexed(Abs(w));
    hide Good;
    LoadedChats(w, u);
    assert LoadedUser(w, u);
    hide LoadedUsersOk, Indexed, LoadedUser, ProfileOf;
    BegunWith(w, u);
    SendPosts(w, session, room, text, date);
    hide Begun, SendMessage, Posted;
  }

  lemma SendPosts(w: World, session: string, room: int, text: string, date: int)
    requires session in w.redis.sessions && w.redis.sessions[session] in w.redis.users && room in w.redis.rooms
    requires w.redis.users[w.redis.sessions[session]].info.Some?
    requires room in w.redis.users[w.redis.sessions[session]].chats
    ensures SendMessage(w, session, room, text, date)
         == WithKeys(w, room, Posted(w.redis.rooms[room], w.redis.sessions[session], text, date))
  {
    hide Posted, IdsNamed;
  }

  // ---------------------------------------------------------------- without the guard

  ghost function Rest(p: Proc): seq<int> {
    if p.Finished? then [] else p.rest
  }

  /** A logout with a copy in hand has a room to treat. */
  ghost predicate Working(p: Proc) {
    p.Checking? || p.Saving? ==> p.rest != []
  }

  ghost predicate AllWorking(s: State) {
    forall u :: u in s.procs ==> Working(s.procs[u])
  }

  /** Neither messages nor logins. */
  ghost predicate Commands(acts: seq<Act>) {
    forall a :: a in acts ==> !a.Receive? && !a.Enter?
  }

  lemma {:induction false} CommandsAreOrderly(s: State, acts: seq<Act>)
    requires Possible(s, acts) && Commands(acts)
    ensures AllOrderly(s, acts)
    decreases |acts|
  {
    if acts == [] {
    } else {
      assert acts[0] in acts && forall a :: a in acts[1..] ==> a in acts;
      CommandsAreOrderly(Do(s, acts[0]), acts[1..]);
    }
  }

  lemma {:induction false} LeadsFurther(s: State, acts: seq<Act>, m: State, more: seq<Act>, t: State)
    requires Leads(s, acts, m) && Leads(m, more, t)
    ensures Leads(s, acts + more, t)
    decreases |acts|
  {
    if acts == [] {
      assert [] + more == more;
    } else {
      LeadsFurther(Do(s, acts[0]), acts[1..], m, more, t);
      assert (acts + more)[1..] == acts[1..] + more && (acts + more)[0] == acts[0];
    }
  }

  /** What the rest of u's logout, run alone, may change. */
  ghost predicate Finishes(s: State, u: int, t: State)
    requires u in s.procs
  {
    && t.rooms == s.rooms && t.chats == s.chats && t.procs == s.procs[u := Finished]
    && t.loaded == (if s.procs[u].Leaving? then s.loaded - {u} else s.loaded)
    && (forall r :: r !in Rest(s.procs[u]) ==> (r in t.saved <==> r in s.saved))
    && (forall r :: r !in Rest(s.procs[u]) && r in s.saved ==> t.saved[r] == s.saved[r])
  }

  /** The next command of a logout that has not finished. */
  ghost function NextAct(p: Proc, u: int): Act
    requires !p.Finished?
  {
    match p
    case Leaving(_) => Offline(u)
    case AtRoom(_) => ReadRoom(u)
    case Checking(_, _, _) => Check(u)
    case Saving(_, _) => Save(u)
  }

  ghost function Stage(p: Proc): nat {
    match p
    case Leaving(_) => 3
    case AtRoom(_) => 2
    case Checking(_, _, _) => 1
    case Saving(_, _) => 0
    case Finished => 0
  }

  ghost function Unseen(p: Proc): nat {
    if p.Checking? && p.seen < |p.copy.users| then |p.copy.users| - p.seen else 0
  }

  /** What one command of u's logout does. */
  lemma NextStep(s: State, u: int)
    requires u in s.procs && !s.procs[u].Finished? && Working(s.procs[u])
    ensures Enabled(s, NextAct(s.procs[u], u))
    ensures var p := s.procs[u];
            var m := Do(s, NextAct(p, u));
            && m.rooms == s.rooms && m.chats == s.chats && u in m.procs && m.procs == s.procs[u := m.procs[u]]
            && m.loaded == (if p.Leaving? then s.loaded - {u} else s.loaded) && !m.procs[u].Leaving?
            && Working(m.procs[u])
            && (forall r :: r in Rest(m.procs[u]) ==> r in p.rest)
            && m.saved == (if p.Saving? then s.saved[p.rest[0] := p.copy] else s.saved)
            && (p.Saving? ==> m.procs[u] == AtRoom(p.rest[1..]))
            && (m.procs[u].Finished? || |Rest(m.procs[u])| < |p.rest|
                || (m.procs[u].rest == p.rest
                    && (Stage(m.procs[u]) < Stage(p)
                        || (m.procs[u].Checking? && p.Checking? && Unseen(m.procs[u]) < Unseen(p)))))
  {
  }

  /** Every logout can run to its end whatever the others do. */
  lemma {:induction false} Finish(s: State, u: int) returns (acts: seq<Act>, t: State)
    requires u in s.procs && Working(s.procs[u])
    ensures Leads(s, acts, t) && Commands(acts) && Finishes(s, u, t)
    decreases if s.procs[u].Finished? then 0 else 1, |Rest(s.procs[u])|, Stage(s.procs[u]), Unseen(s.procs[u])
  {
    if s.procs[u].Finished? {
      assert s.procs[u := Finished] == s.procs;
      acts, t := [], s;
    } else {
      var a := NextAct(s.procs[u], u);
      NextStep(s, u);
      hide Do, Enabled, Leads;
      acts, t := Finish(Do(s, a), u);
      assert Do(s, a).procs[u := Finished] == s.procs[u := Finished];
      LeadsOn(s, a, Do(s, a), acts, t);
      acts := [a] + acts;
    }
  }

  ghost function Busy(s: State, h: int): set<int> {
    set u | u in s.procs && u != h && !s.procs[u].Finished?
  }

  ghost function LoadedAmong(s: State, members: seq<int>): set<int> {
    set m | m in members && m in s.loaded
  }

  /** All other logouts end, and the members still loaded log out, while h waits. */
  lemma {:induction false} EveryoneElseLeaves(s: State, h: int, members: seq<int>) returns (acts: seq<Act>, t: State)
    requires AllWorking(s) && h in s.procs && h !in s.loaded
    requires forall m :: m in members ==> m in s.chats
    ensures Leads(s, acts, t) && Commands(acts)
    ensures t.rooms == s.rooms && t.loaded <= s.loaded && LoadedAmong(t, members) == {} && Busy(t, h) == {}
    ensures h in t.procs && t.procs[h] == s.procs[h]
    decreases |Busy(s, h)| + |LoadedAmong(s, members)|
  {
    hide Possible, DoAll;
    if u :| u in Busy(s, h) {
      var m: State;
      acts, m := Finish(s, u);
      assert Busy(m, h) == Busy(s, h) - {u};
      Fewer(LoadedAmong(m, members), LoadedAmong(s, members));
      var more;
      more, t := EveryoneElseLeaves(m, h, members);
      LeadsFurther(s, acts, m, more, t);
      acts := acts + more;
    } else if u :| u in LoadedAmong(s, members) {
      assert Idle(s, u) by { assert u !in Busy(s, h); }
      var m := Do(s, Begin(u));
      var n: State;
      acts, n := Finish(m, u);
      LeadsOn(s, Begin(u), m, acts, n);
      acts := [Begin(u)] + acts;
      assert LoadedAmong(n, members) == LoadedAmong(s, members) - {u};
      Fewer(Busy(n, h), Busy(s, h));
      var more;
      more, t := EveryoneElseLeaves(n, h, members);
      LeadsFurther(s, acts, n, more, t);
      acts := acts + more;
    } else {
      assert forall u :: u !in Busy(s, h) && u !in LoadedAmong(s, members);
      acts, t := [], s;
      LeadsNowhere(s);
    }
  }

  lemma Fewer(a: set<int>, b: set<int>)
    requires a <= b
    ensures |a| <= |b|
  {
    if a != b {
      assert b == a + (b - a);
    }
  }

  /** With nobody of the room loaded, h ends by saving the copy it holds, whatever Redis has by now. */
  lemma {:induction false} HolderSaves(s: State, h: int, r: int) returns (acts: seq<Act>, t: State)
    requires Holding(s, h, r) && NoDup(s.procs[h].rest) && LoadedAmong(s, s.procs[h].copy.users) == {}
    ensures Leads(s, acts, t) && Commands(acts)
    ensures t.rooms == s.rooms && t.loaded == s.loaded && t.procs == s.procs[h := Finished]
    ensures r in t.saved && t.saved[r] == s.procs[h].copy
    decreases if s.procs[h].Checking? then 1 else 0, Unseen(s.procs[h])
  {
    var p := s.procs[h];
    var a := NextAct(p, h);
    NextStep(s, h);
    var m := Do(s, a);
    if p.Saving? {
      assert r !in p.rest[1..];
      hide Do, Enabled, Leads;
      acts, t := Finish(m, h);
    } else {
      assert p.seen < |p.copy.users| ==> p.copy.users[p.seen] in p.copy.users;
      assert p.seen < |p.copy.users| ==> p.copy.users[p.seen] !in LoadedAmong(s, p.copy.users);
      assert m.procs[h] == if p.seen >= |p.copy.users| then Saving(p.rest, p.copy)
                           else Checking(p.rest, p.copy, p.seen + 1);
      hide Do, Enabled, Leads;
      acts, t := HolderSaves(m, h, r);
    }
    assert m.procs[h := Finished] == s.procs[h := Finished];
    LeadsOn(s, a, m, acts, t);
    acts := [a] + acts;
  }

  /** A continuation of s with the message a that ends with no logout under way and the room's
      latest message in Redis alone, though nobody is left to save it. */
  ghost predicate Loses(s: State, a: Act, acts: seq<Act>) {
    && acts != [] && acts[0] == a && Possible(s, acts)
    && AllOrderly(Do(s, a), acts[1..])
    && AllIdle(DoAll(s, acts)) && !Secured(DoAll(s, acts))
  }

  lemma HeldMeansLost(s: State, a: Act) returns (acts: seq<Act>)
    requires Safe(s) && a.Receive? && Enabled(s, a) && Held(s, a.room)
    requires forall m :: m in s.saved[a.room].users ==> m in s.chats
    ensures Loses(s, a, acts)
  {
    var r := a.room;
    var h :| Holding(s, h, r);
    assert forall u :: u in s.procs ==> ProcOk(s, u);
    assert Past(s, h, s.procs[h].rest) && Holds(s, s.procs[h].rest, s.procs[h].copy);
    var m := Do(s, a);
    var copy := s.procs[h].copy;
    assert copy.users == s.saved[r].users && NoDup(s.procs[h].rest);
    OldCopy(s.rooms[r], a.user, a.text, a.date);
    var first, n := EveryoneElseLeaves(m, h, copy.users);
    var second, t := HolderSaves(n, h, r);
    LeadsFurther(m, first, n, second, t);
    var tail := first + second;
    CommandsAreOrderly(m, tail);
    acts := [a] + tail;
    assert acts[1..] == tail;
    assert t.saved[r] == copy && t.rooms[r] == Posted(s.rooms[r], a.user, a.text, a.date);
    assert !InSync(t, r);
    assert forall u :: u in copy.users ==> u !in LoadedAmong(n, copy.users);
    assert AllIdle(t) by {
      forall u | u in t.procs ensures t.procs[u].Finished? { assert u !in Busy(n, h); }
    }
  }

  lemma OldCopy(keys: RoomKeys, user: int, text: string, date: int)
    ensures |Snapshot(1, Posted(keys, user, text, date)).messages| == |Snapshot(1, keys).messages| + 1
    ensures forall r :: Snapshot(r, Posted(keys, user, text, date)) != Snapshot(r, keys)
  {
    forall r ensures Snapshot(r, Posted(keys, user, text, date)) != Snapshot(r, keys) {
      assert |Snapshot(r, Posted(keys, user, text, date)).messages| == |Snapshot(r, keys).messages| + 1;
    }
  }

  /** In every safe state: a message can be lost if and only if a logout holds a copy of its room. */
  lemma LostExactlyWhenHeld(s: State, a: Act)
    requires Safe(s) && a.Receive? && Enabled(s, a)
    requires forall m :: m in s.saved[a.room].users ==> m in s.chats
    ensures Held(s, a.room) <==> exists acts :: Loses(s, a, acts)
  {
    if Held(s, a.room) {
      var acts := HeldMeansLost(s, a);
    } else {
      forall acts ensures !Loses(s, a, acts) {
        if acts != [] && acts[0] == a && Possible(s, acts)
           && AllOrderly(Do(s, a), acts[1..]) && AllIdle(DoAll(s, acts)) {
          LastLeaverSaves(s, acts);
        }
      }
    }
  }
}
