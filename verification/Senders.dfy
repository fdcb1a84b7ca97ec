/**
  Several senders in one room at once.  Drawing a message id and pushing the message are two separate
  store commands, so senders interleave between them; no id is lost, doubled or left without a body,
  the list is in id order exactly when the least drawn id is always pushed first, and all that the
  stores and the service are proved to keep holds with overlapping senders, too.
*/
module Senders {
  import opened Base
  import opened Chat
  import opened Store
  import opened Simulation
  import opened Theorems

  /** The room's keys, and the messages drawn but not yet pushed, by sending thread. */
  datatype State = State(keys: RoomKeys, drawn: map<int, Message>)

  datatype Act = Draw(thread: int, sender: int, text: string, date: int) | Write(thread: int)

  predicate Enabled(s: State, a: Act) {
    match a
    case Draw(t, _, _, _) => t !in s.drawn
    case Write(t) => t in s.drawn
  }

  /** `redis_room_message_next` and `redis_room_message_write`. */
  function Do(s: State, a: Act): State
    requires Enabled(s, a)
  {
    match a
    case Draw(t, sender, text, date) =>
      var id := s.keys.messageAmount + 1;
      State(s.keys.(messageAmount := id), s.drawn[t := Message(id, sender, Clip(text, MESSAGE_MAX_SIZE), date)])
    case Write(t) => State(Push(s.keys, s.drawn[t]), s.drawn - {t})
  }

  /** Listed ids and drawn ids are disjoint and together exactly 1 to the amount; listed ids have bodies. */
  ghost predicate Covers(s: State) {
    && s.keys.messageAmount >= 0
    && NoDup(s.keys.ids)
    && (forall t, u :: t in s.drawn && u in s.drawn && t != u ==> s.drawn[t].id != s.drawn[u].id)
    && (forall t :: t in s.drawn ==> s.drawn[t].id !in s.keys.ids)
    && (forall i :: i in s.keys.ids ==> 1 <= i <= s.keys.messageAmount && i in s.keys.bodies)
    && (forall t :: t in s.drawn ==> 1 <= s.drawn[t].id <= s.keys.messageAmount)
    && (forall i :: 1 <= i <= s.keys.messageAmount ==> i in s.keys.ids || DrawnId(s, i))
  }

  ghost predicate DrawnId(s: State, i: int) {
    exists t :: t in s.drawn && s.drawn[t].id == i
  }

  lemma DrawCovers(s: State, a: Act)
    requires Covers(s) && a.Draw? && Enabled(s, a)
    ensures Covers(Do(s, a))
  {
    var n := Do(s, a);
    forall i | 1 <= i <= n.keys.messageAmount ensures i in n.keys.ids || DrawnId(n, i) {
      if i <= s.keys.messageAmount {
        if i !in s.keys.ids {
          var t :| t in s.drawn && s.drawn[t].id == i;
          assert n.drawn[t].id == i;
        }
      } else {
        assert n.drawn[a.thread].id == i;
      }
    }
  }

  lemma WriteCovers(s: State, a: Act)
    requires Covers(s) && a.Write? && Enabled(s, a)
    ensures Covers(Do(s, a))
  {
    var n := Do(s, a);
    var id := s.drawn[a.thread].id;
    assert n.keys.ids == s.keys.ids + [id];
    forall i | 1 <= i <= n.keys.messageAmount ensures i in n.keys.ids || DrawnId(n, i) {
      if i !in s.keys.ids && i != id {
        var t :| t in s.drawn && s.drawn[t].id == i;
        assert t in n.drawn && n.drawn[t].id == i;
      }
    }
  }

  ghost predicate Possible(s: State, acts: seq<Act>)
    decreases |acts|
  {
    acts != [] ==> Enabled(s, acts[0]) && Possible(Do(s, acts[0]), acts[1..])
  }

  ghost function DoAll(s: State, acts: seq<Act>): State
    requires Possible(s, acts)
    decreases |acts|
  {
    if acts == [] then s else DoAll(Do(s, acts[0]), acts[1..])
  }

  lemma {:induction false} RunCovers(s: State, acts: seq<Act>)
    requires Covers(s) && Possible(s, acts)
    ensures Covers(DoAll(s, acts))
    decreases |acts|
  {
    if acts == [] {
    } else {
      if acts[0].Draw? { DrawCovers(s, acts[0]); } else { WriteCovers(s, acts[0]); }
      RunCovers(Do(s, acts[0]), acts[1..]);
    }
  }

  function UpTo(n: nat): (ids: seq<int>)
    ensures |ids| == n && forall i :: 0 <= i < n ==> ids[i] == i + 1
  {
    seq(n, i => i + 1)
  }

  /** A listed message keeps its content, whoever else is sending. */
  lemma {:induction false} ListedStays(s: State, acts: seq<Act>, id: int)
    requires Covers(s) && Possible(s, acts) && id in s.keys.ids
    ensures id in DoAll(s, acts).keys.ids && Stored(DoAll(s, acts).keys, id) == Stored(s.keys, id)
    decreases |acts|
  {
    if acts == [] {
    } else {
      RunCovers(s, [acts[0]]);
      var n := Do(s, acts[0]);
      assert DoAll(s, [acts[0]]) == n by { assert [acts[0]][1..] == [] && DoAll(n, []) == n; }
      ListedStays(n, acts[1..], id);
    }
  }

  /** With nobody between drawing and writing, the list is a permutation of 1 to the amount, and
      every listed message has its body. */
  lemma QuietRoomIsComplete(s: State, acts: seq<Act>)
    requires Covers(s) && Possible(s, acts) && DoAll(s, acts).drawn == map[]
    ensures var keys := DoAll(s, acts).keys;
            && keys.messageAmount >= 0
            && multiset(keys.ids) == multiset(UpTo(keys.messageAmount))
            && |keys.ids| == keys.messageAmount
            && (forall i :: i in keys.ids ==> i in keys.bodies)
  {
    RunCovers(s, acts);
    var t := DoAll(s, acts);
    var all := UpTo(t.keys.messageAmount);
    forall x ensures multiset(t.keys.ids)[x] == multiset(all)[x] {
      OccursOnce(t.keys.ids, x);
      OccursOnce(all, x);
      assert x in all <==> 1 <= x <= t.keys.messageAmount by {
        if 1 <= x <= t.keys.messageAmount { assert all[x - 1] == x; }
      }
      assert !DrawnId(t, x);
    }
    assert multiset(t.keys.ids) == multiset(all);
    assert |multiset(t.keys.ids)| == |multiset(all)|;
  }

  // ---------------------------------------------------------------- order

  ghost predicate Ordered(s: State) {
    forall i :: 0 <= i < |s.keys.ids| ==> s.keys.ids[i] == i + 1
  }

  /** Whoever pushes holds the least drawn id. */
  ghost predicate LeastFirst(s: State, acts: seq<Act>)
    requires Possible(s, acts)
    decreases |acts|
  {
    acts != [] ==>
      && (acts[0].Write? ==> forall t :: t in s.drawn ==> s.drawn[acts[0].thread].id <= s.drawn[t].id)
      && LeastFirst(Do(s, acts[0]), acts[1..])
  }

  lemma WriteInOrder(s: State, a: Act)
    requires Covers(s) && Ordered(s) && a.Write? && Enabled(s, a)
    ensures Ordered(Do(s, a)) <==> forall t :: t in s.drawn ==> s.drawn[a.thread].id <= s.drawn[t].id
  {
    var next := |s.keys.ids| + 1;
    var id := s.drawn[a.thread].id;
    forall i | 1 <= i < next ensures i in s.keys.ids {
      assert s.keys.ids[i - 1] == i;
    }
    assert forall t :: t in s.drawn ==> s.drawn[t].id >= next;
    assert next !in s.keys.ids;
    assert DrawnId(s, next);
    assert Do(s, a).keys.ids[next - 1] == id;
  }

  lemma {:induction false} ListGrows(s: State, acts: seq<Act>)
    requires Possible(s, acts)
    ensures s.keys.ids <= DoAll(s, acts).keys.ids
    decreases |acts|
  {
    if acts == [] {
    } else {
      ListGrows(Do(s, acts[0]), acts[1..]);
    }
  }

  /** The list ends as 1, 2, ... if and only if every push is of the least drawn id. */
  lemma {:induction false} OrderedIffLeastFirst(s: State, acts: seq<Act>)
    requires Covers(s) && Ordered(s) && Possible(s, acts)
    ensures Ordered(DoAll(s, acts)) <==> LeastFirst(s, acts)
    decreases |acts|
  {
    if acts == [] {
    } else {
      var a := acts[0];
      if a.Draw? { DrawCovers(s, a); } else { WriteCovers(s, a); WriteInOrder(s, a); }
      hide Covers;
      if Ordered(Do(s, a)) {
        OrderedIffLeastFirst(Do(s, a), acts[1..]);
      } else {
        ListGrows(Do(s, a), acts[1..]);
      }
    }
  }

  /** Such a run exists: the later draw can be pushed first. */
  lemma OrderCanSwap()
    ensures var s := State(NO_ROOM, map[]);
            var acts := [Draw(1, 7, "a", 0), Draw(2, 8, "b", 0), Write(2), Write(1)];
            Possible(s, acts) && DoAll(s, acts).keys.ids == [2, 1]
  {
    var s := State(NO_ROOM, map[]);
    var acts := [Draw(1, 7, "a", 0), Draw(2, 8, "b", 0), Write(2), Write(1)];
    var s1 := Do(s, acts[0]);
    var s2 := Do(s1, acts[1]);
    var s3 := Do(s2, acts[2]);
    var s4 := Do(s3, acts[3]);
    assert acts[1..][1..] == acts[2..] && acts[2..][1..] == acts[3..] && acts[3..][1..] == [];
    assert Possible(s4, []) && DoAll(s4, []) == s4;
    assert Possible(s3, acts[3..]) && DoAll(s3, acts[3..]) == s4;
    assert Possible(s2, acts[2..]) && DoAll(s2, acts[2..]) == s4;
    assert Possible(s1, acts[1..]) && DoAll(s1, acts[1..]) == s4;
  }

  // ---------------------------------------------------------------- overlapping senders in the stores

  /** One sender alone does what module Store's single step does. */
  lemma AloneIsOneStep(keys: RoomKeys, thread: int, sender: int, text: string, date: int)
    ensures var acts := [Draw(thread, sender, text, date), Write(thread)];
            && Possible(State(keys, map[]), acts)
            && DoAll(State(keys, map[]), acts) == State(Posted(keys, sender, text, date), map[])
  {
    var acts := [Draw(thread, sender, text, date), Write(thread)];
    var drawn := Do(State(keys, map[]), acts[0]);
    var written := Do(drawn, acts[1]);
    assert acts[1..][1..] == [] && acts[1..][0] == acts[1];
    assert Possible(written, []) && DoAll(written, []) == written;
    assert Possible(drawn, acts[1..]) && DoAll(drawn, acts[1..]) == written;
  }

  /** Distinct ids between 1 and their number leave out none of them. */
  lemma {:induction false} Onto(ids: seq<int>, n: nat)
    requires NoDup(ids) && |ids| == n && forall i :: i in ids ==> 1 <= i <= n
    ensures forall i :: 1 <= i <= n ==> i in ids
    decreases n
  {
    if n == 0 {
    } else if n in ids {
      WithoutKeepsNoDup(ids, n);
      WithoutRemovesOne(ids, n);
      Onto(Without(ids, n), n - 1);
    } else {
      var front := ids[..n - 1];
      assert ids[n - 1] in ids && ids[n - 1] !in front;
      assert forall i :: i in front ==> i in ids;
      Onto(front, n - 1);
    }
  }

  /** Between sends every cached room is in a state senders may start from. */
  lemma CachedRoomCovers(w: World, r: int)
    requires CachedRoomsOk(w) && r in w.redis.rooms
    ensures Covers(State(w.redis.rooms[r], map[]))
  {
    var keys := w.redis.rooms[r];
    assert CachedRoom(w, r);
    Onto(keys.ids, |keys.ids|);
  }

  /** Every message of the room, listed or drawn, is by one of these users. */
  ghost predicate By(s: State, members: seq<int>) {
    && (forall i :: i in s.keys.ids ==> Stored(s.keys, i).sentBy in members)
    && (forall t :: t in s.drawn ==> s.drawn[t].sentBy in members)
  }

  ghost predicate DrawnBy(acts: seq<Act>, members: seq<int>) {
    forall a :: a in acts && a.Draw? ==> a.sender in members
  }

  lemma {:induction false} RunIsByMembers(s: State, acts: seq<Act>, members: seq<int>)
    requires Possible(s, acts) && By(s, members) && DrawnBy(acts, members)
    ensures By(DoAll(s, acts), members) && DoAll(s, acts).keys.users == s.keys.users
    decreases |acts|
  {
    if acts == [] {
    } else {
      assert acts[0] in acts && forall a :: a in acts[1..] ==> a in acts;
      RunIsByMembers(Do(s, acts[0]), acts[1..], members);
    }
  }

  /** Sends that overlap in one room and have all been pushed: the room's list is what module
      Simulation asks of it, and longer. */
  lemma QuietRoomIsCached(s: State, acts: seq<Act>)
    requires Covers(s) && SizedRoomKeys(s.keys) && Possible(s, acts) && DoAll(s, acts).drawn == map[]
    requires DoAll(s, acts).keys.users == s.keys.users
    ensures var keys := DoAll(s, acts).keys;
            && Complete(keys) && |keys.ids| == keys.messageAmount && Listed(s.keys) <= Listed(keys)
            && Numbering(Listed(keys))
  {
    RunCovers(s, acts);
    QuietRoomIsComplete(s, acts);
    ListGrows(s, acts);
    var keys := DoAll(s, acts).keys;
    forall i | 0 <= i < |s.keys.ids| ensures Listed(keys)[i] == Listed(s.keys)[i] {
      assert s.keys.ids[i] in s.keys.ids;
      ListedStays(s, acts, s.keys.ids[i]);
    }
    assert IdsOf(Listed(keys)) == keys.ids;
    forall i | 0 <= i < |keys.ids| ensures 1 <= Listed(keys)[i].id <= |keys.ids| {
      assert keys.ids[i] in keys.ids;
    }
  }

  /** Loaded members of one room send to it at the same time. */
  ghost predicate MayOverlap(w: World, r: int, acts: seq<Act>) {
    && r in w.redis.rooms && Possible(State(w.redis.rooms[r], map[]), acts)
    && DoAll(State(w.redis.rooms[r], map[]), acts).drawn == map[]
    && (forall a :: a in acts && a.Draw? ==> a.sender in w.redis.users && a.sender in w.redis.rooms[r].users)
  }

  ghost function Overlapped(w: World, r: int, acts: seq<Act>): World
    requires MayOverlap(w, r, acts)
  {
    WithKeys(w, r, DoAll(State(w.redis.rooms[r], map[]), acts).keys)
  }

  /** However the sends interleave, the stores stay coherent, the service keeps its invariant, and
      the history of that room alone grows. */
  lemma OverlapIsGood(w: World, r: int, acts: seq<Act>)
    requires Good(w) && MayOverlap(w, r, acts)
    ensures var t := Overlapped(w, r, acts);
            && Good(t) && r in Abs(w).rooms
            && Abs(t) == Abs(w).(rooms := Abs(w).rooms[r := Abs(w).rooms[r].(history := Listed(t.redis.rooms[r]))])
            && Abs(w).rooms[r].history <= Listed(t.redis.rooms[r])
  {
    if acts == [] {
      NothingOverlaps(w, r);
    } else {
      assert acts[0] in acts && acts[0].Draw?;
      hide Good, Abs, Overlapped, MayOverlap;
      OverlapGrows(w, r, acts);
    }
  }

  lemma NothingOverlaps(w: World, r: int)
    requires CachedRoomsOk(w) && MayOverlap(w, r, [])
    ensures Overlapped(w, r, []) == w && r in Abs(w).rooms && Abs(w).rooms[r].history == Listed(w.redis.rooms[r])
    ensures Abs(w).rooms[r := Abs(w).rooms[r].(history := Listed(w.redis.rooms[r]))] == Abs(w).rooms
  {
    assert CachedRoom(w, r);
    hide CachedRoomsOk, CachedRoom, Listed, Profiles;
    assert w.redis.rooms[r := w.redis.rooms[r]] == w.redis.rooms;
  }

  lemma OverlapGrows(w: World, r: int, acts: seq<Act>)
    requires Good(w) && MayOverlap(w, r, acts) && acts != [] && acts[0] in acts && acts[0].Draw?
    ensures var t := Overlapped(w, r, acts);
            && Good(t) && r in Abs(w).rooms
            && Abs(t) == Abs(w).(rooms := Abs(w).rooms[r := Abs(w).rooms[r].(history := Listed(t.redis.rooms[r]))])
            && Abs(w).rooms[r].history <= Listed(t.redis.rooms[r])
  {
    assert CachedRoomsOk(w) && CachedRoom(w, r) && SomeMemberLoaded(w, r) && Authored(Abs(w));
    var s := State(w.redis.rooms[r], map[]);
    assert SizedRoomKeys(s.keys) && DrawnBy(acts, s.keys.users);
    assert Abs(w).rooms[r].history == Listed(s.keys);
    hide *;
    CachedRoomCovers(w, r);
    ListedBy(w, r);
    OverlapKeys(s, acts);
    GrownIsGood(w, r, DoAll(s, acts).keys);
    OverlappedIs(w, r, acts);
  }

  lemma OverlappedIs(w: World, r: int, acts: seq<Act>)
    requires MayOverlap(w, r, acts)
    ensures var keys := DoAll(State(w.redis.rooms[r], map[]), acts).keys;
            Overlapped(w, r, acts) == WithKeys(w, r, keys) && Overlapped(w, r, acts).redis.rooms[r] == keys
  {
    hide DoAll, Possible;
  }

  /** What the room's keys are after an overlap. */
  lemma OverlapKeys(s: State, acts: seq<Act>)
    requires Covers(s) && SizedRoomKeys(s.keys) && Possible(s, acts) && DoAll(s, acts).drawn == map[]
    requires By(s, s.keys.users) && DrawnBy(acts, s.keys.users)
    ensures Grown(s.keys, DoAll(s, acts).keys)
  {
    hide Covers, By, DrawnBy, Complete, Numbering, Listed, Possible, DoAll;
    RunIsByMembers(s, acts, s.keys.users);
    UserAmountStays(s, acts);
    QuietRoomIsCached(s, acts);
    WrittenBy(DoAll(s, acts), s.keys.users);
  }

  /** Longer keys of the same room, numbered, complete and written by its members. */
  ghost predicate Grown(keys: RoomKeys, more: RoomKeys) {
    && SizedRoomKeys(more) && Complete(more) && more.users == keys.users
    && Listed(keys) <= Listed(more) && Numbering(Listed(more))
    && (forall i :: 0 <= i < |Listed(more)| ==> Listed(more)[i].sentBy in keys.users)
  }

  lemma GrownIsGood(w: World, r: int, keys: RoomKeys)
    requires Good(w) && r in w.redis.rooms && Grown(w.redis.rooms[r], keys)
    requires r in w.mongo.rooms ==> SomeMemberLoaded(w, r)
    ensures var t := WithKeys(w, r, keys);
            && Good(t) && r in Abs(w).rooms
            && Abs(t) == Abs(w).(rooms := Abs(w).rooms[r := Abs(w).rooms[r].(history := Listed(keys))])
            && Abs(w).rooms[r].history <= Listed(keys)
  {
    assert CachedRoom(w, r) && Coherent(w) && Inv(Abs(w));
    assert Abs(w).rooms[r] == Room(w.redis.rooms[r].users, Listed(w.redis.rooms[r]));
    hide Coherent, Inv, CachedRoom, Complete, Numbering, Listed, Profiles, Rooms, SizedRoomKeys, SomeMemberLoaded;
    RoomGrows(w, r, keys);
    HistoryKeepsInv(Abs(w), Abs(WithKeys(w, r, keys)), r, Listed(keys));
  }

  lemma {:induction false} UserAmountStays(s: State, acts: seq<Act>)
    requires Possible(s, acts)
    ensures DoAll(s, acts).keys.userAmount == s.keys.userAmount
    decreases |acts|
  {
    if acts == [] {
    } else {
      UserAmountStays(Do(s, acts[0]), acts[1..]);
    }
  }

  lemma WrittenBy(s: State, members: seq<int>)
    requires By(s, members)
    ensures forall i :: 0 <= i < |Listed(s.keys)| ==> Listed(s.keys)[i].sentBy in members
  {
    forall i | 0 <= i < |s.keys.ids| ensures Listed(s.keys)[i].sentBy in members {
      assert s.keys.ids[i] in s.keys.ids;
    }
  }

  lemma ListedBy(w: World, r: int)
    requires Authored(Abs(w)) && CachedRoomsOk(w) && r in w.redis.rooms
    ensures By(State(w.redis.rooms[r], map[]), w.redis.rooms[r].users)
  {
    var keys := w.redis.rooms[r];
    assert CachedRoom(w, r);
    assert Abs(w).rooms[r] == Room(keys.users, Listed(keys));
    forall id | id in keys.ids ensures Stored(keys, id).sentBy in keys.users {
      var i :| 0 <= i < |keys.ids| && keys.ids[i] == id;
      assert Abs(w).rooms[r].history[i].sentBy in Abs(w).rooms[r].members;
    }
  }

  // ---------------------------------------------------------------- runs with overlapping senders

  datatype Turn = One(event: Event) | Together(room: int, acts: seq<Act>)

  ghost predicate May(w: World, turn: Turn) {
    match turn
    case One(e) => Fits(w, e) && Fresh(w, e)
    case Together(r, acts) => MayOverlap(w, r, acts)
  }

  ghost function Take(w: World, turn: Turn): World
    requires May(w, turn)
  {
    match turn
    case One(e) => Store.Step(w, e)
    case Together(r, acts) => Overlapped(w, r, acts)
  }

  ghost predicate MayAll(w: World, turns: seq<Turn>)
    decreases |turns|
  {
    turns != [] ==> May(w, turns[0]) && MayAll(Take(w, turns[0]), turns[1..])
  }

  ghost function TakeAll(w: World, turns: seq<Turn>): World
    requires MayAll(w, turns)
    decreases |turns|
  {
    if turns == [] then w else TakeAll(Take(w, turns[0]), turns[1..])
  }

  lemma TurnIsGood(w: World, turn: Turn)
    requires Good(w) && May(w, turn)
    ensures var t := Take(w, turn);
            && Good(t)
            && (forall r :: r in Abs(w).rooms ==>
                  r in Abs(t).rooms && Abs(w).rooms[r].history <= Abs(t).rooms[r].history)
  {
    hide Good, Abs, Fits, Fresh, Store.Step, Overlapped, MayOverlap, Listed;
    match turn
    case One(e) => OneIsGood(w, e);
    case Together(r, acts) => TogetherIsGood(w, r, acts);
  }

  lemma TogetherIsGood(w: World, r: int, acts: seq<Act>)
    requires Good(w) && MayOverlap(w, r, acts)
    ensures var t := Overlapped(w, r, acts);
            && Good(t)
            && (forall r :: r in Abs(w).rooms ==>
                  r in Abs(t).rooms && Abs(w).rooms[r].history <= Abs(t).rooms[r].history)
  {
    hide Good, Abs, Overlapped, MayOverlap, Listed;
    OverlapIsGood(w, r, acts);
  }

  lemma OneIsGood(w: World, e: Event)
    requires Good(w) && Fresh(w, e)
    ensures var t := Store.Step(w, e);
            && Good(t)
            && (forall r :: r in Abs(w).rooms ==>
                  r in Abs(t).rooms && Abs(w).rooms[r].history <= Abs(t).rooms[r].history)
  {
    assert IdsInRange(Abs(w)) by { hide Coherent; }
    hide Good, Abs, IdsInRange, Chat.Step, Store.Step, Fresh;
    StepSimulates(w, e);
    StepGrowsHistories(Abs(w), e);
  }

  /** Over all runs of events and overlapping sends: the stores end coherent, no accepted message is
      taken back, and MongoDB holds a prefix of every history, all of it when nobody there is loaded. */
  lemma {:induction false} TurnsAreGood(w: World, turns: seq<Turn>)
    requires Good(w) && MayAll(w, turns)
    ensures var t := TakeAll(w, turns);
            && Good(t)
            && (forall r :: r in Abs(w).rooms ==>
                  r in Abs(t).rooms && Abs(w).rooms[r].history <= Abs(t).rooms[r].history)
            && (forall r :: r in Abs(t).rooms ==>
                  && r in t.mongo.rooms && t.mongo.rooms[r].messages <= CutAll(Abs(t).rooms[r].history)
                  && (!SomeMemberLoaded(t, r) ==> t.mongo.rooms[r].messages == CutAll(Abs(t).rooms[r].history)))
    decreases |turns|
  {
    hide Good, Abs, May, Take, SomeMemberLoaded;
    if turns == [] {
      forall r | r in Abs(w).rooms
        ensures r in w.mongo.rooms && w.mongo.rooms[r].messages <= CutAll(Abs(w).rooms[r].history)
        ensures !SomeMemberLoaded(w, r) ==> w.mongo.rooms[r].messages == CutAll(Abs(w).rooms[r].history)
      {
        GoodIsDurable(w, r);
      }
    } else {
      TurnIsGood(w, turns[0]);
      TurnsAreGood(Take(w, turns[0]), turns[1..]);
    }
  }
}
