/**
  The client's pending requests: one slot per kind, a waiter thread each, signals from the packet
  handler, cancellation, a deadline, and a deferred callback that reports a verdict and frees the slot.
  All of these interleave.
*/
module Requests {
  import opened Base

  datatype Kind = Login | Register | Logout | SendMessage | AddFriend | CreateChat

  datatype Phase =
    | Starting    // waiter thread created
    | Blocked     // waiting on the condition
    | Posted      // waiter done, callback queued

  datatype Request = Request(kind: Kind, received: bool, timeout: bool, success: bool, phase: Phase, born: nat)

  datatype Verdict = TimedOut | Success | Failure

  datatype Report = Report(id: nat, kind: Kind, verdict: Verdict, at: nat)

  datatype Act =
    | Start(kind: Kind) | Signal(kind: Kind, ok: bool) | Cancel(kind: Kind)
    | Enter(id: nat) | Wake(id: nat) | Expire(id: nat) | Dispatch(id: nat)

  /** The table, the live requests, the callbacks run so far, and the acts so far. */
  datatype State = State(slots: map<Kind, nat>, live: map<nat, Request>, next: nat, reports: seq<Report>, log: seq<Act>)

  const EMPTY := State(map[], map[], 0, [], [])

  predicate Enabled(s: State, a: Act) {
    match a
    case Enter(id) => id in s.live && s.live[id].phase.Starting?
    case Wake(id) => id in s.live && s.live[id].phase.Blocked?
    case Expire(id) => id in s.live && s.live[id].phase.Blocked?
    case Dispatch(id) => id in s.live && s.live[id].phase.Posted?
    case _ => true
  }

  function VerdictOf(r: Request): Verdict {
    if r.timeout then TimedOut else if r.received && r.success then Success else Failure
  }

  /** The waiter's loop test: done once a response came or the request was marked timed out. */
  function Tested(r: Request): Request {
    r.(phase := if r.received || r.timeout then Posted else Blocked)
  }

  function Do(s: State, a: Act): State
    requires Enabled(s, a)
  {
    Effect(s, a).(log := s.log + [a])
  }

  function Effect(s: State, a: Act): State
    requires Enabled(s, a)
  {
    match a
    case Start(k) =>
      if k in s.slots then s
      else s.(slots := s.slots[k := s.next], next := s.next + 1,
              live := s.live[s.next := Request(k, false, false, false, Starting, |s.log|)])
    case Signal(k, ok) =>
      if k !in s.slots || s.slots[k] !in s.live then s
      else s.(live := s.live[s.slots[k] := s.live[s.slots[k]].(received := true, success := ok)])
    case Cancel(k) =>
      if k !in s.slots || s.slots[k] !in s.live then s
      else s.(live := s.live[s.slots[k] := s.live[s.slots[k]].(timeout := true)])
    case Enter(id) => s.(live := s.live[id := Tested(s.live[id])])
    case Wake(id) => s.(live := s.live[id := Tested(s.live[id])])
    case Expire(id) =>
      s.(live := s.live[id := s.live[id].(timeout := s.live[id].timeout || !s.live[id].received, phase := Posted)])
    case Dispatch(id) =>
      var r := s.live[id];
      s.(slots := if r.kind in s.slots && s.slots[r.kind] == id then s.slots - {r.kind} else s.slots,
         live := s.live - {id},
         reports := s.reports + [Report(id, r.kind, VerdictOf(r), |s.log|)])
  }

  // ---------------------------------------------------------------- the table itself

  class RequestTable {
    var slots: map<Kind, nat>
    var live: map<nat, Request>
    var next: nat
    var reports: seq<Report>   // the dialogs shown
    var log: seq<Act>          // the calls made, in order

    ghost function View(): State
      reads this
    {
      State(slots, live, next, reports, log)
    }

    ghost predicate Valid()
      reads this
    {
      SlotsOk(View()) && forall id :: id in live ==> id < next
    }

    constructor ()
      ensures View() == EMPTY && Valid()
    {
      slots, live, next, reports, log := map[], map[], 0, [], [];
    }

    /** `start_request` and its new waiter thread. */
    method StartRequest(kind: Kind) returns (started: bool)
      requires Valid()
      modifies this
      ensures Valid() && View() == Do(old(View()), Start(kind))
      ensures started <==> kind !in old(slots)
    {
      log := log + [Start(kind)];
      if kind in slots {
        return false;
      }
      live := live[next := Request(kind, false, false, false, Starting, |log| - 1)];
      slots := slots[kind := next];
      next := next + 1;
      started := true;
    }

    /** `signal_response`, lookup and write in one step. */
    method SignalResponse(kind: Kind, ok: bool)
      requires Valid()
      modifies this
      ensures Valid() && View() == Do(old(View()), Signal(kind, ok))
    {
      log := log + [Signal(kind, ok)];
      if kind in slots {
        var id := slots[kind];
        live := live[id := live[id].(received := true, success := ok)];
      }
    }

    method CancelRequest(kind: Kind)
      requires Valid()
      modifies this
      ensures Valid() && View() == Do(old(View()), Cancel(kind))
    {
      log := log + [Cancel(kind)];
      if kind in slots {
        var id := slots[kind];
        live := live[id := live[id].(timeout := true)];
      }
    }

    method IsRequestPending(kind: Kind) returns (pending: bool)
      ensures pending <==> kind in slots
    {
      pending := kind in slots;
    }

    /** One pass of `response_wait_thread` over its loop test, first or after a wake-up. */
    method Test(id: nat)
      requires Valid() && id in live && !live[id].phase.Posted?
      modifies this
      ensures Valid() && View() == Do(old(View()), if old(live)[id].phase.Starting? then Enter(id) else Wake(id))
    {
      log := log + [if live[id].phase.Starting? then Enter(id) else Wake(id)];
      if !live[id].received && !live[id].timeout {
        live := live[id := live[id].(phase := Blocked)];
      } else {
        live := live[id := live[id].(phase := Posted)];
      }
    }

    /** The timed wait runs out. */
    method RunOut(id: nat)
      requires Valid() && id in live && live[id].phase.Blocked?
      modifies this
      ensures Valid() && View() == Do(old(View()), Expire(id))
    {
      log := log + [Expire(id)];
      if !live[id].received {
        live := live[id := live[id].(timeout := true)];
      }
      live := live[id := live[id].(phase := Posted)];
    }

    /** `show_response_dialog`: the kind's callback, which ends in `cleanup_response_data`. */
    method ShowResponse(id: nat) returns (verdict: Verdict)
      requires Valid() && id in live && live[id].phase.Posted?
      modifies this
      ensures Valid() && View() == Do(old(View()), Dispatch(id))
      ensures verdict == VerdictOf(old(live)[id])
    {
      var r := live[id];
      if r.timeout {
        verdict := TimedOut;
      } else if r.received && r.success {
        verdict := Success;
      } else {
        verdict := Failure;
      }
      reports := reports + [Report(id, r.kind, verdict, |log|)];
      log := log + [Dispatch(id)];
      if r.kind in slots && slots[r.kind] == id {
        slots := slots - {r.kind};
      }
      live := live - {id};
    }
  }

  // ---------------------------------------------------------------- what the log says

  /** The last signal for a kind in a stretch of the log. */
  function LastSignal(acts: seq<Act>, kind: Kind): Option<bool> {
    if acts == [] then None
    else
      var last := acts[|acts| - 1];
      if last.Signal? && last.kind == kind then Some(last.ok) else LastSignal(acts[..|acts| - 1], kind)
  }

  ghost predicate Cancelled(acts: seq<Act>, kind: Kind) {
    Cancel(kind) in acts
  }

  /** The deadline of request id came while no response to its kind had been recorded. */
  ghost predicate Missed(acts: seq<Act>, id: nat, kind: Kind) {
    exists i :: 0 <= i < |acts| && MissedAt(acts, id, kind, i)
  }

  /** A response, a cancellation or a missed deadline: what the waiter waits for. */
  ghost predicate Heard(acts: seq<Act>, id: nat, kind: Kind) {
    LastSignal(acts, kind).Some? || Cancelled(acts, kind) || Missed(acts, id, kind)
  }

  ghost predicate MissedAt(acts: seq<Act>, id: nat, kind: Kind, i: nat)
    requires i < |acts|
  {
    acts[i] == Expire(id) && LastSignal(acts[..i], kind) == None
  }

  /** A request's flags are what the log since its start says. */
  ghost predicate Tells(s: State, id: nat)
    requires id in s.live
  {
    s.live[id].born <= |s.log| && TellsBy(s.live[id], s.log[s.live[id].born..], id)
  }

  ghost predicate TellsBy(r: Request, since: seq<Act>, id: nat) {
    && r.received == LastSignal(since, r.kind).Some?
    && r.success == (LastSignal(since, r.kind) == Some(true))
    && r.timeout == (Cancelled(since, r.kind) || Missed(since, id, r.kind))
    && (r.phase.Posted? ==> Heard(since, id, r.kind))
  }

  ghost predicate SlotsOk(s: State) {
    && (forall k :: k in s.slots ==> s.slots[k] in s.live && s.live[s.slots[k]].kind == k)
    && (forall id :: id in s.live ==> s.live[id].kind in s.slots && s.slots[s.live[id].kind] == id)
  }

  /** Every id handed out is either live or reported, once. */
  ghost predicate Accounted(s: State) {
    && (forall id :: id in s.live ==> id < s.next)
    && (forall i :: 0 <= i < |s.reports| ==> s.reports[i].id < s.next && s.reports[i].id !in s.live)
    && (forall i, j :: 0 <= i < j < |s.reports| ==> s.reports[i].id != s.reports[j].id)
    && (forall id: nat :: id < s.next && id !in s.live ==> Reported(s, id))
  }

  ghost predicate Reported(s: State, id: nat) {
    exists i :: 0 <= i < |s.reports| && s.reports[i].id == id
  }

  ghost predicate AllTell(s: State) {
    forall id :: id in s.live ==> Tells(s, id)
  }

  ghost predicate Inv(s: State) {
    SlotsOk(s) && Accounted(s) && AllTell(s)
  }

  /** What one act does to one live request. */
  function Touched(r: Request, a: Act, id: nat): Request {
    match a
    case Signal(k, ok) => if k == r.kind then r.(received := true, success := ok) else r
    case Cancel(k) => if k == r.kind then r.(timeout := true) else r
    case Enter(i) => if i == id then Tested(r) else r
    case Wake(i) => if i == id then Tested(r) else r
    case Expire(i) => if i == id then r.(timeout := r.timeout || !r.received, phase := Posted) else r
    case _ => r
  }

  lemma EffectTouches(s: State, a: Act)
    requires SlotsOk(s) && Enabled(s, a) && forall id :: id in s.live ==> id < s.next
    ensures var t := Do(s, a);
            && (forall id :: id in t.live && id in s.live ==> t.live[id] == Touched(s.live[id], a, id))
            && (forall id :: id in s.live && id !in t.live ==> a == Dispatch(id))
            && (forall id :: id in t.live && id !in s.live ==>
                  a.Start? && id == s.next && t.live[id] == Request(a.kind, false, false, false, Starting, |s.log|))
  {
  }

  lemma SlotsKept(s: State, a: Act)
    requires SlotsOk(s) && Enabled(s, a) && forall id :: id in s.live ==> id < s.next
    ensures SlotsOk(Do(s, a))
  {
    EffectTouches(s, a);
    EffectOnSlots(s, a);
    var t := Do(s, a);
    hide Do, Tested;
    forall id | id in t.live ensures t.live[id].kind in t.slots && t.slots[t.live[id].kind] == id {
      if id in s.live {
        assert t.live[id].kind == s.live[id].kind;
      }
    }
  }

  lemma EffectOnSlots(s: State, a: Act)
    requires SlotsOk(s) && Enabled(s, a)
    ensures var t := Do(s, a);
            && t.slots == (if a.Start? && a.kind !in s.slots then s.slots[a.kind := s.next]
                           else if a.Dispatch? then s.slots - {s.live[a.id].kind} else s.slots)
            && t.live.Keys == (if a.Start? && a.kind !in s.slots then s.live.Keys + {s.next}
                               else if a.Dispatch? then s.live.Keys - {a.id} else s.live.Keys)
  {
    hide Tested, VerdictOf;
  }

  lemma AccountKept(s: State, a: Act)
    requires SlotsOk(s) && Accounted(s) && Enabled(s, a)
    ensures Accounted(Do(s, a))
  {
    var t := Do(s, a);
    EffectOnReports(s, a);
    EffectOnSlots(s, a);
    hide Do, SlotsOk, Enabled;
    forall id: nat | id < t.next && id !in t.live ensures Reported(t, id) {
      if a.Dispatch? && a.id == id {
        assert t.reports[|s.reports|].id == id;
      } else {
        assert id !in s.live && id < s.next && Reported(s, id);
        var i :| 0 <= i < |s.reports| && s.reports[i].id == id;
        assert t.reports[i] == s.reports[i];
      }
    }
  }

  lemma EffectOnReports(s: State, a: Act)
    requires Enabled(s, a)
    ensures var t := Do(s, a);
            && s.reports <= t.reports && |t.reports| == |s.reports| + (if a.Dispatch? then 1 else 0)
            && (a.Dispatch? ==> a.id in s.live && t.reports[|s.reports|].id == a.id)
            && t.next == s.next + if a.Start? && a.kind !in s.slots then 1 else 0
  {
  }

  lemma SinceGrows(s: State, a: Act, born: nat)
    requires born <= |s.log|
    ensures (s.log + [a])[born..] == s.log[born..] + [a]
  {
  }

  lemma LastSignalStep(acts: seq<Act>, a: Act, kind: Kind)
    ensures LastSignal(acts + [a], kind) == if a.Signal? && a.kind == kind then Some(a.ok) else LastSignal(acts, kind)
  {
    assert (acts + [a])[..|acts|] == acts;
  }

  lemma MissedStep(acts: seq<Act>, a: Act, id: nat, kind: Kind)
    ensures Missed(acts + [a], id, kind)
       <==> Missed(acts, id, kind) || (a == Expire(id) && LastSignal(acts, kind) == None)
  {
    var more := acts + [a];
    assert more[..|acts|] == acts;
    forall i: nat | i < |acts| ensures MissedAt(more, id, kind, i) <==> MissedAt(acts, id, kind, i) {
      assert more[..i] == acts[..i];
    }
    if i: nat :| i < |acts| && MissedAt(acts, id, kind, i) {
      assert MissedAt(more, id, kind, i);
    }
    assert MissedAt(more, id, kind, |acts|) <==> a == Expire(id) && LastSignal(acts, kind) == None;
  }

  lemma TouchTells(r: Request, since: seq<Act>, a: Act, id: nat)
    requires TellsBy(r, since, id)
    ensures TellsBy(Touched(r, a, id), since + [a], id)
  {
    LastSignalStep(since, a, r.kind);
    MissedStep(since, a, id, r.kind);
    hide Missed, LastSignal;
  }

  lemma DoKeepsInv(s: State, a: Act)
    requires Inv(s) && Enabled(s, a)
    ensures Inv(Do(s, a))
  {
    SlotsKept(s, a);
    AccountKept(s, a);
    DoTells(s, a);
  }

  lemma DoTells(s: State, a: Act)
    requires Inv(s) && Enabled(s, a)
    ensures AllTell(Do(s, a))
  {
    var t := Do(s, a);
    EffectTouches(s, a);
    assert t.log == s.log + [a];
    hide Do, Effect, Touched, TellsBy;
    forall id | id in t.live ensures Tells(t, id) {
      if id in s.live {
        var r := s.live[id];
        assert Tells(s, id);
        SinceGrows(s, a, r.born);
        TouchTells(r, s.log[r.born..], a, id);
        TouchKeepsBirth(r, a, id);
      } else {
        FirstTells(a, t.live[id], id);
        assert t.log[|s.log|..] == [a];
      }
    }
  }

  lemma TouchKeepsBirth(r: Request, a: Act, id: nat)
    ensures Touched(r, a, id).born == r.born && Touched(r, a, id).kind == r.kind
  {
  }

  lemma FirstTells(a: Act, r: Request, id: nat)
    requires a.Start? && r == Request(a.kind, false, false, false, Starting, r.born)
    ensures TellsBy(r, [a], id)
  {
    LastSignalStep([], a, r.kind);
    assert [] + [a] == [a];
  }

  // ---------------------------------------------------------------- runs

  ghost predicate Possible(s: State, acts: seq<Act>)
    decreases |acts|
  {
    acts != [] ==> Enabled(s, acts[0]) && Possible(Do(s, acts[0]), acts[1..])
  }

  ghost function DoAll(s: State, acts: seq<Act>): State
    requires Possible(s, acts)
    decreases |acts|
  {
    if acts == [] then s else DoAll(Do(s, acts[0]), acts[1..])
  }

  lemma {:induction false} RunKeepsInv(s: State, acts: seq<Act>)
    requires Inv(s) && Possible(s, acts)
    ensures Inv(DoAll(s, acts))
    decreases |acts|
  {
    if acts == [] {
    } else {
      DoKeepsInv(s, acts[0]);
      RunKeepsInv(Do(s, acts[0]), acts[1..]);
    }
  }

  /** Two live requests are never of one kind. */
  lemma OneLiveRequestPerKind(acts: seq<Act>, i: nat, j: nat)
    requires Possible(EMPTY, acts)
    requires i in DoAll(EMPTY, acts).live && j in DoAll(EMPTY, acts).live
    requires DoAll(EMPTY, acts).live[i].kind == DoAll(EMPTY, acts).live[j].kind
    ensures i == j
  {
    RunKeepsInv(EMPTY, acts);
  }

  /** No thread can do anything more with the live requests. */
  ghost predicate Quiet(s: State) {
    forall id: nat :: !Enabled(s, Enter(id)) && !Enabled(s, Expire(id)) && !Enabled(s, Dispatch(id))
  }

  /** A request is never stuck, and once the threads are quiet every request ever started has had
      exactly one callback and every slot is free. */
  lemma EveryRequestReportsOnce(acts: seq<Act>)
    requires Possible(EMPTY, acts) && Quiet(DoAll(EMPTY, acts))
    ensures var s := DoAll(EMPTY, acts);
            && s.slots == map[] && s.live == map[] && |s.reports| == s.next
            && (forall id: nat :: id < s.next ==> Reported(s, id))
  {
    RunKeepsInv(EMPTY, acts);
    QuietMeansReported(DoAll(EMPTY, acts));
  }

  lemma QuietMeansReported(s: State)
    requires Inv(s) && Quiet(s)
    ensures s.slots == map[] && s.live == map[] && |s.reports| == s.next
    ensures forall id: nat :: id < s.next ==> Reported(s, id)
  {
    forall id: nat ensures id !in s.live {
      assert !Enabled(s, Enter(id)) && !Enabled(s, Expire(id)) && !Enabled(s, Dispatch(id));
    }
    assert s.live == map[];
    var ids := seq(|s.reports|, i requires 0 <= i < |s.reports| => s.reports[i].id as int);
    forall x: int ensures x in ids <==> 0 <= x < s.next {
      if 0 <= x < s.next {
        assert Reported(s, x);
        var i :| 0 <= i < |s.reports| && s.reports[i].id == x;
        assert ids[i] == x;
      }
    }
    DistinctBelow(ids, s.next);
  }

  lemma DistinctBelow(ids: seq<int>, n: nat)
    requires NoDup(ids) && forall x :: x in ids <==> 0 <= x < n
    ensures |ids| == n
  {
    var all := seq(n, i => i);
    assert NoDup(all);
    forall x ensures multiset(ids)[x] == multiset(all)[x] {
      OccursOnce(ids, x);
      OccursOnce(all, x);
      assert 0 <= x < n ==> all[x] == x;
    }
    assert multiset(ids) == multiset(all);
    assert |multiset(ids)| == |multiset(all)|;
  }

  /** A slot is given up only by its own request's callback. */
  lemma OnlyOwnCleanupClears(s: State, a: Act, k: Kind)
    requires Inv(s) && Enabled(s, a) && k in s.slots
    ensures k !in Do(s, a).slots || Do(s, a).slots[k] != s.slots[k] <==> a == Dispatch(s.slots[k])
  {
    assert s.live[s.slots[k]].kind == k;
  }

  /** What a callback reports is determined by what happened since its request started: a timeout
      exactly when it was cancelled or its deadline came before any response, whatever came later, and
      otherwise what the last signal said. */
  lemma VerdictsAreTrue(acts: seq<Act>, id: nat)
    requires Possible(EMPTY, acts) && Enabled(DoAll(EMPTY, acts), Dispatch(id))
    ensures var s := DoAll(EMPTY, acts);
            s.live[id].born <= |s.log|
    ensures var s := DoAll(EMPTY, acts);
            var kind := s.live[id].kind;
            var since := s.log[s.live[id].born..];
            var report := Do(s, Dispatch(id)).reports[|s.reports|];
            && report.id == id && report.kind == kind
            && report.verdict == (if Cancelled(since, kind) || Missed(since, id, kind) then TimedOut
                                  else if LastSignal(since, kind) == Some(true) then Success
                                  else Failure)
            && (report.verdict == Failure ==> LastSignal(since, kind) == Some(false))
  {
    hide *;
    FromTheStart(acts);
    LiveTells(DoAll(EMPTY, acts), id);
    VerdictTold(DoAll(EMPTY, acts), id);
  }

  lemma FromTheStart(acts: seq<Act>)
    requires Possible(EMPTY, acts)
    ensures Inv(DoAll(EMPTY, acts))
  {
    RunKeepsInv(EMPTY, acts);
  }

  lemma LiveTells(s: State, id: nat)
    requires Inv(s) && (Enabled(s, Dispatch(id)) || id in s.live)
    ensures id in s.live && s.live[id].born <= |s.log| && TellsBy(s.live[id], s.log[s.live[id].born..], id)
  {
    hide TellsBy;
    assert Tells(s, id);
  }

  lemma VerdictTold(s: State, id: nat)
    requires Enabled(s, Dispatch(id)) && s.live[id].born <= |s.log|
    requires TellsBy(s.live[id], s.log[s.live[id].born..], id)
    ensures var kind := s.live[id].kind;
            var since := s.log[s.live[id].born..];
            && |Do(s, Dispatch(id)).reports| == |s.reports| + 1
            && var report := Do(s, Dispatch(id)).reports[|s.reports|];
               && report.id == id && report.kind == kind
               && report.verdict == (if Cancelled(since, kind) || Missed(since, id, kind) then TimedOut
                                     else if LastSignal(since, kind) == Some(true) then Success
                                     else Failure)
               && (report.verdict == Failure ==> LastSignal(since, kind) == Some(false))
  {
    hide LastSignal, Cancelled, Missed;
    var r := s.live[id];
    var since := s.log[r.born..];
    assert Heard(since, id, r.kind) && r.phase.Posted?;
    assert LastSignal(since, r.kind) == None || LastSignal(since, r.kind) == Some(true)
        || LastSignal(since, r.kind) == Some(false) by {
      if LastSignal(since, r.kind).Some? {
        var ok := LastSignal(since, r.kind).value;
        assert LastSignal(since, r.kind) == Some(ok);
      }
    }
  }

  /** Over every run a waiter is done only when something it waits for has happened. */
  lemma PostedMeansHeard(acts: seq<Act>, id: nat)
    requires Possible(EMPTY, acts) && id in DoAll(EMPTY, acts).live
    ensures var s := DoAll(EMPTY, acts);
            && s.live[id].born <= |s.log|
            && (s.live[id].phase.Posted? ==> Heard(s.log[s.live[id].born..], id, s.live[id].kind))
  {
    RunKeepsInv(EMPTY, acts);
    LiveTells(DoAll(EMPTY, acts), id);
    hide LastSignal, Cancelled, Missed;
  }

  /** Exactly when a waiter that looks stops waiting: on entering and on every wake-up, if something it
      waits for has happened since the start, and otherwise it blocks; at its deadline in any case. */
  lemma WaitsExactly(acts: seq<Act>, a: Act, id: nat)
    requires Possible(EMPTY, acts) && Enabled(DoAll(EMPTY, acts), a)
    requires a == Enter(id) || a == Wake(id) || a == Expire(id)
    ensures var s := DoAll(EMPTY, acts);
            var t := Do(s, a);
            && id in s.live && id in t.live && s.live[id].born <= |s.log|
            && t.live[id].phase == if a.Expire? || Heard(s.log[s.live[id].born..], id, s.live[id].kind)
                                   then Posted else Blocked
  {
    RunKeepsInv(EMPTY, acts);
    LiveTells(DoAll(EMPTY, acts), id);
    hide LastSignal, Cancelled, Missed, Inv;
  }

  /** A request that has its slot and blocks, not cancelled and not past its deadline. */
  ghost predicate Waiting(s: State, kind: Kind, id: nat) {
    && kind in s.slots && s.slots[kind] == id && id in s.live
    && s.live[id].kind == kind && s.live[id].phase.Blocked? && !s.live[id].timeout
  }

  /** Told, woken and called back, it reports what it was told, and its slot is free again. */
  lemma ReportsAsTold(s: State, kind: Kind, id: nat, ok: bool)
    requires Waiting(s, kind, id)
    ensures var told := Do(s, Signal(kind, ok));
            && Enabled(told, Wake(id))
            && var woken := Do(told, Wake(id));
               && Enabled(woken, Dispatch(id))
               && var done := Do(woken, Dispatch(id));
                  && kind !in done.slots
                  && |done.reports| == |s.reports| + 1
                  && done.reports[|s.reports|].id == id && done.reports[|s.reports|].kind == kind
                  && done.reports[|s.reports|].verdict == if ok then Success else Failure
  {
  }

  /** A recorded response that no deadline preceded. */
  ghost predicate Answered(s: State, id: nat) {
    if id in s.live then s.live[id].received && !s.live[id].timeout
    else exists i :: 0 <= i < |s.reports| && s.reports[i].id == id && s.reports[i].verdict != TimedOut
  }

  /** A response is not lost: from the moment it is recorded on a request not yet timed out, only a
      cancellation can turn the verdict, however late the waiter starts or wakes. */
  lemma {:induction false} SignalIsNotLost(s: State, acts: seq<Act>, id: nat, kind: Kind)
    requires Inv(s) && Possible(s, acts) && Answered(s, id) && id < s.next
    requires id in s.live ==> s.live[id].kind == kind
    requires Cancel(kind) !in acts
    ensures Answered(DoAll(s, acts), id)
    decreases |acts|
  {
    if acts == [] {
    } else {
      DoKeepsInv(s, acts[0]);
      assert acts[0] in acts && forall x :: x in acts[1..] ==> x in acts;
      AnswerKept(s, acts[0], id, kind);
      SignalIsNotLost(Do(s, acts[0]), acts[1..], id, kind);
    }
  }

  lemma AnswerKept(s: State, a: Act, id: nat, kind: Kind)
    requires Inv(s) && Enabled(s, a) && Answered(s, id) && id < s.next && a != Cancel(kind)
    requires id in s.live ==> s.live[id].kind == kind
    ensures Answered(Do(s, a), id) && id < Do(s, a).next
    ensures id in Do(s, a).live ==> Do(s, a).live[id].kind == kind
  {
    assert SlotsOk(s) && forall i :: i in s.live ==> i < s.next;
    hide *;
    EffectTouches(s, a);
    EffectOnReports(s, a);
    AnswerTouched(s, a, Do(s, a), id, kind);
  }

  lemma AnswerTouched(s: State, a: Act, t: State, id: nat, kind: Kind)
    requires Enabled(s, a) && t == Do(s, a) && Answered(s, id) && id < s.next && a != Cancel(kind)
    requires id in s.live ==> s.live[id].kind == kind
    requires id in t.live && id in s.live ==> t.live[id] == Touched(s.live[id], a, id)
    requires id in s.live && id !in t.live ==> a == Dispatch(id)
    requires id in t.live && id !in s.live ==> id == s.next
    requires s.reports <= t.reports && s.next <= t.next
    ensures Answered(t, id) && id < t.next && (id in t.live ==> t.live[id].kind == kind)
  {
    if id in s.live {
      if id !in t.live {
        assert t.reports[|s.reports|].id == id && t.reports[|s.reports|].verdict != TimedOut;
      } else {
        hide Do;
      }
    } else {
      hide Do;
      var i :| 0 <= i < |s.reports| && s.reports[i].id == id && s.reports[i].verdict != TimedOut;
      assert t.reports[i] == s.reports[i];
    }
  }
}
