/**
  Friend requests that overlap, one store command at a time.  Each looks twice before it pushes its
  invite, and nothing keeps another request from pushing in between.
*/
module Invites {
  import opened Base
  import opened Chat

  /** How far one `on_friend_add_request` of u for v has come. */
  datatype Stage =
    | Fresh       // nothing looked up
    | Unrepeated  // v had no invite of u's
    | Adding      // nor u one of v's
    | Accepting   // u had one of v's

  datatype Asking = Asking(u: int, v: int, stage: Stage)

  datatype State = State(invites: map<int, seq<int>>, asks: map<int, Asking>)

  datatype Act = Begin(thread: int, u: int, v: int) | Look(thread: int) | Commit(thread: int)

  predicate Enabled(s: State, a: Act) {
    match a
    case Begin(t, u, v) => t !in s.asks && u != v
    case Look(t) => t in s.asks && (s.asks[t].stage.Fresh? || s.asks[t].stage.Unrepeated?)
    case Commit(t) => t in s.asks && (s.asks[t].stage.Adding? || s.asks[t].stage.Accepting?)
  }

  /** LPOS, LPOS again the other way round, then RPUSH or LREM. */
  function Do(s: State, a: Act): State
    requires Enabled(s, a)
  {
    match a
    case Begin(t, u, v) => s.(asks := s.asks[t := Asking(u, v, Fresh)])
    case Look(t) =>
      var k := s.asks[t];
      if k.stage.Fresh? then
        if k.u in At(s.invites, k.v) then s.(asks := s.asks - {t})
        else s.(asks := s.asks[t := k.(stage := Unrepeated)])
      else s.(asks := s.asks[t := k.(stage := if k.v in At(s.invites, k.u) then Accepting else Adding)])
    case Commit(t) =>
      var k := s.asks[t];
      State(if k.stage.Adding? then s.invites[k.v := At(s.invites, k.v) + [k.u]]
            else s.invites[k.u := Without(At(s.invites, k.u), k.v)],
            s.asks - {t})
  }

  ghost predicate Possible(s: State, acts: seq<Act>)
    decreases |acts|
  {
    acts != [] ==> Enabled(s, acts[0]) && Possible(Do(s, acts[0]), acts[1..])
  }

  ghost function DoAll(s: State, acts: seq<Act>): State
    requires Possible(s, acts)
    decreases |acts|
  {
    if acts == [] then s else DoAll(Do(s, acts[0]), acts[1..])
  }

  /** The invite table as the service's invariant has it: nobody invites themselves or twice, and no
      two users have each other's invite. */
  ghost predicate OneWay(invites: map<int, seq<int>>) {
    Invited(EMPTY.(invites := invites))
  }

  ghost predicate OneWayThroughout(s: State, acts: seq<Act>)
    requires Possible(s, acts)
    decreases |acts|
  {
    OneWay(s.invites) && (acts != [] ==> OneWayThroughout(Do(s, acts[0]), acts[1..]))
  }

  /** A push that finds no invite between the two. */
  predicate PushesClean(s: State, a: Act)
    requires Enabled(s, a)
  {
    a.Commit? && s.asks[a.thread].stage.Adding? ==>
      var k := s.asks[a.thread];
      k.u !in At(s.invites, k.v) && k.v !in At(s.invites, k.u)
  }

  ghost predicate Clean(s: State, acts: seq<Act>)
    requires Possible(s, acts)
    decreases |acts|
  {
    acts != [] ==> PushesClean(s, acts[0]) && Clean(Do(s, acts[0]), acts[1..])
  }

  ghost predicate NobodyAlone(s: State) {
    forall t :: t in s.asks ==> s.asks[t].u != s.asks[t].v
  }

  // ---------------------------------------------------------------- exactly when it stays one-way

  lemma PushIsOneWay(invites: map<int, seq<int>>, u: int, v: int)
    requires OneWay(invites) && u != v
    ensures OneWay(invites[v := At(invites, v) + [u]]) <==> u !in At(invites, v) && v !in At(invites, u)
  {
    var more := invites[v := At(invites, v) + [u]];
    if u !in At(invites, v) && v !in At(invites, u) {
      InviteKeepsInvites(EMPTY.(invites := invites), u, v);
    } else {
      var list := At(invites, v);
      assert more[v][|list|] == u && u in At(more, v);
      if u in list {
        var i :| 0 <= i < |list| && list[i] == u;
        assert more[v][i] == more[v][|list|];
      } else {
        assert At(more, u) == At(invites, u) && v in At(more, u);
      }
    }
  }

  lemma RemoveIsOneWay(invites: map<int, seq<int>>, u: int, v: int)
    requires OneWay(invites)
    ensures OneWay(invites[u := Without(At(invites, u), v)])
  {
    WithoutKeepsNoDup(At(invites, u), v);
    var less := invites[u := Without(At(invites, u), v)];
    assert forall x, y :: x in At(less, y) ==> x in At(invites, y);
  }

  lemma StepOneWay(s: State, a: Act)
    requires OneWay(s.invites) && NobodyAlone(s) && Enabled(s, a)
    ensures OneWay(Do(s, a).invites) <==> PushesClean(s, a)
    ensures NobodyAlone(Do(s, a))
  {
    if a.Commit? {
      var k := s.asks[a.thread];
      PushIsOneWay(s.invites, k.u, k.v);
      RemoveIsOneWay(s.invites, k.u, k.v);
    }
    hide OneWay, Without;
  }

  /** Over every interleaving: the table stays one-way if and only if every push finds no invite
      between its two users. */
  lemma {:induction false} OneWayExactly(s: State, acts: seq<Act>)
    requires OneWay(s.invites) && NobodyAlone(s) && Possible(s, acts)
    ensures OneWayThroughout(s, acts) <==> Clean(s, acts)
    decreases |acts|
  {
    hide OneWay, Do, PushesClean, NobodyAlone;
    if acts == [] {
    } else {
      var t := Do(s, acts[0]);
      StepOneWay(s, acts[0]);
      if PushesClean(s, acts[0]) {
        OneWayExactly(t, acts[1..]);
      } else {
        assert !OneWayThroughout(t, acts[1..]);
      }
    }
  }

  // ---------------------------------------------------------------- requests apart

  predicate SamePair(k: Asking, u: int, v: int) {
    (k.u == u && k.v == v) || (k.u == v && k.v == u)
  }

  /** A request begins only when none between the same two is under way. */
  ghost predicate Apart(s: State, a: Act) {
    a.Begin? ==> forall t :: t in s.asks ==> !SamePair(s.asks[t], a.u, a.v)
  }

  ghost predicate AllApart(s: State, acts: seq<Act>)
    requires Possible(s, acts)
    decreases |acts|
  {
    acts != [] ==> Apart(s, acts[0]) && AllApart(Do(s, acts[0]), acts[1..])
  }

  /** What a request has seen is still so. */
  ghost predicate StillSo(s: State, t: int)
    requires t in s.asks
  {
    var k := s.asks[t];
    match k.stage
    case Fresh => true
    case Unrepeated => k.u !in At(s.invites, k.v)
    case Adding => k.u !in At(s.invites, k.v) && k.v !in At(s.invites, k.u)
    case Accepting => k.v in At(s.invites, k.u)
  }

  ghost predicate Current(s: State) {
    && NobodyAlone(s)
    && (forall t :: t in s.asks ==> StillSo(s, t))
    && (forall t, x :: t in s.asks && x in s.asks && SamePair(s.asks[t], s.asks[x].u, s.asks[x].v) ==> t == x)
  }

  lemma StepCurrent(s: State, a: Act)
    requires Current(s) && Enabled(s, a) && Apart(s, a)
    ensures Current(Do(s, a)) && PushesClean(s, a)
  {
    var n := Do(s, a);
    if a.Commit? { assert StillSo(s, a.thread); }
    if a.Look? { assert StillSo(s, a.thread); }
    forall t | t in n.asks ensures StillSo(n, t) {
      if t in s.asks {
        assert StillSo(s, t);
        if a.Commit? {
          assert t != a.thread && !SamePair(s.asks[t], s.asks[a.thread].u, s.asks[a.thread].v);
          OtherPairStays(s, a, t);
        }
      }
    }
  }

  /** A push or removal changes no invite between two other users. */
  lemma OtherPairStays(s: State, a: Act, t: int)
    requires a.Commit? && Enabled(s, a) && t in s.asks
    requires !SamePair(s.asks[t], s.asks[a.thread].u, s.asks[a.thread].v)
    ensures var n := Do(s, a);
            var k := s.asks[t];
            && (k.u in At(n.invites, k.v) <==> k.u in At(s.invites, k.v))
            && (k.v in At(n.invites, k.u) <==> k.v in At(s.invites, k.u))
  {
  }

  /** Requests that do not overlap between the same two users keep the table one-way, however they
      overlap otherwise. */
  lemma {:induction false} ApartIsOneWay(s: State, acts: seq<Act>)
    requires OneWay(s.invites) && Current(s) && Possible(s, acts) && AllApart(s, acts)
    ensures OneWayThroughout(s, acts) && Current(DoAll(s, acts))
    decreases |acts|
  {
    hide OneWay, Do, PushesClean, Apart;
    if acts == [] {
    } else {
      StepCurrent(s, acts[0]);
      assert NobodyAlone(s);
      hide Current, NobodyAlone;
      StepOneWay(s, acts[0]);
      ApartIsOneWay(Do(s, acts[0]), acts[1..]);
    }
  }

  /** And every acceptance then removes exactly one invite. */
  lemma ApartAccepts(s: State, t: int)
    requires OneWay(s.invites) && Current(s) && t in s.asks && s.asks[t].stage.Accepting?
    ensures var k := s.asks[t];
            |At(Do(s, Commit(t)).invites, k.u)| == |At(s.invites, k.u)| - 1
  {
    assert StillSo(s, t);
    WithoutRemovesOne(At(s.invites, s.asks[t].u), s.asks[t].v);
  }

  // ---------------------------------------------------------------- alone, and crossing

  lemma Runs(s: State, a: Act, acts: seq<Act>)
    requires Enabled(s, a) && Possible(Do(s, a), acts)
    ensures Possible(s, [a] + acts) && DoAll(s, [a] + acts) == DoAll(Do(s, a), acts)
  {
    hide Do, Enabled;
    assert ([a] + acts)[1..] == acts;
  }

  lemma Stays(s: State)
    ensures Possible(s, []) && DoAll(s, []) == s
  {
  }

  /** One request alone does to the table what the service's step does. */
  lemma AloneIsAsk(service: Service, u: int, v: int) returns (acts: seq<Act>)
    requires u in service.users && v in service.users && u != v
    ensures var s := State(service.invites, map[]);
            Possible(s, acts) && DoAll(s, acts) == State(Ask(service, u, v).invites, map[])
  {
    var s := State(service.invites, map[]);
    var s1 := Do(s, Begin(0, u, v));
    var s2 := Do(s1, Look(0));
    if u in At(service.invites, v) {
      assert s2 == s;
      Stays(s2);
      Runs(s1, Look(0), []);
      acts := [Look(0)] + [];
    } else {
      var s3 := Do(s2, Look(0));
      var s4 := Do(s3, Commit(0));
      assert s4 == State(Ask(service, u, v).invites, map[]);
      Stays(s4);
      Runs(s3, Commit(0), []);
      Runs(s2, Look(0), [Commit(0)] + []);
      Runs(s1, Look(0), [Look(0)] + ([Commit(0)] + []));
      acts := [Look(0)] + ([Look(0)] + ([Commit(0)] + []));
    }
    Runs(s, Begin(0, u, v), acts);
    acts := [Begin(0, u, v)] + acts;
  }

  /** Two users who ask each other at the same time: both invites end up pending. */
  lemma OppositesCross(invites: map<int, seq<int>>, u: int, v: int) returns (acts: seq<Act>)
    requires OneWay(invites) && u != v && u !in At(invites, v) && v !in At(invites, u)
    ensures Possible(State(invites, map[]), acts)
    ensures var t := DoAll(State(invites, map[]), acts);
            t.asks == map[] && u in At(t.invites, v) && v in At(t.invites, u) && !OneWay(t.invites)
  {
    var s := State(invites, map[1 := Asking(u, v, Adding), 2 := Asking(v, u, Adding)]);
    var one := Do(s, Commit(1));
    var two := Do(one, Commit(2));
    assert two.asks == map[];
    Stays(two);
    Runs(one, Commit(2), []);
    Runs(s, Commit(1), [Commit(2)] + []);
    acts := [Commit(1)] + ([Commit(2)] + []);
    assert u in At(two.invites, v) && v in At(two.invites, u);
    acts := BothLook(invites, u, v, acts);
  }

  lemma BothLook(invites: map<int, seq<int>>, u: int, v: int, tail: seq<Act>) returns (acts: seq<Act>)
    requires u != v && u !in At(invites, v) && v !in At(invites, u)
    requires Possible(State(invites, map[1 := Asking(u, v, Adding), 2 := Asking(v, u, Adding)]), tail)
    ensures Possible(State(invites, map[]), acts)
    ensures DoAll(State(invites, map[]), acts)
         == DoAll(State(invites, map[1 := Asking(u, v, Adding), 2 := Asking(v, u, Adding)]), tail)
  {
    hide Possible, DoAll;
    var s0 := State(invites, map[]);
    var s1 := State(invites, map[1 := Asking(u, v, Fresh)]);
    var s2 := State(invites, map[1 := Asking(u, v, Fresh), 2 := Asking(v, u, Fresh)]);
    var s3 := State(invites, map[1 := Asking(u, v, Unrepeated), 2 := Asking(v, u, Fresh)]);
    var s4 := State(invites, map[1 := Asking(u, v, Unrepeated), 2 := Asking(v, u, Unrepeated)]);
    var s5 := State(invites, map[1 := Asking(u, v, Adding), 2 := Asking(v, u, Unrepeated)]);
    var s6 := State(invites, map[1 := Asking(u, v, Adding), 2 := Asking(v, u, Adding)]);
    assert Do(s0, Begin(1, u, v)) == s1 && Do(s1, Begin(2, v, u)) == s2;
    assert Do(s2, Look(1)) == s3 && Do(s3, Look(2)) == s4 && Do(s4, Look(1)) == s5 && Do(s5, Look(2)) == s6;
    Runs(s5, Look(2), tail);
    acts := [Look(2)] + tail;
    Runs(s4, Look(1), acts);
    acts := [Look(1)] + acts;
    Runs(s3, Look(2), acts);
    acts := [Look(2)] + acts;
    Runs(s2, Look(1), acts);
    acts := [Look(1)] + acts;
    Runs(s1, Begin(2, v, u), acts);
    acts := [Begin(2, v, u)] + acts;
    Runs(s0, Begin(1, u, v), acts);
    acts := [Begin(1, u, v)] + acts;
  }

  /** From then on neither can ever accept: every further request is taken for a repeated one. */
  lemma CrossedIsForGood(s: Service, u: int, v: int)
    requires u in s.users && v in s.users && u in At(s.invites, v) && v in At(s.invites, u)
    ensures Ask(s, u, v) == s && Ask(s, v, u) == s
  {
  }
}
