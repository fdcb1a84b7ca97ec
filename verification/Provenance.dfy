/** Where messages come from: every message in a history, or in MongoDB, was sent over a session that
    at that moment belonged to the user it names; and what a refused login does to such a session. */
module Provenance {
  import opened Base
  import opened Chat
  import opened Store
  import opened Simulation
  import opened Theorems
  import ClientPackets
  import Delivery
  import Server

  /** Name and password are those of user id, now. */
  ghost predicate Right(s: Service, name: string, password: string, id: int) {
    && Acceptable(name, password)
    && id in s.users && s.users[id].name == name && s.users[id].password == password
  }

  /** Event number i of a run from the start is a login on the key, right when it happens. */
  ghost predicate LoggedIn(es: seq<Event>, i: nat, key: string, id: int)
    requires i < |es|
  {
    es[i].LogIn? && es[i].session == key && Right(Chat.Run(EMPTY, es[..i]), es[i].name, es[i].password, id)
  }

  /** After es the key belongs to the user of the last login on it that was right when it happened. */
  ghost predicate Owns(es: seq<Event>, key: string, id: int) {
    exists i: nat :: i < |es| && LastLogin(es, i, key, id)
  }

  ghost predicate LastLogin(es: seq<Event>, i: nat, key: string, id: int)
    requires i < |es|
  {
    LoggedIn(es, i, key, id) && forall j: nat, x :: i < j < |es| ==> !LoggedIn(es, j, key, x)
  }

  /** Event number j of es sent this message to room r, over a session the sender owned just then. */
  ghost predicate SentAt(es: seq<Event>, r: int, msg: Message, j: nat) {
    && j < |es| && es[j].Send? && es[j].room == r
    && msg.text == Clip(es[j].text, MESSAGE_MAX_SIZE) && msg.date == es[j].date
    && Owns(es[..j], es[j].session, msg.sentBy)
  }

  ghost predicate WasSent(es: seq<Event>, r: int, msg: Message) {
    exists j: nat :: SentAt(es, r, msg, j)
  }

  ghost predicate SessionsOwned(es: seq<Event>, s: Service) {
    forall k, id :: k in s.sessions && s.sessions[k] == id <==> Owns(es, k, id)
  }

  ghost predicate MessagesSent(es: seq<Event>, s: Service) {
    forall r, i :: r in s.rooms && 0 <= i < |s.rooms[r].history| ==> WasSent(es, r, s.rooms[r].history[i])
  }

  lemma {:induction false} RunOn(s: Service, es: seq<Event>, e: Event)
    ensures Chat.Run(s, es + [e]) == Chat.Step(Chat.Run(s, es), e)
    decreases |es|
  {
    hide Chat.Step;
    if es == [] {
      assert [] + [e] == [e] && [e][1..] == [];
      assert Chat.Run(Chat.Step(s, e), []) == Chat.Step(s, e);
    } else {
      assert (es + [e])[0] == es[0] && (es + [e])[1..] == es[1..] + [e];
      RunOn(Chat.Step(s, es[0]), es[1..], e);
    }
  }

  lemma EarlierLogin(es: seq<Event>, e: Event, i: nat, key: string, id: int)
    requires i < |es|
    ensures LoggedIn(es + [e], i, key, id) <==> LoggedIn(es, i, key, id)
  {
    assert (es + [e])[..i] == es[..i];
  }

  /** A right login takes the key over; nothing else touches it. */
  lemma OwnerNext(es: seq<Event>, e: Event, key: string, id: int)
    requires forall x :: LoggedIn(es + [e], |es|, key, x) && LoggedIn(es + [e], |es|, key, id) ==> x == id
    ensures LoggedIn(es + [e], |es|, key, id) ==> Owns(es + [e], key, id)
    ensures (exists x :: LoggedIn(es + [e], |es|, key, x)) && Owns(es + [e], key, id) ==>
              LoggedIn(es + [e], |es|, key, id)
    ensures !(exists x :: LoggedIn(es + [e], |es|, key, x)) ==> (Owns(es + [e], key, id) <==> Owns(es, key, id))
  {
    hide LoggedIn;
    var more := es + [e];
    forall i: nat, x | i < |es| ensures LoggedIn(more, i, key, x) <==> LoggedIn(es, i, key, x) {
      EarlierLogin(es, e, i, key, x);
    }
    if LoggedIn(more, |es|, key, id) {
      assert LastLogin(more, |es|, key, id);
    }
    if i: nat :| i < |es| && LastLogin(es, i, key, id) && !(exists x :: LoggedIn(more, |es|, key, x)) {
      assert LastLogin(more, i, key, id);
    }
    if i: nat :| i < |more| && LastLogin(more, i, key, id) {
      if i < |es| {
        assert LastLogin(es, i, key, id);
      }
    }
  }

  lemma SentBefore(es: seq<Event>, e: Event, r: int, msg: Message)
    requires WasSent(es, r, msg)
    ensures WasSent(es + [e], r, msg)
  {
    hide Owns;
    var j: nat :| SentAt(es, r, msg, j);
    assert (es + [e])[..j] == es[..j];
    assert SentAt(es + [e], r, msg, j);
  }

  /** What one event does to the sessions of the service. */
  lemma SessionNext(s: Service, e: Event, key: string, id: int)
    requires Distinct(Names(s.users))
    ensures var t := Chat.Step(s, e);
            (key in t.sessions && t.sessions[key] == id)
              == if e.LogIn? && e.session == key && (exists x :: Right(s, e.name, e.password, x))
                 then Right(s, e.name, e.password, id)
                 else key in s.sessions && s.sessions[key] == id
  {
    if e.LogIn? {
      forall x | Right(s, e.name, e.password, x) ensures IdOf(Names(s.users), e.name) == Some(x) {
        assert Names(s.users)[x] == e.name;
      }
      var found := IdOf(Names(s.users), e.name);
      assert found.Some? && Acceptable(e.name, e.password) && s.users[found.value].password == e.password ==>
        Right(s, e.name, e.password, found.value);
    } else {
      assert Chat.Step(s, e).sessions == s.sessions;
    }
  }

  lemma StepKeepsSessions(es: seq<Event>, e: Event)
    requires Distinct(Names(Chat.Run(EMPTY, es).users)) && SessionsOwned(es, Chat.Run(EMPTY, es))
    ensures SessionsOwned(es + [e], Chat.Step(Chat.Run(EMPTY, es), e))
  {
    var s := Chat.Run(EMPTY, es);
    var t := Chat.Step(s, e);
    forall k, id ensures k in t.sessions && t.sessions[k] == id <==> Owns(es + [e], k, id) {
      NowOrBefore(es, e, k, id);
    }
  }

  lemma NowOrBefore(es: seq<Event>, e: Event, k: string, id: int)
    requires Distinct(Names(Chat.Run(EMPTY, es).users)) && SessionsOwned(es, Chat.Run(EMPTY, es))
    ensures var t := Chat.Step(Chat.Run(EMPTY, es), e);
            k in t.sessions && t.sessions[k] == id <==> Owns(es + [e], k, id)
  {
    var s := Chat.Run(EMPTY, es);
    hide Owns, Chat.Step, Chat.Run;
    assert (es + [e])[..|es|] == es && (es + [e])[|es|] == e;
    forall x ensures LoggedIn(es + [e], |es|, k, x) <==> e.LogIn? && e.session == k && Right(s, e.name, e.password, x) {
    }
    forall x, y | e.LogIn? && Right(s, e.name, e.password, x) && Right(s, e.name, e.password, y) ensures x == y {
      assert Names(s.users)[x] == Names(s.users)[y];
    }
    hide LoggedIn, Right;
    SessionNext(s, e, k, id);
    OwnerNext(es, e, k, id);
  }

  /** An event adds at most one message, and only a Send of a live session adds any. */
  lemma StepAdds(s: Service, e: Event, r: int, i: nat)
    requires IdsInRange(s) && r in Chat.Step(s, e).rooms && i < |Chat.Step(s, e).rooms[r].history|
    ensures var msg := Chat.Step(s, e).rooms[r].history[i];
            || (r in s.rooms && i < |s.rooms[r].history| && msg == s.rooms[r].history[i])
            || (e.Send? && e.room == r && e.session in s.sessions && msg.sentBy == s.sessions[e.session]
                && msg.text == Clip(e.text, MESSAGE_MAX_SIZE) && msg.date == e.date)
  {
  }

  lemma StepKeepsMessages(es: seq<Event>, s: Service, e: Event)
    requires IdsInRange(s) && SessionsOwned(es, s) && MessagesSent(es, s)
    ensures MessagesSent(es + [e], Chat.Step(s, e))
  {
    var t := Chat.Step(s, e);
    hide Chat.Step, Owns;
    forall r, i | r in t.rooms && 0 <= i < |t.rooms[r].history|
      ensures WasSent(es + [e], r, t.rooms[r].history[i])
    {
      StepAdds(s, e, r, i);
      var msg := t.rooms[r].history[i];
      if r in s.rooms && i < |s.rooms[r].history| && msg == s.rooms[r].history[i] {
        SentBefore(es, e, r, msg);
      } else {
        assert (es + [e])[..|es|] == es;
        assert SentAt(es + [e], r, msg, |es|);
      }
    }
  }

  /** Over every run from the start: a session belongs to the user of the last login on its key that
      was right when it happened, and every message of every history was sent over a session that
      belonged to its sender when it was sent. */
  lemma {:induction false} HistoriesAreAuthentic(es: seq<Event>)
    ensures Inv(Chat.Run(EMPTY, es)) && InOrder(Chat.Run(EMPTY, es))
    ensures SessionsOwned(es, Chat.Run(EMPTY, es)) && MessagesSent(es, Chat.Run(EMPTY, es))
    decreases |es|
  {
    EmptyInv();
    RunKeepsInv(EMPTY, es);
    RunKeepsOrder(EMPTY, es);
    if es == [] {
    } else {
      var n := |es| - 1;
      var before := es[..n];
      assert es == before + [es[n]];
      HistoriesAreAuthentic(before);
      var s := Chat.Run(EMPTY, before);
      assert IdsInRange(s) && Distinct(Names(s.users));
      hide Chat.Step, Inv;
      RunOn(EMPTY, before, es[n]);
      StepKeepsSessions(before, es[n]);
      StepKeepsMessages(before, s, es[n]);
    }
  }

  /** Every message MongoDB holds after a run of the server was sent in that run, over a session that
      then belonged to the user it names; its text is what was sent, up to 383 characters. */
  lemma StoredMessagesAreAuthentic(es: seq<Event>, r: int, i: nat)
    requires Guarded(INIT, es)
    requires var t := Store.Run(INIT, es);
             r in t.mongo.rooms && i < |t.mongo.rooms[r].messages|
    ensures exists msg ::
              && Cut(msg) == Store.Run(INIT, es).mongo.rooms[r].messages[i] && msg.id == i + 1
              && WasSent(es, r, msg)
  {
    ServerIsOneService(es);
    InitGood();
    HistoriesAreAuthentic(es);
    var t := Store.Run(INIT, es);
    var s := Chat.Run(EMPTY, es);
    assert r in s.rooms && InOrder(s) && MessagesSent(es, s);
    hide *;
    Durable(INIT, es, r);
    InHistory(t, s, r, i);
    assert WasSent(es, r, s.rooms[r].history[i]);
  }

  lemma InHistory(t: World, s: Service, r: int, i: nat)
    requires r in s.rooms && InOrder(s) && r in t.mongo.rooms && i < |t.mongo.rooms[r].messages|
    requires t.mongo.rooms[r].messages <= CutAll(s.rooms[r].history)
    ensures i < |s.rooms[r].history|
    ensures Cut(s.rooms[r].history[i]) == t.mongo.rooms[r].messages[i] && s.rooms[r].history[i].id == i + 1
  {
  }

  // ---------------------------------------------------------------- refused logins

  /** A login that is answered with a failure leaves the stores as they were exactly when the
      credentials are malformed or wrong, or the drawn key already belongs to that very user. */
  lemma RefusedLogin(w: World, packet: string, key: string)
    requires Sound(w) && !Server.LoginOk(w, packet, key)
    ensures Server.AfterLogin(w, packet, key) == w <==>
      match ClientPackets.ExtractCredentials(packet)
      case None => true
      case Some(c) => !Server.RightPassword(w.mongo, c.0, c.1) || w.redis.sessions[key] == IdNamed(w.mongo, c.0)
  {
    var c := ClientPackets.ExtractCredentials(packet);
    if c.Some? && Server.RightPassword(w.mongo, c.value.0, c.value.1) {
      assert key in w.redis.sessions;
      var t := Server.AfterLogin(w, packet, key);
      assert t.redis.sessions[key] == IdNamed(w.mongo, c.value.0);
      if w.redis.sessions[key] == IdNamed(w.mongo, c.value.0) {
        assert t.redis.sessions == w.redis.sessions;
      }
    }
  }

  /** What the takeover means: the first user's client goes on with the key, and what it sends to a
      room of the second user is stored as the second user's. */
  lemma TakenKeySpeaksForOther(w: World, packet: string, key: string, room: int, text: string, date: int)
    requires Good(w) && key in w.redis.sessions && ClientPackets.ExtractCredentials(packet).Some?
    requires var c := ClientPackets.ExtractCredentials(packet).value;
             var other := IdNamed(w.mongo, c.0);
             && Server.RightPassword(w.mongo, c.0, c.1) && other != w.redis.sessions[key]
             && other in w.redis.users && room in w.redis.users[other].chats
    ensures !Server.LoginOk(w, packet, key)
    ensures var c := ClientPackets.ExtractCredentials(packet).value;
            var t := Server.AfterLogin(w, packet, key);
            && Good(t) && room in Abs(w).rooms
            && Abs(SendMessage(t, key, room, text, date)).rooms
                 == Abs(w).rooms[room := Post(Abs(w).rooms[room], IdNamed(w.mongo, c.0), text, date)]
  {
    var c := ClientPackets.ExtractCredentials(packet).value;
    TakesOver(w, packet, key);
    var t := Server.AfterLogin(w, packet, key);
    hide *;
    SpeaksForOther(w, t, key, room, text, date);
  }

  lemma TakesOver(w: World, packet: string, key: string)
    requires Good(w) && key in w.redis.sessions && ClientPackets.ExtractCredentials(packet).Some?
    requires var c := ClientPackets.ExtractCredentials(packet).value;
             Server.RightPassword(w.mongo, c.0, c.1)
    ensures var c := ClientPackets.ExtractCredentials(packet).value;
            var t := Server.AfterLogin(w, packet, key);
            && !Server.LoginOk(w, packet, key) && Good(t)
            && t.mongo == w.mongo && t.redis.users == w.redis.users && t.redis.rooms == w.redis.rooms
            && key in t.redis.sessions && t.redis.sessions[key] == IdNamed(w.mongo, c.0)
  {
    hide *;
    var c := ClientPackets.ExtractCredentials(packet).value;
    KnownIsFresh(w, c.0, c.1, key);
    StepSimulates(w, LogIn(c.0, c.1, key));
    Authenticated(w, packet, key);
  }

  lemma KnownIsFresh(w: World, name: string, password: string, key: string)
    ensures Fresh(w, LogIn(name, password, key))
  {
  }

  /** The effect of right credentials on a used key. */
  lemma Authenticated(w: World, packet: string, key: string)
    requires Good(w) && key in w.redis.sessions && ClientPackets.ExtractCredentials(packet).Some?
    requires var c := ClientPackets.ExtractCredentials(packet).value;
             Server.RightPassword(w.mongo, c.0, c.1)
    ensures var c := ClientPackets.ExtractCredentials(packet).value;
            var t := Server.AfterLogin(w, packet, key);
            && !Server.LoginOk(w, packet, key) && t == Store.Step(w, LogIn(c.0, c.1, key))
            && t.mongo == w.mongo && t.redis.users == w.redis.users && t.redis.rooms == w.redis.rooms
            && key in t.redis.sessions && t.redis.sessions[key] == IdNamed(w.mongo, c.0)
  {
    Basics(w);
    hide Good;
    var c := ClientPackets.ExtractCredentials(packet).value;
    Accounts(packet);
  }

  lemma Accounts(packet: string)
    ensures ClientPackets.ExtractCredentials(packet).Some? ==>
      Acceptable(ClientPackets.ExtractCredentials(packet).value.0, ClientPackets.ExtractCredentials(packet).value.1)
  {
  }

  lemma SpeaksForOther(w: World, t: World, key: string, room: int, text: string, date: int)
    requires Good(t) && t.mongo == w.mongo && t.redis.users == w.redis.users && t.redis.rooms == w.redis.rooms
    requires key in t.redis.sessions && t.redis.sessions[key] in w.redis.users
    requires room in w.redis.users[t.redis.sessions[key]].chats
    ensures room in Abs(w).rooms
    ensures Abs(SendMessage(t, key, room, text, date)).rooms
         == Abs(w).rooms[room := Post(Abs(w).rooms[room], t.redis.sessions[key], text, date)]
  {
    assert LoadedUsersOk(t) && Indexed(Abs(t));
    SameTierRooms(w, t);
    assert Abs(t).rooms == Abs(w).rooms;
    hide *;
    SendSimulates(t, key, room, text, date);
    Delivery.MemberPosts(t, key, room, text, date);
  }

  lemma SameTierRooms(w: World, t: World)
    requires t.mongo.rooms == w.mongo.rooms && t.redis.rooms == w.redis.rooms
    ensures Rooms(t) == Rooms(w)
  {
  }
}
