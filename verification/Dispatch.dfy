/**
  The server's front door: packets of the login port, packets of the main port and closed connections,
  recognized and handed to their handlers.  From the first packet on, whatever arrives, the server is
  the single chat service of module Chat.
*/
module Dispatch {
  import opened Base
  import opened Text
  import opened Chat
  import opened Store
  import opened Simulation
  import opened Theorems
  import opened ClientPackets
  import opened Server
  import Arrival

  const LOGIN_PACKET_MIN_SIZE := 4 + 2 + NAME_MIN_SIZE + PASSWORD_MIN_SIZE
  const PACKET_MIN_SIZE := 4 + 1 + SESSION_KEY_SIZE

  datatype Input =
    | AtLogin(packet: string, key: string)               // with the session key a login would draw
    | AtMain(socket: int, packet: string, date: int)
    | Closed(socket: int)

  /** What an input asks of the stores; friend-list and room replies ask nothing. */
  ghost function EventOf(w: World, input: Input): Option<Event> {
    match input
    case AtLogin(packet, key) =>
      if |packet| < LOGIN_PACKET_MIN_SIZE || |packet| > PACKET_MAX_SIZE || ExtractCredentials(packet).None? then None
      else
        var (name, password) := ExtractCredentials(packet).value;
        if packet[..4] == "accc" then Some(CreateAccount(name, password))
        else if packet[..4] == "logi" then Some(LogIn(name, password, key))
        else None
    case AtMain(socket, packet, date) =>
      if |packet| < PACKET_MIN_SIZE || |packet| > PACKET_MAX_SIZE then None
      else if packet[..4] == "smsg" then if SizeIsNatural(packet) then SendEvent(packet, date) else None
      else if packet[..4] == "fadd" then AddFriendEvent(packet)
      else if ExtractSession(packet).None? then None
      else if packet[..4] == "logo" then Some(LogOut(ExtractSession(packet).value))
      else if packet[..4] == "data" then Some(LoadData(ExtractSession(packet).value, socket))
      else None
    case Closed(socket) =>
      if socket in w.redis.sockets && |w.redis.sockets[socket].session| == SESSION_KEY_SIZE
      then Some(LogOut(w.redis.sockets[socket].session))
      else None
  }

  /** The guards of the stores, and a message packet that does not claim a negative size. */
  ghost predicate Admissible(w: World, input: Input) {
    && (input.AtMain? && |input.packet| >= 4 && input.packet[..4] == "smsg" ==> SizeIsNatural(input.packet))
    && (EventOf(w, input).Some? ==> Fits(w, EventOf(w, input).value) && Fresh(w, EventOf(w, input).value))
  }

  ghost function Outcome(w: World, input: Input): World {
    Next(w, EventOf(w, input))
  }

  ghost predicate AllAdmissible(w: World, inputs: seq<Input>)
    decreases |inputs|
  {
    inputs != [] ==> Admissible(w, inputs[0]) && AllAdmissible(Outcome(w, inputs[0]), inputs[1..])
  }

  ghost function OutcomeAll(w: World, inputs: seq<Input>): World
    decreases |inputs|
  {
    if inputs == [] then w else OutcomeAll(Outcome(w, inputs[0]), inputs[1..])
  }

  /** The events a run of inputs amounts to. */
  ghost function Events(w: World, inputs: seq<Input>): seq<Event>
    decreases |inputs|
  {
    if inputs == [] then []
    else
      var rest := Events(Outcome(w, inputs[0]), inputs[1..]);
      match EventOf(w, inputs[0])
      case None => rest
      case Some(e) => [e] + rest
  }

  // ---------------------------------------------------------------- one input

  lemma InputIsGood(w: World, input: Input)
    requires Good(w) && Admissible(w, input)
    ensures Good(Outcome(w, input)) && Sound(Outcome(w, input))
    ensures Abs(Outcome(w, input)) == match EventOf(w, input)
                                    case None => Abs(w)
                                    case Some(e) => Chat.Step(Abs(w), e)
  {
    hide Good, Sound, EventOf, Fits, Fresh, Abs, Chat.Step, Store.Step;
    if EventOf(w, input).Some? {
      StepSimulates(w, EventOf(w, input).value);
    }
    GoodIsSound(Outcome(w, input));
  }

  /** A packet of the main port, kind by kind, with what its handler may assume. */
  lemma MainOutcome(w: World, socket: int, packet: string, date: int)
    requires Admissible(w, AtMain(socket, packet, date)) && PACKET_MIN_SIZE <= |packet| <= PACKET_MAX_SIZE
    ensures var t := Outcome(w, AtMain(socket, packet, date));
            var session := ExtractSession(packet);
            && (packet[..4] == "smsg" ==> SizeIsNatural(packet) && t == Next(w, SendEvent(packet, date)))
            && (packet[..4] == "fadd" ==>
                  && t == Next(w, AddFriendEvent(packet))
                  && (AddFriendEvent(packet).Some? ==> Fits(w, AddFriendEvent(packet).value)))
            && (packet[..4] == "logo" ==>
                  t == match session case None => w case Some(k) => Store.Step(w, LogOut(k)))
            && (packet[..4] == "data" ==>
                  && t == (match session case None => w case Some(k) => Store.Step(w, LoadData(k, socket)))
                  && (session.Some? ==> Fits(w, LoadData(session.value, socket))))
            && (packet[..4] !in ["smsg", "fadd", "logo", "data"] ==> t == w)
  {
    hide Store.Step, Fits, SendEvent, AddFriendEvent, ExtractSession, SizeIsNatural;
  }

  class PacketHandler {
    const server: ChatServer

    ghost predicate Valid()
      reads server.mongo, server.redis
    {
      Good(server.View()) && server.Valid()
    }

    constructor ()
      ensures Valid() && server.View() == INIT && fresh(server) && fresh(server.mongo) && fresh(server.redis)
    {
      server := new ChatServer();
      new;
      InitGood();
    }

    /** `recognize_login_packet`, behind the length test of the login thread. */
    method RecognizeLoginPacket(packet: string, key: string) returns (known: bool)
      requires Valid() && Admissible(server.View(), AtLogin(packet, key))
      modifies server.mongo, server.redis
      ensures Valid() && server.View() == Outcome(old(server.View()), AtLogin(packet, key))
      ensures known ==> |packet| >= LOGIN_PACKET_MIN_SIZE && (packet[..4] == "accc" || packet[..4] == "logi")
    {
      InputIsGood(server.View(), AtLogin(packet, key));
      hide Good, Sound, Store.Step, Admissible;
      if |packet| <= 4 || |packet| > PACKET_MAX_SIZE || |packet| < LOGIN_PACKET_MIN_SIZE {
        return false;
      }
      if packet[..4] == "accc" {
        var _ := server.OnAccountCreate(packet);
      } else if packet[..4] == "logi" {
        var _ := server.OnLogIn(packet, key);
      } else {
        return false;
      }
      known := true;
    }

    /** `recognize_packet`, behind the length test of the connection's thread.  Replies to friend and
        room packets move counters only (module Transfer). */
    method RecognizePacket(socket: int, packet: string, date: int) returns (known: bool)
      requires Valid() && Admissible(server.View(), AtMain(socket, packet, date))
      modifies server.mongo, server.redis
      ensures Valid() && server.View() == Outcome(old(server.View()), AtMain(socket, packet, date))
    {
      InputIsGood(server.View(), AtMain(socket, packet, date));
      if PACKET_MIN_SIZE <= |packet| <= PACKET_MAX_SIZE { MainOutcome(server.View(), socket, packet, date); }
      hide Good, Sound, Store.Step, Fits, SendEvent, AddFriendEvent, ExtractSession, EventOf, Outcome, Next, Admissible;
      hide LoadsCleanly, LeavesCleanly, AskMakesSense, Replies, SizeIsNatural;
      if |packet| <= 4 || |packet| > PACKET_MAX_SIZE || |packet| < PACKET_MIN_SIZE {
        return false;
      }
      var kind := packet[..4];
      if kind == "smsg" {
        var _ := server.OnMessageRequest(socket, packet, date);
      } else if kind == "fadd" {
        var _ := server.OnFriendAddRequest(packet);
      } else if kind == "logo" {
        var _ := server.OnLogOutRequest(packet);
      } else if kind == "data" {
        var _ := server.OnDataRequest(packet, socket);
      } else if kind !in ["frmv", "rcre", "rdel", "frnd", "room"] {
        return false;
      }
      known := true;
    }

    /** The threads' loop, input by input. */
    method Serve(inputs: seq<Input>)
      requires Valid() && AllAdmissible(server.View(), inputs)
      modifies server.mongo, server.redis
      ensures Valid() && server.View() == OutcomeAll(old(server.View()), inputs)
    {
      hide Good, Sound, EventOf, Admissible, Outcome, Store.Step;
      for i := 0 to |inputs|
        invariant Valid()
        invariant AllAdmissible(server.View(), inputs[i..])
        invariant OutcomeAll(old(server.View()), inputs) == OutcomeAll(server.View(), inputs[i..])
      {
        assert inputs[i..][1..] == inputs[i + 1..] && inputs[i..][0] == inputs[i];
        match inputs[i]
        case AtLogin(packet, key) => var _ := RecognizeLoginPacket(packet, key);
        case AtMain(socket, packet, date) => var _ := RecognizePacket(socket, packet, date);
        case Closed(socket) => Disconnect(socket);
      }
    }

    /** `recv` answers 0. */
    method Disconnect(socket: int)
      requires Valid() && Admissible(server.View(), Closed(socket))
      modifies server.mongo, server.redis
      ensures Valid() && server.View() == Outcome(old(server.View()), Closed(socket))
    {
      InputIsGood(server.View(), Closed(socket));
      hide Good, Sound, Store.Step, Admissible;
      server.OnDisconnect(socket);
    }
  }

  // ---------------------------------------------------------------- all inputs

  lemma {:induction false} InputsAreEvents(w: World, inputs: seq<Input>)
    requires Good(w) && AllAdmissible(w, inputs)
    ensures Guarded(w, Events(w, inputs)) && OutcomeAll(w, inputs) == Store.Run(w, Events(w, inputs))
    ensures Good(OutcomeAll(w, inputs)) && Abs(OutcomeAll(w, inputs)) == Chat.Run(Abs(w), Events(w, inputs))
    decreases |inputs|
  {
    if inputs == [] {
    } else {
      var t := Outcome(w, inputs[0]);
      InputIsGood(w, inputs[0]);
      hide Good, Sound, EventOf, Fits, Fresh, Abs, Chat.Step, Store.Step;
      InputsAreEvents(t, inputs[1..]);
      var rest := Events(t, inputs[1..]);
      var e := EventOf(w, inputs[0]);
      assert e.Some? ==> ([e.value] + rest)[1..] == rest;
    }
  }

  /** From the first packet on: after any admissible inputs the stores are coherent and are, seen
      through them, a run of the single service; and no name holds a semicolon. */
  lemma ServesAsOneService(inputs: seq<Input>)
    requires AllAdmissible(INIT, inputs)
    ensures Good(OutcomeAll(INIT, inputs))
    ensures Abs(OutcomeAll(INIT, inputs)) == Chat.Run(EMPTY, Events(INIT, inputs))
    ensures Arrival.PlainNames(Abs(OutcomeAll(INIT, inputs)))
  {
    InitGood();
    hide Good, Events;
    InputsAreEvents(INIT, inputs);
    assert Arrival.PlainNames(Abs(INIT));
    InputsKeepNamesPlain(INIT, inputs);
  }

  lemma {:induction false} InputsKeepNamesPlain(w: World, inputs: seq<Input>)
    requires Good(w) && AllAdmissible(w, inputs) && Arrival.PlainNames(Abs(w))
    ensures Arrival.PlainNames(Abs(OutcomeAll(w, inputs)))
    decreases |inputs|
  {
    if inputs == [] {
    } else {
      InputIsGood(w, inputs[0]);
      CreatedNamesArePlain(w, inputs[0]);
      hide Good, Sound, EventOf, Fits, Fresh, Abs, Chat.Step, Store.Step, Arrival.PlainNames;
      if EventOf(w, inputs[0]).Some? {
        Arrival.NamesStayPlain(Abs(w), EventOf(w, inputs[0]).value);
      }
      InputsKeepNamesPlain(Outcome(w, inputs[0]), inputs[1..]);
    }
  }

  lemma CreatedNamesArePlain(w: World, input: Input)
    ensures EventOf(w, input).Some? && EventOf(w, input).value.CreateAccount? ==> Plain(EventOf(w, input).value.name)
  {
  }
}
