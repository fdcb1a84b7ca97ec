/**
  The client's packet handler where the login ends: what it does with room packets and message packets
  to its table of rooms and its pending requests, and what it sends back.
*/
module Recognize {
  import opened Base
  import opened Text
  import opened Codec
  import opened ClientPackets
  import opened Rooms
  import Client
  import Requests

  /** What the handler reads and writes. */
  datatype State = State(session: string, rooms: seq<RoomData>, requests: Requests.State)

  predicate SaysOk(msg: string) {
    2 <= |msg| < 8 && msg[|msg| - 2..] == "ok"
  }

  predicate SaysFail(msg: string) {
    |msg| == 9 && msg[5..] == "fail"
  }

  /** `extract_room_id`. */
  function RoomId(msg: string): int {
    match After(msg)
    case None => -1
    case Some(rest) => Atoi(rest)
  }

  function Pending(s: State, kind: Requests.Kind): bool {
    kind in s.requests.slots
  }

  function Signalled(s: State, kind: Requests.Kind, ok: bool): State {
    s.(requests := Requests.Do(s.requests, Requests.Signal(kind, ok)))
  }

  /** `free_user_data`. */
  function Emptied(s: State): State {
    s.(session := "", rooms := [])
  }

  /** Whether `extract_room` succeeds. */
  predicate RoomRead(rooms: seq<RoomData>, msg: string) {
    && ParseRoom(msg).Some?
    && (|rooms| == ROOM_MAX || ParseRoom(msg).value.userAmount == 0 || ParseRoom(msg).value.names.Some?)
  }

  /** A room packet that gets as far as `extract_room`. */
  predicate Opening(msg: string) {
    |msg| >= 7 && !SaysOk(msg) && !SaysFail(msg) && RoomId(msg) != -1
  }

  /** The room case: the end of the transfer, its failure, or a room, acknowledged only while the login
      is pending. */
  function OnRoom(s: State, msg: string): (State, Option<string>)
    requires Sound(s.rooms) && Announces(msg)
  {
    if |msg| < 7 then (s, None)
    else if SaysOk(msg) then (Signalled(s, Requests.Login, true), None)
    else if !Opening(msg) then (Signalled(Emptied(s), Requests.Login, false), None)
    else
      var t := s.(rooms := WithRoom(s.rooms, msg));
      if !RoomRead(s.rooms, msg) then (t, Some(RoomReply(s.session, RoomId(msg), "fail")))
      else if Pending(s, Requests.Login) then (t, Some(RoomReply(s.session, RoomId(msg), "ok")))
      else (t, None)
  }

  /** The message case: whatever is read during a login reports on the login, and nothing is sent back. */
  function OnMessages(s: State, msg: string): State
    requires Sound(s.rooms)
  {
    if |msg| < 18 then s
    else
      var login := Pending(s, Requests.Login);
      var ok := Extracted(s.rooms, msg, login).Some?;
      var t := s.(rooms := WithMessages(s.rooms, msg, login));
      if login then Signalled(t, Requests.Login, ok)
      else if Pending(s, Requests.SendMessage) then Signalled(t, Requests.SendMessage, ok)
      else t
  }

  class ChatClient {
    const data: Client.UserData
    const table: Requests.RequestTable
    var session: string

    ghost predicate Valid()
      reads this, data, data.rooms, table
    {
      data.Valid() && table.Valid()
    }

    ghost function View(): State
      requires Valid()
      reads this, data, data.rooms, table
    {
      State(session, data.View(), table.View())
    }

    constructor (session: string)
      ensures Valid() && View() == State(session, [], Requests.EMPTY)
      ensures fresh(data) && fresh(data.rooms) && fresh(table)
    {
      this.session := session;
      data := new Client.UserData();
      table := new Requests.RequestTable();
    }

    method FreeUserData()
      requires Valid()
      modifies this`session, data
      ensures Valid() && View() == Emptied(old(View())) && fresh(data.rooms) && data.friends == []
    {
      session := "";
      data.Free();
    }

    /** The room case of `recognize_packet`. */
    method OnRoomPacket(msg: string) returns (reply: Option<string>)
      requires Valid() && Announces(msg)
      modifies this`session, data, data.rooms, table
      ensures Valid() && (View(), reply) == OnRoom(old(View()), msg)
    {
      hide ParseRoom;
      if |msg| < 7 {
        return None;
      }
      if SaysOk(msg) {
        table.SignalResponse(Requests.Login, true);
        return None;
      }
      if SaysFail(msg) || RoomId(msg) == -1 {
        FreeUserData();
        table.SignalResponse(Requests.Login, false);
        return None;
      }
      var ok := data.ExtractRoom(msg);
      if !ok {
        return Some(RoomReply(session, RoomId(msg), "fail"));
      }
      var pending := table.IsRequestPending(Requests.Login);
      return if pending then Some(RoomReply(session, RoomId(msg), "ok")) else None;
    }

    /** The message case of `recognize_packet`. */
    method OnMessagePacket(msg: string)
      requires Valid()
      modifies data.rooms, table
      ensures Valid() && View() == OnMessages(old(View()), msg)
    {
      hide Extracted, WithMessages;
      if |msg| < 18 {
        return;
      }
      var login := table.IsRequestPending(Requests.Login);
      var ok := data.ExtractRmsg(msg, login);
      var sending := table.IsRequestPending(Requests.SendMessage);
      if login {
        table.SignalResponse(Requests.Login, ok);
      } else if sending {
        table.SignalResponse(Requests.SendMessage, ok);
      }
    }
  }
}
