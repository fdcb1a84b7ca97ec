/**
  What the client sends: its printers, the server's extractors, and the proofs that one inverts the
  other.  A session is 16 characters without a semicolon; message texts may hold anything.
*/
module ClientPackets {
  import opened Base
  import opened Text

  // ---------------------------------------------------------------- printers of the client

  /** `smsg;<session>;<chat>;<length>;<text>`. */
  function MessagePacket(session: string, chat: int, text: string): string {
    "smsg" + [SEMI] + (session + [SEMI] + (Show(chat) + [SEMI] + (Show(|text|) + [SEMI] + text)))
  }

  /** `fadd;<session>;<name>`, `frnd;<session>;<state>`. */
  function PairPacket(kind: string, session: string, last: string): string {
    kind + [SEMI] + (session + [SEMI] + last)
  }

  /** `logo;<session>`, `data;<session>`. */
  function SessionPacket(kind: string, session: string): string {
    kind + [SEMI] + session
  }

  /** `room;<session>;<id>;<state>`. */
  function RoomReply(session: string, id: int, state: string): string {
    "room" + [SEMI] + session + [SEMI] + Show(id) + [SEMI] + state
  }

  // ---------------------------------------------------------------- extractors of the server

  function ExtractSession(packet: string): (session: Option<string>)
    ensures session.Some? ==> |session.value| == SESSION_KEY_SIZE && Plain(session.value)
  {
    match After(packet)
    case None => None
    case Some(rest) => if |Field(rest)| == SESSION_KEY_SIZE then Some(Field(rest)) else None
  }

  function ExtractFriendName(packet: string): Option<string> {
    match After(packet)
    case None => None
    case Some(p1) =>
      match After(p1)
      case None => None
      case Some(name) => if |name| <= NAME_MAX_SIZE then Some(name) else None
  }

  function ExtractCredentials(packet: string): Option<(string, string)> {
    match After(packet)
    case None => None
    case Some(p1) =>
      match After(p1)
      case None => None
      case Some(password) =>
        if NAME_MIN_SIZE <= |Field(p1)| <= NAME_MAX_SIZE && PASSWORD_MIN_SIZE <= |password| <= PASSWORD_MAX_SIZE
        then Some((Field(p1), password)) else None
  }

  /** The number after a session of fixed width: `<kind>;<session>;<number>...`. */
  function ExtractThirdNumber(packet: string): Option<int> {
    var at := 4 + 1 + SESSION_KEY_SIZE;
    if |packet| < at + 2 || packet[4] != SEMI || packet[at] != SEMI then None
    else Some(Atoi(Field(packet[at + 1..])))
  }

  /** The size field the message extractor reads; it allocates and copies that much. */
  function MessageSize(packet: string): Option<int> {
    match After(packet)
    case None => None
    case Some(p1) =>
      match After(p1)
      case None => None
      case Some(p2) =>
        match After(p2)
        case None => None
        case Some(p3) => if After(p3).None? then None else Some(Atoi(p3))
  }

  predicate SizeIsNatural(packet: string) {
    MessageSize(packet).Some? ==> MessageSize(packet).value >= 0
  }

  function ExtractMessage(packet: string): Option<string>
    requires SizeIsNatural(packet)
  {
    if MessageSize(packet).None? then None
    else
      var p3 := After(After(After(packet).value).value).value;
      var size := MessageSize(packet).value;
      Some(Clip(After(p3).value, if size > MESSAGE_MAX_SIZE then MESSAGE_MAX_SIZE else size))
  }

  /** `strrchr(s, ';')`: what is before and after the last semicolon. */
  function SplitLast(s: string): Option<(string, string)> {
    if s == "" then None
    else
      var n := |s| - 1;
      if s[n] == SEMI then Some((s[..n], ""))
      else match SplitLast(s[..n])
        case None => None
        case Some(parts) => Some((parts.0, parts.1 + [s[n]]))
  }

  function ExtractRoomState(packet: string): Option<(int, bool)> {
    if |packet| < 4 + 3 + SESSION_KEY_SIZE + 1 + 2 then None
    else match SplitLast(packet)
      case None => None
      case Some(outer) =>
        match SplitLast(outer.0)
        case None => None
        case Some(inner) => if Atoi(inner.1) == 0 then None else Some((Atoi(inner.1), outer.1 == "ok"))
  }

  /** Whether a friend-list reply says ok. */
  function ExtractState(packet: string): bool {
    if |packet| < 4 + 2 + SESSION_KEY_SIZE + 2 || |packet| > 4 + 2 + SESSION_KEY_SIZE + 5 then false
    else match SplitLast(packet)
      case None => false
      case Some(parts) => parts.1 == "ok"
  }

  // ---------------------------------------------------------------- round trips

  ghost predicate IsSession(session: string) {
    |session| == SESSION_KEY_SIZE && Plain(session)
  }

  lemma {:induction false} SplitLastOf(front: string, last: string)
    requires Plain(last)
    ensures SplitLast(front + [SEMI] + last) == Some((front, last))
  {
    var s := front + [SEMI] + last;
    var n := |s| - 1;
    if last == "" {
      assert s[..n] == front;
    } else {
      var m := |last| - 1;
      assert s[..n] == front + [SEMI] + last[..m];
      SplitLastOf(front, last[..m]);
      assert last == last[..m] + [last[m]];
    }
  }

  /** Every part of a message packet reaches the server: session, chat, and the text up to 384
      characters, semicolons and all. */
  lemma MessageRoundTrip(session: string, chat: int, text: string)
    requires IsSession(session)
    ensures var p := MessagePacket(session, chat, text);
            && ExtractSession(p) == Some(session)
            && ExtractThirdNumber(p) == Some(chat)
            && SizeIsNatural(p) && ExtractMessage(p) == Some(Clip(text, MESSAGE_MAX_SIZE))
  {
    var p3 := Show(|text|) + [SEMI] + text;
    MessageFront(session, Show(chat) + [SEMI] + p3);
    hide After, Field, Atoi, Show;
    Split(Show(chat), p3);
    Split(Show(|text|), text);
    ShownField(chat, p3);
    ShownSize(|text|, text);
  }

  /** Kind and session in front of the rest of a message packet. */
  lemma MessageFront(session: string, rest: string)
    requires IsSession(session)
    ensures var p := "smsg" + [SEMI] + (session + [SEMI] + rest);
            && ExtractSession(p) == Some(session)
            && After(p).Some? && After(After(p).value) == Some(rest)
            && p[4] == SEMI && p[4 + 1 + SESSION_KEY_SIZE] == SEMI && p[4 + 1 + SESSION_KEY_SIZE + 1..] == rest
  {
    hide After, Field;
    Split("smsg", session + [SEMI] + rest);
    Split(session, rest);
  }

  lemma ShownField(n: int, rest: string)
    ensures Atoi(Field(Show(n) + [SEMI] + rest)) == n
  {
    Split(Show(n), rest);
    AtoiShow(n, "");
    assert Show(n) + "" == Show(n);
  }

  lemma ShownSize(n: int, rest: string)
    ensures Atoi(Show(n) + [SEMI] + rest) == n
  {
    assert Show(n) + [SEMI] + rest == Show(n) + ([SEMI] + rest);
    AtoiShow(n, [SEMI] + rest);
  }

  lemma FriendAddRoundTrip(session: string, name: string)
    requires IsSession(session)
    ensures var p := PairPacket("fadd", session, name);
            && ExtractSession(p) == Some(session)
            && ExtractFriendName(p) == if |name| <= NAME_MAX_SIZE then Some(name) else None
  {
    Split("fadd", session + [SEMI] + name);
    Split(session, name);
  }

  /** A session is taken at its exact width only. */
  lemma SessionRoundTrip(kind: string, session: string)
    requires Plain(kind) && Plain(session)
    ensures ExtractSession(SessionPacket(kind, session))
         == if |session| == SESSION_KEY_SIZE then Some(session) else None
  {
    Split(kind, session);
    Unsplit(session);
  }

  /** A name may not hold a semicolon, a password may. */
  lemma CredentialsRoundTrip(kind: string, name: string, password: string)
    requires Plain(kind) && Plain(name)
    ensures ExtractCredentials(PairPacket(kind, name, password))
         == if NAME_MIN_SIZE <= |name| <= NAME_MAX_SIZE && PASSWORD_MIN_SIZE <= |password| <= PASSWORD_MAX_SIZE
            then Some((name, password)) else None
  {
    Split(kind, name + [SEMI] + password);
    Split(name, password);
  }

  lemma RoomReplyRoundTrip(session: string, id: int, state: string)
    requires IsSession(session) && Plain(state) && |state| >= 2
    ensures var p := RoomReply(session, id, state);
            && ExtractSession(p) == Some(session)
            && ExtractRoomState(p) == if id == 0 then None else Some((id, state == "ok"))
  {
    hide SplitLast, After, Field, Atoi, Show;
    var front := "room" + [SEMI] + session;
    assert RoomReply(session, id, state) == front + [SEMI] + Show(id) + [SEMI] + state;
    SplitLastOf(front + [SEMI] + Show(id), state);
    SplitLastOf(front, Show(id));
    AtoiShow(id, "");
    assert Show(id) + "" == Show(id);
    assert RoomReply(session, id, state) == "room" + [SEMI] + (session + [SEMI] + (Show(id) + [SEMI] + state));
    Split("room", session + [SEMI] + (Show(id) + [SEMI] + state));
    Split(session, Show(id) + [SEMI] + state);
  }

  lemma FriendReplyRoundTrip(session: string, state: string)
    requires IsSession(session) && Plain(state)
    ensures var p := PairPacket("frnd", session, state);
            ExtractSession(p) == Some(session) && (ExtractState(p) <==> state == "ok")
  {
    assert PairPacket("frnd", session, state) == ("frnd" + [SEMI] + session) + [SEMI] + state;
    SplitLastOf("frnd" + [SEMI] + session, state);
    Split("frnd", session + [SEMI] + state);
    Split(session, state);
  }

  // ---------------------------------------------------------------- malformed packets

  /** The parts a packet with a third number consists of: a kind of four characters, a session of 16. */
  ghost predicate Fixed(packet: string, kind: string, session: string, rest: string) {
    |kind| == 4 && |session| == SESSION_KEY_SIZE && rest != "" && packet == kind + [SEMI] + session + [SEMI] + rest
  }

  /** A third number is read exactly from packets of that shape, and is the first field of the rest. */
  lemma ThirdNumberExactly(packet: string)
    ensures ExtractThirdNumber(packet).Some? <==> exists kind, session, rest :: Fixed(packet, kind, session, rest)
    ensures forall kind, session, rest :: Fixed(packet, kind, session, rest) ==>
              ExtractThirdNumber(packet) == Some(Atoi(Field(rest)))
  {
    hide Atoi, Field;
    if ExtractThirdNumber(packet).Some? {
      var kind, session, rest := packet[..4], packet[5..21], packet[22..];
      assert packet == kind + [SEMI] + session + [SEMI] + rest;
      assert Fixed(packet, kind, session, rest);
    }
    forall kind, session, rest | Fixed(packet, kind, session, rest)
      ensures ExtractThirdNumber(packet) == Some(Atoi(Field(rest)))
    {
      assert packet[4] == SEMI && packet[21] == SEMI && packet[22..] == rest;
    }
  }

  /** A state is read from packets of 24 to 27 characters, whatever stands in front of it. */
  lemma StateExactly(front: string, state: string)
    requires Plain(state)
    ensures ExtractState(front + [SEMI] + state) <==> state == "ok" && 24 <= |front| + 3 <= 27
  {
    SplitLastOf(front, state);
    hide SplitLast;
  }

  /** A room's state is read from packets of 26 characters and more, and for no room 0. */
  lemma RoomStateExactly(front: string, id: int, state: string)
    requires Plain(state)
    ensures ExtractRoomState(front + [SEMI] + Show(id) + [SEMI] + state)
         == if |front| + |Show(id)| + |state| + 2 < 26 || id == 0 then None else Some((id, state == "ok"))
  {
    hide SplitLast, Atoi, Show;
    SplitLastOf(front + [SEMI] + Show(id), state);
    SplitLastOf(front, Show(id));
    AtoiShow(id, "");
    assert Show(id) + "" == Show(id);
  }
}
