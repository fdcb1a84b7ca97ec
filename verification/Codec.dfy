/**
  The packets between client and server: printers of each side and the parsers of the other.  Two
  cursors run over the same message batch, one counting semicolons and one trusting printed lengths;
  the theorems say exactly when they agree.
*/
module Codec {
  import opened Base
  import opened Text

  /** A message with its sender's name, as the server prints it. */
  datatype Printed = Printed(id: int, sender: string, date: int, text: string)

  /** A message as the client keeps it. */
  datatype MsgData = MsgData(id: int, sender: string, date: int, text: string)

  // ---------------------------------------------------------------- server: messages

  /** `get_message_packet`: `<id>;<sender>;<date>;<length>;<text>;`. */
  function MessagePart(m: Printed): string {
    Show(m.id) + [SEMI] + (m.sender + [SEMI] + (Show(m.date) + [SEMI] + (Show(|m.text|) + [SEMI] + (m.text + [SEMI]))))
  }

  function Parts(ms: seq<Printed>): string {
    if ms == [] then "" else MessagePart(ms[0]) + Parts(ms[1..])
  }

  function RoomPrefix(room: int): string {
    "rmsg" + [SEMI] + (Show(room) + [SEMI])
  }

  /** `get_room_message_packet`. */
  function LivePacket(room: int, m: Printed): string {
    RoomPrefix(room) + MessagePart(m)
  }

  // ---------------------------------------------------------------- client: messages

  /** `next_msg_struct`, for any number of separators. */
  function Skip(s: string, k: nat): Option<string>
    decreases k
  {
    if k == 0 then Some(s)
    else match After(s)
      case None => None
      case Some(rest) => Skip(rest, k - 1)
  }

  function Shorter(size: nat): nat {
    if size > MESSAGE_MAX_SIZE then MESSAGE_MAX_SIZE else size
  }

  /** `extract_next_msg_struct`.  The sender keeps at most 19 characters, the text 384. */
  function Decode(p: string): Option<MsgData> {
    match After(p)
    case None => None
    case Some(p1) =>
      match After(p1)
      case None => None
      case Some(p2) =>
        match After(p2)
        case None => None
        case Some(p3) =>
          if Atoi(p3) < 1 then None
          else match After(p3)
            case None => None
            case Some(p4) =>
              Some(MsgData(Atoi(p), Clip(Field(p1), NAME_MAX_SIZE - 1), Atoi(p2),
                           Clip(p4, Shorter(Atoi(p3)))))
  }

  /** The next n messages, each decoded where the semicolon count says it starts. */
  function DecodeNext(p: string, n: nat): Option<seq<MsgData>>
    decreases n
  {
    if n == 0 then Some([])
    else match Decode(p)
      case None => None
      case Some(m) =>
        if n == 1 then Some([m])
        else match Skip(p, 5)
          case None => None
          case Some(rest) =>
            match DecodeNext(rest, n - 1)
            case None => None
            case Some(ms) => Some([m] + ms)
  }

  /** What the client keeps of a printed message. */
  function Kept(m: Printed): MsgData {
    MsgData(m.id, Clip(m.sender, NAME_MAX_SIZE - 1), m.date, Clip(m.text, MESSAGE_MAX_SIZE))
  }

  function KeptAll(ms: seq<Printed>): (ks: seq<MsgData>)
    ensures |ks| == |ms|
    ensures forall i :: 0 <= i < |ms| ==> ks[i] == Kept(ms[i])
  {
    seq(|ms|, i requires 0 <= i < |ms| => Kept(ms[i]))
  }

  // ---------------------------------------------------------------- length-prefixed decoding

  lemma NumberField(n: int, rest: string)
    ensures Atoi(Show(n) + [SEMI] + rest) == n
    ensures After(Show(n) + [SEMI] + rest) == Some(rest)
    ensures Field(Show(n) + [SEMI] + rest) == Show(n)
  {
    assert Show(n) + [SEMI] + rest == Show(n) + ([SEMI] + rest);
    AtoiShow(n, [SEMI] + rest);
    Split(Show(n), rest);
  }

  /** Decoding the front of any text that starts with a printed message returns that message, whatever
      its text contains, unless the text is empty, which the client refuses. */
  lemma DecodePart(m: Printed, rest: string)
    requires Plain(m.sender)
    ensures Decode(MessagePart(m) + rest) == if m.text == "" then None else Some(Kept(m))
  {
    hide Decode, After, Field, Atoi, Show;
    var p4 := m.text + [SEMI] + rest;
    var p3 := Show(|m.text|) + [SEMI] + p4;
    var p2 := Show(m.date) + [SEMI] + p3;
    var p1 := m.sender + [SEMI] + p2;
    var p := Show(m.id) + [SEMI] + p1;
    assert MessagePart(m) + rest == p;
    NumberField(m.id, p1);
    Split(m.sender, p2);
    NumberField(m.date, p3);
    NumberField(|m.text|, p4);
    DecodeFields(p, p1, p2, p3, p4);
    assert Clip(p4, Shorter(|m.text|)) == Clip(m.text, MESSAGE_MAX_SIZE);
  }

  lemma DecodeFields(p: string, p1: string, p2: string, p3: string, p4: string)
    requires After(p) == Some(p1) && After(p1) == Some(p2) && After(p2) == Some(p3) && After(p3) == Some(p4)
    ensures Decode(p) == if Atoi(p3) < 1 then None
                         else Some(MsgData(Atoi(p), Clip(Field(p1), NAME_MAX_SIZE - 1), Atoi(p2),
                                           Clip(p4, Shorter(Atoi(p3)))))
  {
  }

  /** The live branch of the client inverts the server's live packet. */
  lemma LiveRoundTrip(room: int, m: Printed)
    requires Plain(m.sender) && |m.sender| < NAME_MAX_SIZE && 1 <= |m.text| <= MESSAGE_MAX_SIZE
    ensures var p := LivePacket(room, m);
            && After(p).Some? && Atoi(After(p).value) == room
            && Skip(p, 2).Some?
            && Decode(Skip(p, 2).value) == Some(MsgData(m.id, m.sender, m.date, m.text))
  {
    PrefixSkipped(room, MessagePart(m));
    DecodePart(m, "");
    assert MessagePart(m) + "" == MessagePart(m);
  }

  lemma PrefixSkipped(room: int, payload: string)
    ensures var p := RoomPrefix(room) + payload;
            && After(p) == Some(Show(room) + [SEMI] + payload)
            && Atoi(After(p).value) == room
            && Skip(p, 2) == Some(payload)
  {
    var p := RoomPrefix(room) + payload;
    assert p == "rmsg" + [SEMI] + (Show(room) + [SEMI] + payload);
    Split("rmsg", Show(room) + [SEMI] + payload);
    NumberField(room, payload);
    assert Skip(Show(room) + [SEMI] + payload, 1) == Some(payload);
  }

  // ---------------------------------------------------------------- counting

  lemma {:induction false} SkipCounts(s: string, k: nat)
    ensures Skip(s, k).Some? <==> Count(s) >= k
    ensures Skip(s, k).Some? ==> Count(Skip(s, k).value) == Count(s) - k && |Skip(s, k).value| <= |s| - k
    decreases k
  {
    AfterCounts(s);
    if k == 0 || After(s).None? {
    } else {
      SkipCounts(After(s).value, k - 1);
    }
  }

  predicate EndsInSemi(s: string) {
    s != "" && s[|s| - 1] == SEMI
  }

  /** Skipping keeps the end of the text, and reaches it right behind a semicolon. */
  lemma {:induction false} SkipKeepsEnd(s: string, k: nat)
    requires k >= 1 && Skip(s, k).Some?
    ensures var rest := Skip(s, k).value;
            if rest == "" then EndsInSemi(s) else EndsInSemi(rest) == EndsInSemi(s)
    decreases k
  {
    AfterIsSuffix(s);
    var next := After(s).value;
    if next == "" {
      AfterReachesEnd(s);
    }
    if k == 1 {
    } else {
      SkipKeepsEnd(next, k - 1);
    }
  }

  lemma {:induction false} AfterReachesEnd(s: string)
    requires After(s) == Some("")
    ensures EndsInSemi(s)
  {
    if s[0] == SEMI {
    } else {
      AfterReachesEnd(s[1..]);
    }
  }

  /** What the counting loop accepts: five semicolons a message, the last one at the very end. */
  predicate Countable(payload: string) {
    EndsInSemi(payload) && Count(payload) % 5 == 0
  }

  /** `next_msg_struct`: one semicolon after the other, five times. */
  method NextMsgStruct(ptr: string) returns (next: Option<string>)
    ensures next == Skip(ptr, 5)
  {
    var at := ptr;
    for i := 0 to 5
      invariant Skip(ptr, 5) == Skip(at, 5 - i)
    {
      var after := After(at);
      if after.None? {
        return None;
      }
      at := after.value;
    }
    return Some(at);
  }

  /** The counting loop of the client's batch branch: it always ends, accepts exactly the countable
      payloads and returns a fifth of their semicolons. */
  method CountMessages(payload: string) returns (amount: Option<nat>)
    ensures amount.Some? <==> Countable(payload)
    ensures amount.Some? ==> 5 * amount.value == Count(payload) && amount.value >= 1
  {
    var ptr := payload;
    var n := 0;
    while true
      invariant Count(ptr) + 5 * n == Count(payload)
      invariant n > 0 ==> ptr != "" && EndsInSemi(ptr) == EndsInSemi(payload)
      invariant n == 0 ==> ptr == payload
      decreases |ptr|
    {
      SkipCounts(ptr, 5);
      var next := NextMsgStruct(ptr);
      if next.None? {
        SemiAtEnd(ptr);
        return None;
      }
      SkipKeepsEnd(ptr, 5);
      n := n + 1;
      ptr := next.value;
      if ptr == "" {
        return Some(n);
      }
    }
  }

  lemma SemiAtEnd(s: string)
    ensures EndsInSemi(s) ==> Count(s) >= 1
  {
    CountPlain(s);
  }

  // ---------------------------------------------------------------- batches

  /** The batch branch without the room's own limit: count, then decode that many. */
  function DecodeBatch(payload: string): Option<seq<MsgData>> {
    if Countable(payload) then DecodeNext(payload, Count(payload) / 5) else None
  }

  ghost predicate PlainSenders(ms: seq<Printed>) {
    forall m :: m in ms ==> Plain(m.sender)
  }

  function TextSemis(ms: seq<Printed>): nat {
    if ms == [] then 0 else Count(ms[0].text) + TextSemis(ms[1..])
  }

  lemma {:induction false} TextSemisPlain(ms: seq<Printed>)
    ensures TextSemis(ms) == 0 <==> forall m :: m in ms ==> Plain(m.text)
  {
    if ms == [] {
    } else {
      CountPlain(ms[0].text);
      TextSemisPlain(ms[1..]);
      assert forall m :: m in ms <==> m == ms[0] || m in ms[1..];
    }
  }

  lemma CountSemi()
    ensures Count([SEMI]) == 1
  {
    assert [SEMI][1..] == "";
  }

  lemma CountNumberField(n: int, rest: string)
    ensures Count(Show(n) + [SEMI] + rest) == 1 + Count(rest)
  {
    CountField(Show(n), rest);
  }

  lemma CountField(field: string, rest: string)
    requires Plain(field)
    ensures Count(field + [SEMI] + rest) == 1 + Count(rest)
  {
    CountPlain(field);
    CountConcat(field + [SEMI], rest);
    CountConcat(field, [SEMI]);
    assert Count([SEMI]) == 1;
  }

  lemma PartCount(m: Printed)
    requires Plain(m.sender)
    ensures Count(MessagePart(m)) == 5 + Count(m.text)
    ensures EndsInSemi(MessagePart(m))
  {
    var p4 := m.text + [SEMI];
    var p3 := Show(|m.text|) + [SEMI] + p4;
    var p2 := Show(m.date) + [SEMI] + p3;
    var p1 := m.sender + [SEMI] + p2;
    assert MessagePart(m) == Show(m.id) + [SEMI] + p1;
    CountNumberField(m.id, p1);
    CountField(m.sender, p2);
    CountNumberField(m.date, p3);
    CountNumberField(|m.text|, p4);
    CountConcat(m.text, [SEMI]);
    assert Count([SEMI]) == 1;
  }

  lemma {:induction false} PartsCount(ms: seq<Printed>)
    requires PlainSenders(ms)
    ensures Count(Parts(ms)) == 5 * |ms| + TextSemis(ms)
    ensures ms != [] ==> EndsInSemi(Parts(ms))
  {
    if ms == [] {
    } else {
      PartCount(ms[0]);
      PartsCount(ms[1..]);
      CountConcat(MessagePart(ms[0]), Parts(ms[1..]));
      assert |ms| == 1 ==> Parts(ms[1..]) == "" && Parts(ms) == MessagePart(ms[0]);
    }
  }

  lemma SkipField(field: string, rest: string, k: nat)
    requires Plain(field)
    ensures Skip(field + [SEMI] + rest, k + 1) == Skip(rest, k)
  {
    Split(field, rest);
  }

  /** For text without semicolons the counting cursor lands where the next message starts. */
  lemma SkipPart(m: Printed, rest: string)
    requires Plain(m.sender) && Plain(m.text)
    ensures Skip(MessagePart(m) + rest, 5) == Some(rest)
  {
    var p4 := m.text + [SEMI] + rest;
    var p3 := Show(|m.text|) + [SEMI] + p4;
    var p2 := Show(m.date) + [SEMI] + p3;
    var p1 := m.sender + [SEMI] + p2;
    assert MessagePart(m) + rest == Show(m.id) + [SEMI] + p1;
    SkipField(Show(m.id), p1, 4);
    SkipField(m.sender, p2, 3);
    SkipField(Show(m.date), p3, 2);
    SkipField(Show(|m.text|), p4, 1);
    SkipField(m.text, rest, 0);
  }

  /** With both cursors in step, decoding the first n messages of a batch returns them. */
  lemma {:induction false} DecodeParts(ms: seq<Printed>, n: nat)
    requires n <= |ms| && PlainSenders(ms) && TextSemis(ms) == 0
    requires forall i :: 0 <= i < n ==> ms[i].text != ""
    ensures DecodeNext(Parts(ms), n) == Some(KeptAll(ms[..n]))
    decreases n
  {
    hide Decode, Skip, MessagePart, Count, Kept;
    if n == 0 {
    } else {
      CountPlain(ms[0].text);
      DecodePart(ms[0], Parts(ms[1..]));
      SkipPart(ms[0], Parts(ms[1..]));
      assert forall i :: 0 <= i < n - 1 ==> ms[1..][i] == ms[i + 1];
      DecodeParts(ms[1..], n - 1);
      StepDecode(Parts(ms), Kept(ms[0]), Parts(ms[1..]), n);
      assert [Kept(ms[0])] + KeptAll(ms[1..][..n - 1]) == KeptAll(ms[..n]);
    }
  }

  /** An empty text among them makes the whole batch fail. */
  lemma {:induction false} DecodeEmptyText(ms: seq<Printed>, n: nat, bad: nat)
    requires bad < n <= |ms| && PlainSenders(ms) && TextSemis(ms) == 0 && ms[bad].text == ""
    ensures DecodeNext(Parts(ms), n) == None
    decreases n
  {
    hide Decode, Skip, MessagePart, Count, Kept;
    CountPlain(ms[0].text);
    DecodePart(ms[0], Parts(ms[1..]));
    SkipPart(ms[0], Parts(ms[1..]));
    if ms[0].text == "" {
    } else {
      DecodeEmptyText(ms[1..], n - 1, bad - 1);
      StepDecode(Parts(ms), Kept(ms[0]), Parts(ms[1..]), n);
    }
  }

  lemma StepDecode(p: string, m: MsgData, rest: string, n: nat)
    requires n >= 1 && Decode(p) == Some(m) && Skip(p, 5) == Some(rest)
    ensures DecodeNext(p, n) == match DecodeNext(rest, n - 1)
                                case None => None
                                case Some(ms) => Some([m] + ms)
  {
    assert n == 1 ==> DecodeNext(rest, 0) == Some([]) && [m] + [] == [m];
  }

  /** Exactly which histories survive the trip in a first packet: those whose texts are neither
      empty nor contain a semicolon. */
  lemma FirstPacketExact(ms: seq<Printed>)
    requires ms != [] && PlainSenders(ms)
    ensures DecodeBatch(Parts(ms)) == Some(KeptAll(ms))
       <==> forall m :: m in ms ==> m.text != "" && Plain(m.text)
  {
    hide Decode, DecodeNext, Skip, MessagePart, Parts, Kept, TextSemis, Count;
    PartsCount(ms);
    TextSemisPlain(ms);
    FifthOf(|ms|, TextSemis(ms));
    if TextSemis(ms) > 0 {
      DecodeLength(Parts(ms), Count(Parts(ms)) / 5);
    } else if bad :| 0 <= bad < |ms| && ms[bad].text == "" {
      DecodeEmptyText(ms, |ms|, bad);
      assert ms[bad] in ms;
    } else {
      DecodeParts(ms, |ms|);
      assert ms[..|ms|] == ms;
    }
  }

  lemma FifthOf(n: nat, extra: nat)
    ensures extra == 0 ==> (5 * n + extra) % 5 == 0 && (5 * n + extra) / 5 == n
    ensures extra > 0 && (5 * n + extra) % 5 == 0 ==> (5 * n + extra) / 5 != n
    ensures (5 * n + extra + 1) % 5 == 0 <==> extra % 5 == 4
  {
  }

  lemma {:induction false} DecodeLength(p: string, n: nat)
    ensures DecodeNext(p, n).Some? ==> |DecodeNext(p, n).value| == n
    decreases n
  {
    hide Decode, Skip;
    if n <= 1 || Skip(p, 5).None? {
    } else {
      DecodeLength(Skip(p, 5).value, n - 1);
    }
  }

  /** A continuation packet carries one more separator in front, so the client accepts it only when
      its texts hold a number of semicolons that is 4 modulo 5; never when they hold none. */
  lemma ContinuationPacket(ms: seq<Printed>)
    requires ms != [] && PlainSenders(ms)
    ensures Countable([SEMI] + Parts(ms)) <==> TextSemis(ms) % 5 == 4
    ensures (forall m :: m in ms ==> Plain(m.text)) ==> DecodeBatch([SEMI] + Parts(ms)) == None
  {
    hide Decode, DecodeNext, Skip, MessagePart, Parts, Kept, TextSemis, Count;
    PartsCount(ms);
    TextSemisPlain(ms);
    FifthOf(|ms|, TextSemis(ms));
    CountConcat([SEMI], Parts(ms));
    CountSemi();
    assert ([SEMI] + Parts(ms))[|Parts(ms)|] == Parts(ms)[|Parts(ms)| - 1];
  }
}
