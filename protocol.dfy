/**
 * The chat server's line protocol: how the first line selects a command (handleClient),
 * how each handler reads its tagged lines (handleJoinRoom, handleLeaveRoom, handleChat,
 * handleDisconnect), and the text of the replies and broadcast frames it writes.
 */
module Protocol {
  import opened Options
  import opened Strings

  // ---------------------------------------------------------------- tags

  const JoinTag: string := "JOIN_CHATROOM:"
  const LeaveTag: string := "LEAVE_CHATROOM:"
  const ChatTag: string := "CHAT:"
  const DisconnectTag: string := "DISCONNECT:"
  const ClientIpTag: string := "CLIENT_IP:"
  const PortTag: string := "PORT:"
  const ClientNameTag: string := "CLIENT_NAME:"
  const JoinIdTag: string := "JOIN_ID:"
  const MessageTag: string := "MESSAGE:"
  const JoinedTag: string := "JOINED_CHATROOM:"
  const ServerIpTag: string := "SERVER_IP:"
  const RoomRefTag: string := "ROOM_REF:"
  const LeftTag: string := "LEFT_CHATROOM:"

  // ---------------------------------------------------------------- dispatch

  datatype Verb = JoinVerb | LeaveVerb | ChatVerb | DisconnectVerb | UnknownVerb

  /**
   * The prefix tests of handleClient, in its order. The four command tags begin with
   * different letters, so the order of the tests never matters.
   */
  function Classify(first: string): (v: Verb)
    ensures v == JoinVerb <==> HasPrefix(first, JoinTag)
    ensures v == LeaveVerb <==> HasPrefix(first, LeaveTag)
    ensures v == ChatVerb <==> HasPrefix(first, ChatTag)
    ensures v == DisconnectVerb <==> HasPrefix(first, DisconnectTag)
  {
    TagsExclusive(first);
    if HasPrefix(first, JoinTag) then JoinVerb
    else if HasPrefix(first, LeaveTag) then LeaveVerb
    else if HasPrefix(first, ChatTag) then ChatVerb
    else if HasPrefix(first, DisconnectTag) then DisconnectVerb
    else UnknownVerb
  }

  /** No line starts with two of the command tags. */
  lemma TagsExclusive(s: string)
    ensures HasPrefix(s, JoinTag) ==> s[0] == 'J'
    ensures HasPrefix(s, LeaveTag) ==> s[0] == 'L'
    ensures HasPrefix(s, ChatTag) ==> s[0] == 'C'
    ensures HasPrefix(s, DisconnectTag) ==> s[0] == 'D'
  {
    PrefixHead(s, JoinTag);
    PrefixHead(s, LeaveTag);
    PrefixHead(s, ChatTag);
    PrefixHead(s, DisconnectTag);
  }

  lemma PrefixHead(s: string, prefix: string)
    requires prefix != []
    ensures HasPrefix(s, prefix) ==> s[0] == prefix[0]
  {
    if HasPrefix(s, prefix) {
      assert s[..|prefix|] == prefix;
    }
  }

  // ---------------------------------------------------------------- reading lines

  /**
   * The result of the i-th ReadString('\n') on the connection: a line with its terminator,
   * or "" once the input is exhausted (the read error is ignored).
   */
  function LineAt(input: seq<string>, i: nat): string
  {
    if i < |input| then input[i] else ""
  }

  /** A value as the handlers extract it: the tag removed, surrounding whitespace trimmed. */
  function Value(line: string, tag: string): (v: string)
    ensures Trimmed(v)
  {
    TrimSpace(TrimPrefix(line, tag))
  }

  /** One tagged line: the value of `line` when it starts with `tag`. */
  function Field(line: string, tag: string): (f: Option<string>)
    ensures f.Some? <==> HasPrefix(line, tag)
    ensures f.Some? ==> Trimmed(f.value) && exists pad :: line == tag + pad && TrimSpace(pad) == f.value
  {
    if HasPrefix(line, tag) then Some(Value(line, tag)) else None
  }

  /** A protocol line as a peer writes it. */
  function TagLine(tag: string, value: string): string
  {
    tag + value + "\n"
  }

  /** Reading a well-formed line gives back the value that was written. */
  lemma FieldOfTagLine(tag: string, value: string)
    requires Trimmed(value)
    ensures Field(TagLine(tag, value), tag) == Some(value)
  {
    assert TagLine(tag, value) == tag + (value + "\n");
    assert TrimPrefix(TagLine(tag, value), tag) == [] + value + "\n";
    TrimSpacePadded([], value, "\n");
  }

  // ---------------------------------------------------------------- commands

  /** A command whose every field validated; all string fields are as the server extracted them. */
  datatype Request =
    | Join(room: string, clientIp: string, clientPort: string, name: string)
    | Leave(roomRef: string, joinId: string, name: string)
    | Chat(roomRef: string, joinId: string, name: string, text: string)
    | Disconnect(clientIp: string, clientPort: string, name: string)

  /** What a handler decoded, and how many lines it read after the first (its ReadString calls). */
  datatype Decoded = Decoded(request: Option<Request>, consumed: nat)

  /**
   * The continuation of a chat message (chat.go:219-225), read from line `from` on: lines
   * are trimmed and appended with no separator, up to the first one that trims to nothing.
   */
  function ContinuationText(input: seq<string>, from: nat): string
    decreases |input| - from
  {
    var line := TrimSpace(LineAt(input, from));
    if line == "" then "" else line + ContinuationText(input, from + 1)
  }

  /** How many lines the continuation reads, the one that ends it included. */
  function ContinuationLines(input: seq<string>, from: nat): (n: nat)
    ensures n >= 1
    decreases |input| - from
  {
    if TrimSpace(LineAt(input, from)) == "" then 1 else ContinuationLines(input, from + 1) + 1
  }

  /** One more line of a continuation that has not ended yet. */
  lemma ContinuationStep(input: seq<string>, i: nat)
    requires TrimSpace(LineAt(input, i)) != ""
    ensures ContinuationText(input, i) == TrimSpace(LineAt(input, i)) + ContinuationText(input, i + 1)
    ensures ContinuationLines(input, i) == ContinuationLines(input, i + 1) + 1
  {
  }

  /** A blank line (nothing but whitespace) ends the continuation, and is read. */
  lemma ContinuationEnds(input: seq<string>, i: nat)
    requires AllSpace(LineAt(input, i))
    ensures ContinuationText(input, i) == "" && ContinuationLines(input, i) == 1
  {
    TrimSpaceEmpty(LineAt(input, i));
  }

  /** handleJoinRoom's reads (chat.go:116-145): three lines, whatever they hold. */
  function DecodeJoin(first: string, input: seq<string>): (d: Decoded)
    ensures d.consumed == 3
    ensures d.request.Some? <==>
      HasPrefix(LineAt(input, 0), ClientIpTag) && HasPrefix(LineAt(input, 1), PortTag)
      && HasPrefix(LineAt(input, 2), ClientNameTag)
    ensures d.request.Some? ==>
      d.request.value == Join(Value(first, JoinTag), Value(LineAt(input, 0), ClientIpTag),
                              Value(LineAt(input, 1), PortTag), Value(LineAt(input, 2), ClientNameTag))
  {
    var room := Value(first, JoinTag);
    match (Field(LineAt(input, 0), ClientIpTag), Field(LineAt(input, 1), PortTag), Field(LineAt(input, 2), ClientNameTag))
    case (Some(ip), Some(port), Some(name)) => Decoded(Some(Join(room, ip, port, name)), 3)
    case _ => Decoded(None, 3)
  }

  /** handleLeaveRoom's reads (chat.go:161-182): two lines, whatever they hold. */
  function DecodeLeave(first: string, input: seq<string>): (d: Decoded)
    ensures d.consumed == 2
    ensures d.request.Some? <==> HasPrefix(LineAt(input, 0), JoinIdTag) && HasPrefix(LineAt(input, 1), ClientNameTag)
    ensures d.request.Some? ==>
      d.request.value == Leave(Value(first, LeaveTag), Value(LineAt(input, 0), JoinIdTag), Value(LineAt(input, 1), ClientNameTag))
  {
    var roomRef := Value(first, LeaveTag);
    match (Field(LineAt(input, 0), JoinIdTag), Field(LineAt(input, 1), ClientNameTag))
    case (Some(joinId), Some(name)) => Decoded(Some(Leave(roomRef, joinId, name)), 2)
    case _ => Decoded(None, 2)
  }

  /**
   * handleChat's reads (chat.go:196-231): three lines, then the continuation only when all
   * three validated. The MESSAGE payload itself is not trimmed.
   */
  function DecodeChat(first: string, input: seq<string>): (d: Decoded)
    ensures d.request.Some? <==>
      HasPrefix(LineAt(input, 0), JoinIdTag) && HasPrefix(LineAt(input, 1), ClientNameTag)
      && HasPrefix(LineAt(input, 2), MessageTag)
    ensures d.request.None? ==> d.consumed == 3
    ensures d.request.Some? ==> d.consumed > 3 && d.request.value.Chat?
    ensures d.request.Some? ==>
      && d.consumed == 3 + ContinuationLines(input, 3)
      && d.request.value == Chat(Value(first, ChatTag), Value(LineAt(input, 0), JoinIdTag), Value(LineAt(input, 1), ClientNameTag),
                                 TrimPrefix(LineAt(input, 2), MessageTag) + ContinuationText(input, 3))
  {
    var roomRef := Value(first, ChatTag);
    var message := LineAt(input, 2);
    match (Field(LineAt(input, 0), JoinIdTag), Field(LineAt(input, 1), ClientNameTag), HasPrefix(message, MessageTag))
    case (Some(joinId), Some(name), true) =>
      Decoded(Some(Chat(roomRef, joinId, name, TrimPrefix(message, MessageTag) + ContinuationText(input, 3))),
              3 + ContinuationLines(input, 3))
    case _ => Decoded(None, 3)
  }

  /** handleDisconnect's reads (chat.go:239-260): two lines, whatever they hold. */
  function DecodeDisconnect(first: string, input: seq<string>): (d: Decoded)
    ensures d.consumed == 2
    ensures d.request.Some? <==> HasPrefix(LineAt(input, 0), PortTag) && HasPrefix(LineAt(input, 1), ClientNameTag)
    ensures d.request.Some? ==>
      d.request.value == Disconnect(Value(first, DisconnectTag), Value(LineAt(input, 0), PortTag), Value(LineAt(input, 1), ClientNameTag))
  {
    var clientIp := Value(first, DisconnectTag);
    match (Field(LineAt(input, 0), PortTag), Field(LineAt(input, 1), ClientNameTag))
    case (Some(port), Some(name)) => Decoded(Some(Disconnect(clientIp, port, name)), 2)
    case _ => Decoded(None, 2)
  }

  /** handleClient: the handler the first line selects; an unknown command reads nothing. */
  function Decode(first: string, input: seq<string>): (d: Decoded)
    ensures Classify(first) == UnknownVerb ==> d == Decoded(None, 0)
    ensures d.request.Some? ==> match d.request.value
      case Join(_, _, _, _) => Classify(first) == JoinVerb
      case Leave(_, _, _) => Classify(first) == LeaveVerb
      case Chat(_, _, _, _) => Classify(first) == ChatVerb
      case Disconnect(_, _, _) => Classify(first) == DisconnectVerb
  {
    match Classify(first)
    case JoinVerb => DecodeJoin(first, input)
    case LeaveVerb => DecodeLeave(first, input)
    case ChatVerb => DecodeChat(first, input)
    case DisconnectVerb => DecodeDisconnect(first, input)
    case UnknownVerb => Decoded(None, 0)
  }

  // ---------------------------------------------------------------- what a client sends

  /**
   * The lines a client sends for a command, the command line first, one element per line.
   * A chat's text is the whole rest of its MESSAGE line, so a text ending in "\n" gives the
   * line a client writes; a blank line then ends the message.
   */
  function Encode(req: Request): (lines: seq<string>)
    ensures |lines| >= 3
  {
    match req
    case Join(room, clientIp, clientPort, name) =>
      [TagLine(JoinTag, room), TagLine(ClientIpTag, clientIp), TagLine(PortTag, clientPort), TagLine(ClientNameTag, name)]
    case Leave(roomRef, joinId, name) =>
      [TagLine(LeaveTag, roomRef), TagLine(JoinIdTag, joinId), TagLine(ClientNameTag, name)]
    case Chat(roomRef, joinId, name, text) =>
      [TagLine(ChatTag, roomRef), TagLine(JoinIdTag, joinId), TagLine(ClientNameTag, name), MessageTag + text, "\n"]
    case Disconnect(clientIp, clientPort, name) =>
      [TagLine(DisconnectTag, clientIp), TagLine(PortTag, clientPort), TagLine(ClientNameTag, name)]
  }

  /**
   * A command whose fields survive the server's trimming: every field but the chat text has
   * no surrounding whitespace. The chat text is taken as it is.
   */
  predicate Encodable(req: Request)
  {
    match req
    case Join(room, clientIp, clientPort, name) => Trimmed(room) && Trimmed(clientIp) && Trimmed(clientPort) && Trimmed(name)
    case Leave(roomRef, joinId, name) => Trimmed(roomRef) && Trimmed(joinId) && Trimmed(name)
    case Chat(roomRef, joinId, name, _) => Trimmed(roomRef) && Trimmed(joinId) && Trimmed(name)
    case Disconnect(clientIp, clientPort, name) => Trimmed(clientIp) && Trimmed(clientPort) && Trimmed(name)
  }

  /** The value on a line a client wrote is the value it meant. */
  lemma ValueOfTagLine(tag: string, value: string)
    requires Trimmed(value)
    ensures HasPrefix(TagLine(tag, value), tag) && Value(TagLine(tag, value), tag) == value
  {
    FieldOfTagLine(tag, value);
  }

  /**
   * The server reads back every command a client encodes, and reads exactly its lines: for a
   * chat, the MESSAGE line and the blank line that ends the message.
   */
  lemma DecodeEncode(req: Request)
    requires Encodable(req)
    ensures var lines := Encode(req);
      Decode(lines[0], lines[1..]) == Decoded(Some(req), |lines| - 1)
  {
    var lines := Encode(req);
    match req
    case Join(room, clientIp, clientPort, name) =>
      ValueOfTagLine(JoinTag, room);
      assert Classify(lines[0]) == JoinVerb;
      assert Decode(lines[0], lines[1..]) == DecodeJoin(lines[0], lines[1..]);
      DecodeJoinEncoded(room, clientIp, clientPort, name);
    case Leave(roomRef, joinId, name) =>
      ValueOfTagLine(LeaveTag, roomRef);
      assert Classify(lines[0]) == LeaveVerb;
      assert Decode(lines[0], lines[1..]) == DecodeLeave(lines[0], lines[1..]);
      DecodeLeaveEncoded(roomRef, joinId, name);
    case Chat(roomRef, joinId, name, text) =>
      ValueOfTagLine(ChatTag, roomRef);
      assert Classify(lines[0]) == ChatVerb;
      assert Decode(lines[0], lines[1..]) == DecodeChat(lines[0], lines[1..]);
      DecodeChatEncoded(roomRef, joinId, name, text);
    case Disconnect(clientIp, clientPort, name) =>
      ValueOfTagLine(DisconnectTag, clientIp);
      assert Classify(lines[0]) == DisconnectVerb;
      assert Decode(lines[0], lines[1..]) == DecodeDisconnect(lines[0], lines[1..]);
      DecodeDisconnectEncoded(clientIp, clientPort, name);
  }

  lemma DecodeJoinEncoded(room: string, clientIp: string, clientPort: string, name: string)
    requires Trimmed(room) && Trimmed(clientIp) && Trimmed(clientPort) && Trimmed(name)
    ensures var lines := Encode(Join(room, clientIp, clientPort, name));
      DecodeJoin(lines[0], lines[1..]) == Decoded(Some(Join(room, clientIp, clientPort, name)), 3)
  {
    var input := Encode(Join(room, clientIp, clientPort, name))[1..];
    assert LineAt(input, 0) == TagLine(ClientIpTag, clientIp);
    assert LineAt(input, 1) == TagLine(PortTag, clientPort);
    assert LineAt(input, 2) == TagLine(ClientNameTag, name);
    ValueOfTagLine(JoinTag, room);
    ValueOfTagLine(ClientIpTag, clientIp);
    ValueOfTagLine(PortTag, clientPort);
    ValueOfTagLine(ClientNameTag, name);
  }

  lemma DecodeLeaveEncoded(roomRef: string, joinId: string, name: string)
    requires Trimmed(roomRef) && Trimmed(joinId) && Trimmed(name)
    ensures var lines := Encode(Leave(roomRef, joinId, name));
      DecodeLeave(lines[0], lines[1..]) == Decoded(Some(Leave(roomRef, joinId, name)), 2)
  {
    var input := Encode(Leave(roomRef, joinId, name))[1..];
    assert LineAt(input, 0) == TagLine(JoinIdTag, joinId);
    assert LineAt(input, 1) == TagLine(ClientNameTag, name);
    ValueOfTagLine(LeaveTag, roomRef);
    ValueOfTagLine(JoinIdTag, joinId);
    ValueOfTagLine(ClientNameTag, name);
  }

  lemma DecodeChatEncoded(roomRef: string, joinId: string, name: string, text: string)
    requires Trimmed(roomRef) && Trimmed(joinId) && Trimmed(name)
    ensures var lines := Encode(Chat(roomRef, joinId, name, text));
      DecodeChat(lines[0], lines[1..]) == Decoded(Some(Chat(roomRef, joinId, name, text)), 4)
  {
    var input := Encode(Chat(roomRef, joinId, name, text))[1..];
    assert LineAt(input, 0) == TagLine(JoinIdTag, joinId);
    assert LineAt(input, 1) == TagLine(ClientNameTag, name);
    assert LineAt(input, 2) == MessageTag + text;
    assert LineAt(input, 3) == "\n";
    ValueOfTagLine(ChatTag, roomRef);
    ValueOfTagLine(JoinIdTag, joinId);
    ValueOfTagLine(ClientNameTag, name);
    assert TrimPrefix(MessageTag + text, MessageTag) == text;
    assert AllSpace(LineAt(input, 3));
    ContinuationEnds(input, 3);
    assert text + "" == text;
  }

  lemma DecodeDisconnectEncoded(clientIp: string, clientPort: string, name: string)
    requires Trimmed(clientIp) && Trimmed(clientPort) && Trimmed(name)
    ensures var lines := Encode(Disconnect(clientIp, clientPort, name));
      DecodeDisconnect(lines[0], lines[1..]) == Decoded(Some(Disconnect(clientIp, clientPort, name)), 2)
  {
    var input := Encode(Disconnect(clientIp, clientPort, name))[1..];
    assert LineAt(input, 0) == TagLine(PortTag, clientPort);
    assert LineAt(input, 1) == TagLine(ClientNameTag, name);
    ValueOfTagLine(DisconnectTag, clientIp);
    ValueOfTagLine(PortTag, clientPort);
    ValueOfTagLine(ClientNameTag, name);
  }

  /**
   * The ids a join reply hands out, echoed back by the client in a leave, name the same room
   * and the same client again.
   */
  lemma LeaveEchoesJoinIds(roomId: int, clientId: int, name: string)
    requires MinInt64 <= roomId <= MaxInt64 && MinInt64 <= clientId <= MaxInt64 && Trimmed(name)
    ensures var lines := Encode(Leave(Itoa(roomId), Itoa(clientId), name));
      var d := Decode(lines[0], lines[1..]);
      d.request.Some? && d.request.value.Leave?
      && Atoi(d.request.value.roomRef) == roomId && Atoi(d.request.value.joinId) == clientId
  {
    DecodeEncode(Leave(Itoa(roomId), Itoa(clientId), name));
    AtoiItoa(roomId);
    AtoiItoa(clientId);
  }

  /**
   * A chat message over two lines: the first MESSAGE payload keeps its line break, the
   * continuation line is trimmed and appended, and the blank line ends the message. So
   * "MESSAGE:hello", "world", "" carries the text "hello\nworld".
   */
  lemma ChatKeepsFirstLineBreak(first: string, joinLine: string, nameLine: string, payload: string, word: string)
    requires HasPrefix(joinLine, JoinIdTag) && HasPrefix(nameLine, ClientNameTag)
    requires Trimmed(word) && word != ""
    ensures var d := DecodeChat(first, [joinLine, nameLine, MessageTag + payload + "\n", word + "\n", "\n"]);
      d.request.Some? && d.request.value.text == payload + "\n" + word && d.consumed == 5
  {
    var input := [joinLine, nameLine, MessageTag + payload + "\n", word + "\n", "\n"];
    assert LineAt(input, 0) == joinLine && LineAt(input, 1) == nameLine;
    assert LineAt(input, 2) == MessageTag + (payload + "\n");
    assert TrimPrefix(LineAt(input, 2), MessageTag) == payload + "\n";
    ContinuationOfOneLine(input, 3, word);
  }

  /** A continuation of one non-blank line then a blank one: the line's trimmed value, two lines read. */
  lemma ContinuationOfOneLine(input: seq<string>, i: nat, word: string)
    requires Trimmed(word) && word != ""
    requires LineAt(input, i) == word + "\n" && LineAt(input, i + 1) == "\n"
    ensures ContinuationText(input, i) == word && ContinuationLines(input, i) == 2
  {
    assert [] + word + "\n" == LineAt(input, i);
    TrimSpacePadded([], word, "\n");
    assert AllSpace(LineAt(input, i + 1));
    ContinuationEnds(input, i + 1);
    ContinuationStep(input, i);
    assert word + "" == word;
  }

  // ---------------------------------------------------------------- what the server writes

  /** The frame sendMessageToChatroom writes to every member (chat.go:91). */
  function ChatFrame(roomId: int, name: string, text: string): string
  {
    ChatTag + Itoa(roomId) + ClientNameTag + name + MessageTag + text
  }

  /** The reply to a successful join (chat.go:148-152). */
  function JoinReply(room: string, serverIp: string, serverPort: string, roomId: int, clientId: int): string
  {
    TagLine(JoinedTag, room) + TagLine(ServerIpTag, serverIp) + TagLine(PortTag, serverPort)
    + TagLine(RoomRefTag, Itoa(roomId)) + TagLine(JoinIdTag, Itoa(clientId))
  }

  /** The reply to a leave: the room and client ids echoed as the client sent them (chat.go:183-184). */
  function LeaveReply(roomRef: string, joinId: string): string
  {
    TagLine(LeftTag, roomRef) + TagLine(JoinIdTag, joinId)
  }

  /** The text broadcast when a client joins a room (chat.go:154). */
  function JoinedNotice(name: string): string
  {
    name + " has joined this chatroom."
  }

  /** The text broadcast when a client leaves a room or disconnects (chat.go:186, 262). */
  function LeftNotice(name: string): string
  {
    name + " has left this chatroom."
  }
}
