# A verified model of the chat server in `chat.go`

`chat.go` is a line-oriented chat server. A client connects and sends commands, each a
tagged first line followed by tagged lines:

- `JOIN_CHATROOM:` joins a room, creating the room and the client as needed;
- `LEAVE_CHATROOM:` leaves a room;
- `CHAT:` posts a message to a room;
- `DISCONNECT:` leaves every room and drops the client.

The server keeps four globals. `ClientID` and `RoomID` are counters holding the last id
handed out. `Clients` maps a client id to its name and connection. `Rooms` maps a room id to
its name and member set. Every room event is broadcast to all of the room's members as one
frame, `CHAT:<room id>CLIENT_NAME:<name>MESSAGE:<text>`.

The model has these modules:

- `Strings` (strings.dfy): the Go `strings`/`strconv` functions the server calls, which are
  `HasPrefix`, `TrimPrefix`, `TrimSpace` (over Unicode White_Space), `Itoa` and `Atoi`.
  `Atoi` accepts an optional sign and decimal digits. It clamps an out-of-range numeral to
  64 bits and gives 0 for text that is not a numeral (see "Left out" for one difference from
  Go).
- `Protocol` (protocol.dfy): the command tags, the prefix dispatch, and what each handler
  reads. The input after the command line is a sequence of lines, each what one
  `ReadString('\n')` returns, and "" past the end. The module also holds the replies and
  broadcast texts. A client-side `Encode` is the decoder's partner. It builds such a
  sequence of lines, one element per line, with the chat text as the whole rest of the
  `MESSAGE:` line.
- `Registry` (registry.dfy): the four globals as a `State` value and the effect of each
  registry function on it. `Valid` is the invariant the server keeps: ids from 1 up, room
  keys exactly 1..RoomID, unique client and room names, and every member a registered client.
- `Broadcaster` (broadcaster.dfy): the writes of `sendMessageToChatroom`.
- `Dispatcher` (dispatcher.dfy): the `Effect` of each command. An effect is the status, the
  registry afterwards, the replies to the sender in order, and the broadcast writes as a
  multiset.
- `Server` (server.dfy): the imperative server. The class `ChatServer` holds the four globals
  and a log `written` of every connection write. Each Go function is a method with the same
  loops and branches. Each method is proved to have exactly the effect the functions above
  describe, and every handler keeps `Valid`.

Go iterates maps in no fixed order. The model's loops visit ids in ascending order. Where that
order is visible, in broadcasts, the contracts state the writes as a multiset, so they hold
for any visiting order. A `LEAVE_CHATROOM` naming a room that does not exist makes Go
dereference a nil room (chat.go:74). The model ends such a command with the status `Panicked`,
after the reply and the (empty) broadcast it has already written.

The chat text follows the code. The first `MESSAGE:` payload is not trimmed (chat.go:218), so
its line break stays in the text. Each continuation line is trimmed and appended with no
separator. The lines `MESSAGE:hello`, `world` and a blank line therefore carry `hello\nworld`,
not `helloworld` (`Protocol.ChatKeepsFirstLineBreak`).

## Model

| member | source | states |
|---|---|---|
| Registry.InitialValid | chat.go:11-14 | the empty globals satisfy the registry invariant |
| Registry.ClientNamed | chat.go:42-46 | a name found is the name of that registered client; not found means no registered client has the name |
| Registry.RoomNamed | chat.go:58-62 | a room found has that name; not found means no room has the name |
| Registry.ResolveClient | chat.go:40-54 | a known name keeps its id and leaves the registry as it was; a new name gets ClientID+1 and Clients gains exactly that entry with the given name and connection; rooms untouched; invariant preserved |
| Registry.ResolveTwice | chat.go:40-54 | resolving the same name again, from any connection, returns the same id and changes nothing |
| Registry.AddClientToRoom | chat.go:56-71 | the room with that name is reused, otherwise room RoomID+1 is created holding only the client; the client is then a member of the returned room, no other room changes and no client changes; invariant preserved |
| Registry.AddTwiceSameRoom | chat.go:56-71 | a second join by the same room name returns the same room id and creates no room |
| Registry.RemoveClientFromRoom | chat.go:73-75 | the existing room loses exactly that id, and is unchanged if the id was not a member; every other room, client and counter is unchanged; invariant preserved |
| Registry.Valid | chat.go:11-14 | the invariant over the four globals: ids from 1 to the counters, room keys exactly 1..RoomID, unique names, every member registered |
| Registry.RoomsOf | chat.go:77-86 | the set of rooms that have the client as a member |
| Registry.RoomsUpTo | chat.go:77-86 | the rooms listed are exactly the rooms that have the client as a member, each once, in ascending id order |
| Registry.RoomsUpToNone | chat.go:77-86 | a client that is in no room gets an empty list |
| Registry.LeaveRooms | chat.go:264-268 | leaving rooms one by one keeps the room keys, clients, counters and invariant |
| Registry.LeaveRoomsRooms | chat.go:264-268 | after leaving a list of rooms, exactly the listed rooms have lost the client and the others are as they were |
| Registry.LeaveRoomsStep | chat.go:264-268 | leaving one more listed room is one more removeClientFromRoom |
| Registry.Disconnected | chat.go:263-270 | after a disconnect the client is in no room and not in Clients; rooms keep their names and lose only that member; counters unchanged; invariant preserved |
| Registry.LeaveEveryRoom | chat.go:261-270 | leaving each of the client's rooms in turn and then deleting its record gives exactly the Disconnected state |
| Broadcaster.Fanout | chat.go:92-94 | one write of the frame per member with an id in range |
| Broadcaster.FanoutPerConnection | chat.go:92-94 | each connection receives the frame exactly as many times as there are members in range registered on it, so the writes are fixed as a multiset |
| Broadcaster.FanoutReaches | chat.go:92-94 | every member in range gets the frame on its own connection |
| Broadcaster.Broadcast | chat.go:88-98 | nothing is written for a missing room; otherwise exactly one write per member, each carrying the room's CHAT frame |
| Broadcaster.BroadcastPerConnection | chat.go:88-98 | each connection receives the room's frame exactly as many times as the room has members registered on it; a missing room gets nothing |
| Broadcaster.BroadcastReachesMembers | chat.go:88-98 | every member of the room receives the frame on the connection registered for it |
| Broadcaster.BroadcastLocal | chat.go:88-98 | a broadcast depends only on the target room and the registered clients |
| Broadcaster.Notices | chat.go:264-266 | the writes of the disconnect loop: one room broadcast of the "has left" text per listed room, in list order |
| Broadcaster.NoticesStep | chat.go:264-266 | the notices for one more room are the earlier notices followed by that room's broadcast |
| Broadcaster.NoticesReach | chat.go:262-268 | every member of every listed room receives that room's "has left" frame |
| Dispatcher.Perform | chat.go:146-270 | a validated command never ends Rejected; it ends Panicked exactly for a leave from a missing room; a chat changes no registry state and sends no reply; the invariant is preserved |
| Dispatcher.JoinEffect | chat.go:146-155 | a validated join is accepted and keeps the invariant |
| Dispatcher.LeaveEffect | chat.go:183-190 | a validated leave always replies LEFT_CHATROOM/JOIN_ID with the room and client references exactly as the client sent them. It is accepted when the room exists, and the registry is then removeClientFromRoom of the parsed ids. Otherwise it panics with the registry unchanged and no broadcast. The invariant is kept |
| Dispatcher.ChatEffect | chat.go:232-233 | a validated chat is accepted, sends no reply and leaves the registry unchanged; a chat to a missing room writes nothing |
| Dispatcher.ChatReachesMembers | chat.go:232-233 | every current member of the room the chat names receives the CHAT frame with the sender's name and text, on its own connection |
| Dispatcher.DisconnectEffect | chat.go:261-270 | a validated disconnect is accepted, sends no reply and keeps the invariant |
| Dispatcher.Apply | chat.go:143-145 | a command is rejected exactly when a field failed validation, and then changes nothing and writes nothing |
| Dispatcher.Respond | chat.go:100-112 | an unrecognised command line is rejected with no change and no write |
| Dispatcher.JoinerHearsOwnJoin | chat.go:146-155 | after a join the client is a member of the room with the requested name; the reply names exactly that room id and client id; the joiner's own connection receives its "has joined" frame |
| Dispatcher.LeaverHearsOwnLeave | chat.go:183-190 | the notice goes out before the removal, so a member that leaves an existing room receives its own "has left" frame and is no longer a member afterwards |
| Dispatcher.DisconnectLeavesNoTrace | chat.go:261-270 | after a disconnect the client is in no room and not registered, and every member of every room it was in receives its "has left" frame |
| Dispatcher.DisconnectUnknownBurnsId | chat.go:261-270 | a disconnect under an unknown name uses up one client id and otherwise leaves the registry as it was, writing nothing |
| Dispatcher.RejectedIsHarmless | chat.go:143-145 | a command that fails validation leaves the registry unchanged and writes nothing |
| Protocol.Classify | chat.go:100-112 | each command is selected exactly when the line starts with its tag |
| Protocol.TagsExclusive | chat.go:101-108 | a line starting with a command tag starts with that tag's own first letter, and the four letters differ, so at most one tag matches and the order of the tests does not matter |
| Protocol.Value | chat.go:122-123 | an extracted value never has leading or trailing whitespace |
| Protocol.Field | chat.go:121-126 | a field is present exactly when the line starts with the tag, and is then the trimmed rest of the line |
| Protocol.FieldOfTagLine | chat.go:121-123 | a line `tag + value + "\n"` with a trimmed value reads back as that value |
| Protocol.ValueOfTagLine | chat.go:121-123 | a line written as `tag + value + "\n"` starts with the tag and its value is the one written |
| Protocol.ContinuationStep | chat.go:221-225 | a non-blank line adds its trimmed text to the message, and the reader moves on one line |
| Protocol.ContinuationEnds | chat.go:219-221 | a blank line ends the message, adds nothing, and is itself read |
| Protocol.ContinuationOfOneLine | chat.go:219-225 | one non-blank line and then a blank one add that line's trimmed text and take two reads |
| Protocol.DecodeJoin | chat.go:114-145 | three lines are always read; the join is accepted exactly when they start with CLIENT_IP:, PORT: and CLIENT_NAME:, and its fields are then the trimmed values |
| Protocol.DecodeLeave | chat.go:159-182 | two lines are always read; the leave is accepted exactly when they start with JOIN_ID: and CLIENT_NAME:, with the trimmed values |
| Protocol.DecodeChat | chat.go:194-231 | a rejected chat reads three lines; an accepted one (JOIN_ID:, CLIENT_NAME:, MESSAGE:) also reads the continuation, and its text is the untrimmed payload followed by the trimmed continuation lines |
| Protocol.DecodeDisconnect | chat.go:237-260 | two lines are always read; the disconnect is accepted exactly when they start with PORT: and CLIENT_NAME:, with the trimmed values |
| Protocol.Decode | chat.go:100-112 | an unknown command reads nothing and is rejected; a decoded request is of the kind its tag selects |
| Protocol.DecodeJoinEncoded | chat.go:116-142 | the line sequence Encode builds for a join decodes to that join in three reads |
| Protocol.DecodeLeaveEncoded | chat.go:161-179 | the line sequence Encode builds for a leave decodes to that leave in two reads |
| Protocol.DecodeChatEncoded | chat.go:196-228 | the line sequence Encode builds for a chat, with the text as the rest of the MESSAGE line and a blank line after it, decodes to that chat in four reads |
| Protocol.DecodeDisconnectEncoded | chat.go:239-257 | the line sequence Encode builds for a disconnect decodes to it in two reads |
| Protocol.DecodeEncode | chat.go:100-112 | every command with trimmed fields is decoded back exactly from the line sequence Encode builds, consuming all of its lines |
| Protocol.ContinuationText | chat.go:219-225 | the reference definition of the chat continuation: the trimmed lines up to the first line that trims to nothing, joined with no separator |
| Protocol.ContinuationLines | chat.go:219-225 | the reads the continuation takes, the blank line that ends it included; at least one |
| Protocol.ChatFrame | chat.go:91 | the broadcast frame: CHAT:, the room id in decimal, CLIENT_NAME:, the sender's name, MESSAGE:, the text, with no line break added |
| Protocol.JoinReply | chat.go:148-152 | the join reply: JOINED_CHATROOM, SERVER_IP, PORT, ROOM_REF and JOIN_ID lines, the ids in decimal |
| Protocol.LeaveReply | chat.go:183-184 | the leave reply: LEFT_CHATROOM and JOIN_ID lines carrying the references as the client sent them |
| Protocol.JoinedNotice | chat.go:154 | the text `<name> has joined this chatroom.` |
| Protocol.LeftNotice | chat.go:186 | the text `<name> has left this chatroom.`, also used by a disconnect (chat.go:262) |
| Protocol.LeaveEchoesJoinIds | chat.go:151-152 | the room and client ids of a join reply, sent back in a leave, parse to the same ids |
| Protocol.ChatKeepsFirstLineBreak | chat.go:215-225 | `MESSAGE:<p>`, a line `<w>` and a blank line give the text `<p>\n<w>` and take five reads |
| Strings.SkipSpace | chat.go:117 | the first non-whitespace position at or after the start, with only whitespace before it |
| Strings.SkipSpaceBack | chat.go:117 | the end of the text once the trailing whitespace is dropped |
| Strings.TrimSpace | chat.go:117 | the result neither starts nor ends with whitespace and is no longer than the input |
| Strings.SkipSpaceAt | chat.go:117 | the forward scan stops at the first non-space |
| Strings.SkipSpaceBackAt | chat.go:117 | the backward scan stops after the last non-space |
| Strings.TrimSpacePadded | chat.go:123 | trimming whitespace padding around a trimmed value returns that value |
| Strings.TrimSpaceEmpty | chat.go:220-221 | a line trims to nothing exactly when it is all whitespace |
| Strings.TrimSpaceIdempotent | chat.go:220 | trimming twice gives the same as trimming once |
| Strings.TrimPrefix | chat.go:116 | with the prefix present, prefix + result is the input; otherwise the input is returned unchanged |
| Strings.DigitChar | chat.go:91 | a digit value maps to a decimal digit character |
| Strings.Decimal | chat.go:91 | a non-empty run of digits with no leading zero |
| Strings.Itoa | chat.go:91 | a non-empty trimmed numeral, all digits exactly for non-negative numbers |
| Strings.HasPrefix | chat.go:101-108 | the text begins with the prefix |
| Strings.Numeral | chat.go:187-188 | the syntax Atoi accepts: an optional sign, then one or more decimal digits |
| Strings.ParseInt | chat.go:187-188 | a parse succeeds exactly on a numeral |
| Strings.ParseIntDigits | chat.go:187-188 | a run of digits parses to its decimal value with or without a leading '+', and to the negated value after a '-' |
| Strings.LeadingZeros | chat.go:187-188 | leading zeros do not change a numeral's value |
| Strings.Atoi | chat.go:187-188 | the result is a 64-bit value: 0 when the text is not a numeral, the parsed value when it fits, MaxInt64 or MinInt64 when it is too large or too small |
| Strings.DecimalValue | chat.go:91 | a numeral's value is the number it was printed from |
| Strings.AtoiItoa | chat.go:187-188 | Atoi reads back every 64-bit integer Itoa prints |
| Strings.ItoaInjective | chat.go:91 | different 64-bit ids never print alike |
| Server.ReadField | chat.go:119-126 | the command stays good exactly when it was good and the line starts with the tag; the value is the trimmed rest of the line then, and "" otherwise |
| Server.ReadJoinRoom | chat.go:114-145 | reads exactly what DecodeJoin describes |
| Server.ReadLeaveRoom | chat.go:159-182 | reads exactly what DecodeLeave describes |
| Server.ReadContinuation | chat.go:219-225 | the loop appends the trimmed lines up to the first blank one, and stops just after it |
| Server.ReadChat | chat.go:194-231 | reads exactly what DecodeChat describes |
| Server.ReadDisconnect | chat.go:237-260 | reads exactly what DecodeDisconnect describes |
| Server.NoticeBeforeLeaving | chat.go:264-268 | when rooms are visited in ascending order, the room being visited has not been left yet, so its notice is the one of the state before the loop |
| Server.ChatServer.constructor | chat.go:11-14 | no clients, no rooms, counters at 0, nothing written, invariant holds |
| Server.ChatServer.GetClientId | chat.go:40-54 | the new globals and the id are those of ResolveClient; nothing is written |
| Server.ChatServer.AddClientToRoom | chat.go:56-71 | the new globals and the room id are those of Registry.AddClientToRoom |
| Server.ChatServer.RemoveClientFromRoom | chat.go:73-75 | the globals become Registry.RemoveClientFromRoom of the old ones |
| Server.ChatServer.GetClientChatrooms | chat.go:77-86 | returns exactly the rooms that contain the client, each once, in ascending order |
| Server.ChatServer.SendMessageToChatroom | chat.go:88-98 | appends exactly the room's broadcast to the log and changes nothing else |
| Server.ChatServer.JoinRoom | chat.go:146-156 | does the join effect: registry, reply first, then the room broadcast |
| Server.ChatServer.LeaveRoom | chat.go:183-191 | does the leave effect, with Panicked when the room is missing |
| Server.ChatServer.PostChat | chat.go:232-234 | does the chat effect: the room broadcast only |
| Server.ChatServer.LeaveChatroom | chat.go:265-267 | appends one room's "has left" broadcast, then removes the client from that room |
| Server.ChatServer.LeaveChatrooms | chat.go:263-268 | the registry becomes LeaveRooms of the listed rooms, and the log gains their notices in order |
| Server.ChatServer.DropClient | chat.go:261-271 | does the disconnect effect: notices to every room of the client, then the client is in no room and unregistered |
| Server.ChatServer.HandleJoinRoom | chat.go:114-157 | consumes the lines DecodeJoin reads, returns its status, leaves the registry and log as Apply says, and keeps the invariant |
| Server.ChatServer.HandleLeaveRoom | chat.go:159-192 | consumes the lines DecodeLeave reads, returns its status, leaves the registry and log as Apply says, and keeps the invariant |
| Server.ChatServer.HandleChat | chat.go:194-235 | consumes the lines DecodeChat reads, returns its status, leaves the registry and log as Apply says, and keeps the invariant |
| Server.ChatServer.HandleDisconnect | chat.go:237-272 | consumes the lines DecodeDisconnect reads, returns its status, leaves the registry and log as Apply says, and keeps the invariant |
| Server.ChatServer.HandleDefault | chat.go:274-277 | an unknown command returns false (Rejected) |
| Server.ChatServer.HandleClient | chat.go:100-112 | the handler the tag selects runs; the result is Respond's effect, and the invariant is kept |

## Left out

- Network connections (`net.Conn`) are opaque ids. Every write is one entry in the log
  `written`. `Conn.Close` (chat.go:269) and the listener/accept loop are not part of this
  model.
- The input comes from a fresh `bufio.Reader` per handler, modelled as a sequence of whole
  lines read in order. Bytes a discarded reader had already buffered are not modelled. A read
  error is modelled as the empty line the handler then sees.
- `fmt.Println` logging (chat.go:96, 275) is left out. `fmt.Fprintf` is given the frame as
  its format string, so a `%` in a name or message would be interpreted. The model writes
  frames verbatim.
- `EXT_IP` and `PORT` are defined outside chat.go. They are a constant `Config` of the server.
- Concurrency is left out. Go runs one goroutine per connection over unsynchronised globals;
  the model runs one command at a time.
- Go's map iteration order is modelled as ascending ids. Contracts on broadcasts use
  multisets, so they do not depend on the order. Only the order of the per-room notices
  inside a disconnect is fixed by this choice.
- `int` counters are unbounded. The 64-bit overflow of `ClientID`/`RoomID` after 2^63 ids is
  not modelled.
- Strings are sequences of code points. Invalid UTF-8 input is not modelled.
- Server.ChatServer.HandleClient: like every server method, it requires `Valid()`. The
  constructor establishes it and every handler preserves it. States no sequence of commands
  can reach are not modelled.
- Registry.RemoveClientFromRoom: requires the room to exist. In Go, a missing room is a nil
  dereference; `LeaveRoom` checks for it first and reports `Panicked`, and what a panic does
  to the rest of the process is not modelled.
- Strings.Atoi: Go's `ParseInt` reports overflow as soon as the digits read so far exceed the
  range, before it looks at the rest of the text. So Go gives MaxInt64 for
  `99999999999999999999x`, where the model gives 0 for every text that is not a numeral.
  Neither value is a live room or client id, so the server behaves the same either way.
- Protocol.Encode: builds a list of lines, one element per line. It does not reproduce the
  byte stream a client writes, so a field or chat text containing `\n` is not split into
  further lines as `ReadString` would split it.
