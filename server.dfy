/**
 * The server as the Go program runs it: the globals ClientID, RoomID, Clients and Rooms
 * (chat.go:11-14) are fields of one object, every function of chat.go is a method that
 * updates them in place, and everything written to any connection is appended to one log.
 * Each method is proved to have exactly the effect the Registry, Broadcaster and
 * Dispatcher functions describe.
 */
module Server {
  import opened Options
  import opened Strings
  import opened Protocol
  import opened Registry
  import opened Broadcaster
  import opened Dispatcher

  // ---------------------------------------------------------------- reading a command's lines

  /*
   * Each handler wraps a fresh bufio.Reader around its connection and calls ReadString('\n')
   * on it. Here the connection is the sequence of lines still to come, and the reader is the
   * position `n` of the next ReadString in it (LineAt gives "" past the end).
   */

  /**
   * The block each handler repeats for every tagged line: read line `n` and, when the
   * command is still good and the line carries `tag`, take its trimmed value; otherwise the
   * command is marked bad and the value stays "".
   */
  method ReadField(input: seq<string>, n: nat, tag: string, ok: bool) returns (value: string, stillOk: bool)
    ensures stillOk == (ok && HasPrefix(LineAt(input, n), tag))
    ensures value == if stillOk then Value(LineAt(input, n), tag) else ""
  {
    var message := LineAt(input, n);
    value := "";
    stillOk := ok;
    if HasPrefix(message, tag) && stillOk {
      value := TrimPrefix(message, tag);
      value := TrimSpace(value);
    } else {
      stillOk := false;
    }
  }

  /** The reads of handleJoinRoom (chat.go:116-145): three lines. */
  method ReadJoinRoom(first: string, input: seq<string>) returns (d: Decoded)
    ensures d == DecodeJoin(first, input)
  {
    var chatRoom := TrimSpace(TrimPrefix(first, JoinTag));
    var clientIp, ok := ReadField(input, 0, ClientIpTag, true);
    var clientPort, clientName;
    clientPort, ok := ReadField(input, 1, PortTag, ok);
    clientName, ok := ReadField(input, 2, ClientNameTag, ok);
    d := Decoded(if ok then Some(Join(chatRoom, clientIp, clientPort, clientName)) else None, 3);
  }

  /** The reads of handleLeaveRoom (chat.go:161-182): two lines. */
  method ReadLeaveRoom(first: string, input: seq<string>) returns (d: Decoded)
    ensures d == DecodeLeave(first, input)
  {
    var roomRef := TrimSpace(TrimPrefix(first, LeaveTag));
    var joinId, ok := ReadField(input, 0, JoinIdTag, true);
    var clientName;
    clientName, ok := ReadField(input, 1, ClientNameTag, ok);
    d := Decoded(if ok then Some(Leave(roomRef, joinId, clientName)) else None, 2);
  }

  /**
   * The continuation of a chat message (chat.go:219-225), read from line `from` on: trimmed
   * lines are appended to `text` until one trims to nothing; `next` is the position after it.
   */
  method ReadContinuation(input: seq<string>, from: nat, payload: string) returns (text: string, next: nat)
    ensures text == payload + ContinuationText(input, from)
    ensures next == from + ContinuationLines(input, from)
  {
    text := payload;
    var message := LineAt(input, from);
    next := from + 1;
    message := TrimSpace(message);
    while message != ""
      invariant from < next
      invariant message == TrimSpace(LineAt(input, next - 1))
      invariant payload + ContinuationText(input, from) == text + ContinuationText(input, next - 1)
      invariant from + ContinuationLines(input, from) == next - 1 + ContinuationLines(input, next - 1)
      decreases |input| + 1 - next
    {
      ContinuationStep(input, next - 1);
      AppendAssociative(text, message, ContinuationText(input, next));
      text := text + message;
      message := LineAt(input, next);
      next := next + 1;
      message := TrimSpace(message);
    }
  }

  lemma AppendAssociative<T>(a: seq<T>, b: seq<T>, c: seq<T>)
    ensures a + (b + c) == (a + b) + c
  {
  }

  /**
   * The reads of handleChat (chat.go:196-231): three lines and, only when all three are
   * good, the continuation after the untrimmed MESSAGE payload.
   */
  method ReadChat(first: string, input: seq<string>) returns (d: Decoded)
    ensures d == DecodeChat(first, input)
  {
    var roomRef := TrimSpace(TrimPrefix(first, ChatTag));
    var joinId, ok := ReadField(input, 0, JoinIdTag, true);
    var clientName;
    clientName, ok := ReadField(input, 1, ClientNameTag, ok);
    var message := LineAt(input, 2);
    if HasPrefix(message, MessageTag) && ok {
      var text, next := ReadContinuation(input, 3, TrimPrefix(message, MessageTag));
      d := Decoded(Some(Chat(roomRef, joinId, clientName, text)), next);
      assert DecodeChat(first, input).request == Some(Chat(roomRef, joinId, clientName, text));
    } else {
      d := Decoded(None, 3);
      assert DecodeChat(first, input).request == None;
    }
  }

  /** The reads of handleDisconnect (chat.go:239-260): two lines. */
  method ReadDisconnect(first: string, input: seq<string>) returns (d: Decoded)
    ensures d == DecodeDisconnect(first, input)
  {
    var clientIp := TrimSpace(TrimPrefix(first, DisconnectTag));
    var clientPort, ok := ReadField(input, 0, PortTag, true);
    var clientName;
    clientName, ok := ReadField(input, 1, ClientNameTag, ok);
    d := Decoded(if ok then Some(Disconnect(clientIp, clientPort, clientName)) else None, 2);
  }

  // ---------------------------------------------------------------- the write log

  /**
   * The log went from `before` to `written` by `e`: first its replies in order, then exactly
   * the writes of its broadcasts in some order.
   */
  ghost predicate Logged(e: Effect, before: seq<Write>, written: seq<Write>)
  {
    var mark := |before| + |e.replies|;
    && mark <= |written|
    && written[..mark] == before + e.replies
    && multiset(written[mark..]) == e.notices
  }

  /** A command that writes nothing leaves the log as it was. */
  lemma LoggedNothing(e: Effect, w: seq<Write>)
    requires e.replies == [] && e.notices == multiset{}
    ensures Logged(e, w, w)
  {
    assert w[..|w|] == w + [];
  }

  /** Replies followed by broadcasts, in the order they were written. */
  lemma LoggedInOrder(e: Effect, w: seq<Write>, notices: seq<Write>)
    requires e.notices == multiset(notices)
    ensures Logged(e, w, w + e.replies + notices)
  {
    var all := w + e.replies + notices;
    assert all[..|w| + |e.replies|] == w + e.replies;
    assert all[|w| + |e.replies|..] == notices;
  }

  /**
   * handleDisconnect visits the rooms in ascending id order, so the room it visits has not
   * been left yet and its broadcast is the one of the state before the loop.
   */
  lemma NoticeBeforeLeaving(s: State, clientId: int, chatRooms: seq<int>, i: nat, name: string)
    requires Valid(s) && Ascending(chatRooms) && i < |chatRooms|
    requires forall j :: 0 <= j < |chatRooms| ==> chatRooms[j] in s.rooms
    ensures Broadcast(LeaveRooms(s, clientId, chatRooms[..i]), chatRooms[i], name, LeftNotice(name)) ==
      Broadcast(s, chatRooms[i], name, LeftNotice(name))
  {
    var roomId := chatRooms[i];
    assert roomId !in chatRooms[..i] by {
      forall j | 0 <= j < i ensures chatRooms[j] < roomId { }
    }
    LeaveRoomsRooms(s, clientId, chatRooms[..i], roomId);
    BroadcastLocal(LeaveRooms(s, clientId, chatRooms[..i]), s, roomId, name, LeftNotice(name));
  }

  class ChatServer {
    /** ClientID and RoomID: the last ids handed out. */
    var lastClientId: int
    var lastRoomId: int
    /** Clients and Rooms. */
    var clients: map<int, Client>
    var rooms: map<int, Room>
    /** Every write to every connection, in the order the server made them. */
    var written: seq<Write>
    /** EXT_IP and PORT. */
    const config: Config

    /** The four globals as a registry value. */
    function Snapshot(): State
      reads this`lastClientId, this`lastRoomId, this`clients, this`rooms
    {
      State(lastClientId, lastRoomId, clients, rooms)
    }

    ghost predicate Valid()
      reads this`lastClientId, this`lastRoomId, this`clients, this`rooms
    {
      Registry.Valid(Snapshot())
    }

    /**
     * Since the log stood at `before`, the server did `e`: the registry is `e.after`, the
     * replies were written first and in order, and then exactly the writes of `e.notices`.
     */
    ghost predicate Did(e: Effect, before: seq<Write>)
      reads this
    {
      Snapshot() == e.after && Logged(e, before, written)
    }

    /** The program's start: no clients, no rooms, nothing written. */
    constructor (config: Config)
      ensures Snapshot() == Initial && written == [] && this.config == config
      ensures Valid()
    {
      lastClientId := 0;
      lastRoomId := 0;
      clients := map[];
      rooms := map[];
      written := [];
      this.config := config;
      InitialValid();
    }

    // -------------------------------------------------------------- registry

    /** getClientID (chat.go:40-54). */
    method GetClientId(name: string, conn: ConnId) returns (id: int)
      requires Valid()
      modifies this`lastClientId, this`clients
      ensures (Snapshot(), id) == ResolveClient(old(Snapshot()), name, conn)
    {
      ghost var s := Snapshot();
      id := -1;
      var k := 1;
      while k <= lastClientId
        invariant 1 <= k <= lastClientId + 1
        invariant id == -1 ==> forall c :: c in clients && c < k ==> clients[c].name != name
        invariant id != -1 ==> id in clients && clients[id].name == name
      {
        if k in clients && clients[k].name == name {
          id := k;
        }
        k := k + 1;
      }
      if id == -1 {
        lastClientId := lastClientId + 1;
        id := lastClientId;
        clients := clients[id := Client(name, conn)];
      }
    }

    /** addClientToRoom (chat.go:56-71). */
    method AddClientToRoom(roomName: string, clientId: int) returns (roomId: int)
      requires Valid()
      modifies this`lastRoomId, this`rooms
      ensures (Snapshot(), roomId) == Registry.AddClientToRoom(old(Snapshot()), roomName, clientId)
    {
      ghost var s := Snapshot();
      roomId := -1;
      var k := 1;
      while k <= lastRoomId
        invariant 1 <= k <= lastRoomId + 1
        invariant roomId == -1 ==> forall r :: r in rooms && r < k ==> rooms[r].name != roomName
        invariant roomId != -1 ==> roomId in rooms && rooms[roomId].name == roomName
      {
        if rooms[k].name == roomName {
          roomId := k;
        }
        k := k + 1;
      }
      assert RoomNamed(rooms, roomName) == if roomId == -1 then None else Some(roomId);
      if roomId == -1 {
        lastRoomId := lastRoomId + 1;
        roomId := lastRoomId;
        rooms := rooms[roomId := Room(roomName, {})];
        assert rooms[roomId].members + {clientId} == {clientId};
        rooms := rooms[roomId := rooms[roomId].(members := rooms[roomId].members + {clientId})];
        assert rooms == s.rooms[roomId := Room(roomName, {clientId})] by {
          assert rooms.Keys == s.rooms.Keys + {roomId};
        }
        assert (Snapshot(), roomId) == Registry.AddClientToRoom(s, roomName, clientId);
      } else {
        rooms := rooms[roomId := rooms[roomId].(members := rooms[roomId].members + {clientId})];
        assert (Snapshot(), roomId) == Registry.AddClientToRoom(s, roomName, clientId);
      }
    }

    method RemoveClientFromRoom(clientId: int, roomId: int)
      requires roomId in rooms
      modifies this`rooms
      ensures Snapshot() == Registry.RemoveClientFromRoom(old(Snapshot()), clientId, roomId)
    {
      rooms := rooms[roomId := rooms[roomId].(members := rooms[roomId].members - {clientId})];
    }

    /** getClientChatrooms (chat.go:77-86): each room that has the client, once, in ascending id order. */
    method GetClientChatrooms(clientId: int) returns (chatRooms: seq<int>)
      requires Valid()
      ensures chatRooms == RoomsUpTo(Snapshot(), clientId, lastRoomId)
      ensures Ascending(chatRooms)
      ensures forall id :: id in chatRooms <==> id in rooms && clientId in rooms[id].members
    {
      chatRooms := [];
      var k := 1;
      while k <= lastRoomId
        invariant 1 <= k <= lastRoomId + 1
        invariant chatRooms == RoomsUpTo(Snapshot(), clientId, k - 1)
      {
        if clientId in rooms[k].members {
          chatRooms := chatRooms + [k];
        }
        k := k + 1;
      }
    }

    // -------------------------------------------------------------- broadcaster

    /**
     * sendMessageToChatroom (chat.go:88-98): the room's frame to the connection of each
     * member; nothing when the room does not exist.
     */
    method SendMessageToChatroom(roomId: int, name: string, message: string)
      requires Valid()
      modifies this`written
      ensures written == old(written) + Broadcast(Snapshot(), roomId, name, message)
    {
      if roomId in rooms {
        var frame := ChatTag + Itoa(roomId) + ClientNameTag + name + MessageTag + message;
        var members := rooms[roomId].members;
        MembersBounded(Snapshot(), roomId);
        assert MembersUpTo(members, lastClientId) == members;
        var k := 1;
        while k <= lastClientId
          invariant 1 <= k <= lastClientId + 1
          invariant written == old(written) + Fanout(clients, members, frame, k - 1)
        {
          if k in members {
            written := written + [Write(clients[k].conn, frame)];
          }
          k := k + 1;
        }
      }
    }

    // -------------------------------------------------------------- what a validated command does

    /** handleJoinRoom once its lines validated (chat.go:146-156): register, join, reply, announce. */
    method JoinRoom(req: Request, conn: ConnId)
      requires Valid() && req.Join?
      modifies this
      ensures Valid()
      ensures Did(Perform(old(Snapshot()), req, conn, config), old(written))
    {
      ghost var s, w := Snapshot(), written;
      var clientId := GetClientId(req.name, conn);
      var roomId := AddClientToRoom(req.room, clientId);
      ghost var s2 := Snapshot();
      var reply := Write(conn, JoinReply(req.room, config.serverIp, config.serverPort, roomId, clientId));
      written := written + [reply];
      SendMessageToChatroom(roomId, req.name, JoinedNotice(req.name));
      ghost var notices := Broadcast(s2, roomId, req.name, JoinedNotice(req.name));
      assert Perform(s, req, conn, config) == Effect(Accepted, s2, [reply], multiset(notices));
      LoggedInOrder(Perform(s, req, conn, config), w, notices);
    }

    /**
     * handleLeaveRoom once its lines validated (chat.go:183-190): reply, announce, then leave;
     * Go dereferences a nil room when the room does not exist, which ends as Panicked.
     */
    method LeaveRoom(req: Request, conn: ConnId) returns (status: Status)
      requires Valid() && req.Leave?
      modifies this
      ensures Valid()
      ensures var e := Perform(old(Snapshot()), req, conn, config);
        status == e.status && Did(e, old(written))
    {
      ghost var s, w := Snapshot(), written;
      var reply := Write(conn, LeaveReply(req.roomRef, req.joinId));
      written := written + [reply];
      var roomKey := Atoi(req.roomRef);
      var clientKey := Atoi(req.joinId);
      SendMessageToChatroom(roomKey, req.name, LeftNotice(req.name));
      LoggedInOrder(Perform(s, req, conn, config), w, Broadcast(s, roomKey, req.name, LeftNotice(req.name)));
      if roomKey !in rooms {
        return Panicked;
      }
      RemoveClientFromRoom(clientKey, roomKey);
      status := Accepted;
    }

    /** handleChat once its lines validated (chat.go:232-233): the text to the room. */
    method PostChat(req: Request, conn: ConnId)
      requires Valid() && req.Chat?
      modifies this`written
      ensures Valid()
      ensures Did(Perform(old(Snapshot()), req, conn, config), old(written))
    {
      ghost var s, w := Snapshot(), written;
      var roomKey := Atoi(req.roomRef);
      SendMessageToChatroom(roomKey, req.name, req.text);
      LoggedInOrder(Perform(s, req, conn, config), w, Broadcast(s, roomKey, req.name, req.text));
    }

    /** One turn of handleDisconnect's loop (chat.go:264-268): the notice to the room, then the client leaves it. */
    method LeaveChatroom(clientId: int, roomId: int, name: string)
      requires Valid() && roomId in rooms
      modifies this`rooms, this`written
      ensures Valid()
      ensures Snapshot() == Registry.RemoveClientFromRoom(old(Snapshot()), clientId, roomId)
      ensures written == old(written) + Broadcast(old(Snapshot()), roomId, name, LeftNotice(name))
    {
      SendMessageToChatroom(roomId, name, LeftNotice(name));
      RemoveClientFromRoom(clientId, roomId);
    }

    /**
     * The loop of handleDisconnect (chat.go:263-269): to each room of `chatRooms` in turn, a
     * "has left" notice, and then the client leaves it.
     */
    method LeaveChatrooms(clientId: int, chatRooms: seq<int>, name: string)
      requires Valid()
      requires Ascending(chatRooms)
      requires forall i :: 0 <= i < |chatRooms| ==> chatRooms[i] in rooms
      modifies this`rooms, this`written
      ensures Valid()
      ensures Snapshot() == LeaveRooms(old(Snapshot()), clientId, chatRooms)
      ensures written == old(written) + Notices(old(Snapshot()), chatRooms, name)
    {
      ghost var s1 := Snapshot();
      var i := 0;
      while i < |chatRooms|
        invariant 0 <= i <= |chatRooms| && Valid()
        invariant Snapshot() == LeaveRooms(s1, clientId, chatRooms[..i])
        invariant written == old(written) + Notices(s1, chatRooms[..i], name)
      {
        LeaveRoomsStep(s1, clientId, chatRooms, i);
        NoticeBeforeLeaving(s1, clientId, chatRooms, i, name);
        NoticesStep(s1, chatRooms, i, name);
        AppendAssociative(old(written), Notices(s1, chatRooms[..i], name), Broadcast(s1, chatRooms[i], name, LeftNotice(name)));
        LeaveChatroom(clientId, chatRooms[i], name);
        i := i + 1;
      }
      assert chatRooms[..i] == chatRooms;
    }

    /**
     * handleDisconnect once its lines validated (chat.go:261-270): a "has left" notice to each
     * room of the client, which then leaves it, and the client's record is dropped.
     */
    method DropClient(req: Request, conn: ConnId)
      requires Valid() && req.Disconnect?
      modifies this
      ensures Valid()
      ensures Did(Perform(old(Snapshot()), req, conn, config), old(written))
    {
      ghost var s, w := Snapshot(), written;
      var name := req.name;
      var clientId := GetClientId(name, conn);
      var chatRooms := GetClientChatrooms(clientId);
      ghost var s1 := Snapshot();
      LeaveChatrooms(clientId, chatRooms, name);
      clients := clients - {clientId};
      LeaveEveryRoom(s1, clientId);
      LoggedInOrder(Perform(s, req, conn, config), w, Notices(s1, chatRooms, name));
    }

    // -------------------------------------------------------------- handlers

    /**
     * handleJoinRoom (chat.go:114-157) on the command line `first`, with `input` the lines
     * that follow on `conn`; `consumed` is the number of them it reads.
     */
    method HandleJoinRoom(first: string, conn: ConnId, input: seq<string>) returns (status: Status, consumed: nat)
      requires Valid()
      modifies this
      ensures Valid()
      ensures consumed == DecodeJoin(first, input).consumed
      ensures var e := Apply(old(Snapshot()), DecodeJoin(first, input), conn, config);
        status == e.status && Did(e, old(written))
    {
      var d := ReadJoinRoom(first, input);
      consumed := d.consumed;
      if d.request.None? {
        LoggedNothing(Apply(Snapshot(), d, conn, config), written);
        return Rejected, consumed;
      }
      JoinRoom(d.request.value, conn);
      status := Accepted;
    }

    /** handleLeaveRoom (chat.go:159-192). */
    method HandleLeaveRoom(first: string, conn: ConnId, input: seq<string>) returns (status: Status, consumed: nat)
      requires Valid()
      modifies this
      ensures Valid()
      ensures consumed == DecodeLeave(first, input).consumed
      ensures var e := Apply(old(Snapshot()), DecodeLeave(first, input), conn, config);
        status == e.status && Did(e, old(written))
    {
      var d := ReadLeaveRoom(first, input);
      consumed := d.consumed;
      if d.request.None? {
        LoggedNothing(Apply(Snapshot(), d, conn, config), written);
        return Rejected, consumed;
      }
      status := LeaveRoom(d.request.value, conn);
    }

    /** handleChat (chat.go:194-235). */
    method HandleChat(first: string, conn: ConnId, input: seq<string>) returns (status: Status, consumed: nat)
      requires Valid()
      modifies this
      ensures Valid()
      ensures consumed == DecodeChat(first, input).consumed
      ensures var e := Apply(old(Snapshot()), DecodeChat(first, input), conn, config);
        status == e.status && Did(e, old(written))
    {
      var d := ReadChat(first, input);
      consumed := d.consumed;
      if d.request.None? {
        LoggedNothing(Apply(Snapshot(), d, conn, config), written);
        return Rejected, consumed;
      }
      PostChat(d.request.value, conn);
      status := Accepted;
    }

    /** handleDisconnect (chat.go:237-272). */
    method HandleDisconnect(first: string, conn: ConnId, input: seq<string>) returns (status: Status, consumed: nat)
      requires Valid()
      modifies this
      ensures Valid()
      ensures consumed == DecodeDisconnect(first, input).consumed
      ensures var e := Apply(old(Snapshot()), DecodeDisconnect(first, input), conn, config);
        status == e.status && Did(e, old(written))
    {
      var d := ReadDisconnect(first, input);
      consumed := d.consumed;
      if d.request.None? {
        LoggedNothing(Apply(Snapshot(), d, conn, config), written);
        return Rejected, consumed;
      }
      DropClient(d.request.value, conn);
      status := Accepted;
    }

    /** handleDefault (chat.go:274-277): an unknown command is refused. */
    method HandleDefault() returns (status: Status)
      ensures status == Rejected
    {
      status := Rejected;
    }

    /** handleClient (chat.go:100-112): the handler the command line's tag selects. */
    method HandleClient(first: string, conn: ConnId, input: seq<string>) returns (status: Status, consumed: nat)
      requires Valid()
      modifies this
      ensures Valid()
      ensures consumed == Decode(first, input).consumed
      ensures var e := Respond(old(Snapshot()), first, conn, input, config);
        status == e.status && Did(e, old(written))
    {
      if HasPrefix(first, JoinTag) {
        status, consumed := HandleJoinRoom(first, conn, input);
      } else if HasPrefix(first, LeaveTag) {
        status, consumed := HandleLeaveRoom(first, conn, input);
      } else if HasPrefix(first, ChatTag) {
        status, consumed := HandleChat(first, conn, input);
      } else if HasPrefix(first, DisconnectTag) {
        status, consumed := HandleDisconnect(first, conn, input);
      } else {
        status := HandleDefault();
        consumed := 0;
      }
    }
  }
}
