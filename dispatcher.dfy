/**
 * What each command does to the registry and what it writes, once its lines are decoded
 * (chat.go:143-155, 180-191, 229-234, 258-271, 274-277). The server's handlers are proved
 * to have exactly these effects.
 */
module Dispatcher {
  import opened Options
  import opened Strings
  import opened Protocol
  import opened Registry
  import opened Broadcaster

  /**
   * How a handler ends: Accepted and Rejected are the `true` and `false` it returns;
   * Panicked is the nil-pointer dereference of a leave from a room that does not exist.
   */
  datatype Status = Accepted | Rejected | Panicked

  /** The server's own address and port, EXT_IP and PORT, which the join reply quotes. */
  datatype Config = Config(serverIp: string, serverPort: string)

  /**
   * The effect of one command: how it ends, the registry afterwards, the replies written to
   * the requesting connection (in order, before any broadcast) and the broadcast writes (in
   * any order).
   */
  datatype Effect = Effect(status: Status, after: State, replies: seq<Write>, notices: multiset<Write>)

  /** The effect of a command whose fields all validated. */
  ghost function Perform(s: State, req: Request, conn: ConnId, cfg: Config): (e: Effect)
    requires Valid(s)
    ensures Valid(e.after)
    ensures e.status != Rejected
    ensures e.status == Panicked <==> req.Leave? && Atoi(req.roomRef) !in s.rooms
    ensures req.Chat? ==> e.after == s && e.replies == []
  {
    match req
    case Join(room, _, _, name) => JoinEffect(s, room, name, conn, cfg)
    case Leave(roomRef, joinId, name) => LeaveEffect(s, roomRef, joinId, name, conn)
    case Chat(roomRef, _, name, text) => ChatEffect(s, roomRef, name, text)
    case Disconnect(_, _, name) => DisconnectEffect(s, name, conn)
  }

  /**
   * handleJoinRoom's work (chat.go:146-155): the client and the room are resolved or created,
   * the client joins, the reply names both ids, and the room hears that the client joined.
   */
  ghost function JoinEffect(s: State, room: string, name: string, conn: ConnId, cfg: Config): (e: Effect)
    requires Valid(s)
    ensures Valid(e.after) && e.status == Accepted
  {
    var (s1, clientId) := ResolveClient(s, name, conn);
    var (s2, roomId) := AddClientToRoom(s1, room, clientId);
    Effect(Accepted, s2,
           [Write(conn, JoinReply(room, cfg.serverIp, cfg.serverPort, roomId, clientId))],
           multiset(Broadcast(s2, roomId, name, JoinedNotice(name))))
  }

  /**
   * handleLeaveRoom's work (chat.go:183-190): the reply, the notice to the room while the
   * client is still in it, then the removal, which panics when the room does not exist.
   */
  ghost function LeaveEffect(s: State, roomRef: string, joinId: string, name: string, conn: ConnId): (e: Effect)
    requires Valid(s)
    ensures Valid(e.after)
    ensures e.status == (if Atoi(roomRef) in s.rooms then Accepted else Panicked)
    ensures e.replies == [Write(conn, LeaveReply(roomRef, joinId))]
    ensures e.status == Accepted ==> e.after == RemoveClientFromRoom(s, Atoi(joinId), Atoi(roomRef))
    ensures e.status == Panicked ==> e.after == s && e.notices == multiset{}
  {
    var roomId := Atoi(roomRef);
    var reply := [Write(conn, LeaveReply(roomRef, joinId))];
    var notices := multiset(Broadcast(s, roomId, name, LeftNotice(name)));
    if roomId in s.rooms then Effect(Accepted, RemoveClientFromRoom(s, Atoi(joinId), roomId), reply, notices)
    else Effect(Panicked, s, reply, notices)
  }

  /** handleChat's work (chat.go:232-233): the text to the room the reference names. */
  ghost function ChatEffect(s: State, roomRef: string, name: string, text: string): (e: Effect)
    requires Valid(s)
    ensures e.after == s && e.replies == [] && e.status == Accepted
    ensures Atoi(roomRef) !in s.rooms ==> e.notices == multiset{}
  {
    Effect(Accepted, s, [], multiset(Broadcast(s, Atoi(roomRef), name, text)))
  }

  /**
   * handleDisconnect's work (chat.go:261-270): the client is resolved (or created), each of its
   * rooms hears that it left, and it leaves them all and is dropped.
   */
  ghost function DisconnectEffect(s: State, name: string, conn: ConnId): (e: Effect)
    requires Valid(s)
    ensures Valid(e.after) && e.replies == [] && e.status == Accepted
  {
    var (s1, clientId) := ResolveClient(s, name, conn);
    Effect(Accepted, Disconnected(s1, clientId), [], multiset(Notices(s1, RoomsUpTo(s1, clientId, s1.lastRoomId), name)))
  }

  /** The effect of a decoded command: a rejected one changes nothing and writes nothing. */
  ghost function Apply(s: State, d: Decoded, conn: ConnId, cfg: Config): (e: Effect)
    requires Valid(s)
    ensures Valid(e.after)
    ensures e.status == Rejected <==> d.request.None?
    ensures e.status == Rejected ==> e.after == s && e.replies == [] && e.notices == multiset{}
  {
    match d.request
    case None => Effect(Rejected, s, [], multiset{})
    case Some(req) => Perform(s, req, conn, cfg)
  }

  /** handleClient(first, conn) with `input` the lines that follow on the connection. */
  ghost function Respond(s: State, first: string, conn: ConnId, input: seq<string>, cfg: Config): (e: Effect)
    requires Valid(s)
    ensures Valid(e.after)
    ensures Classify(first) == UnknownVerb ==> e == Effect(Rejected, s, [], multiset{})
  {
    Apply(s, Decode(first, input), conn, cfg)
  }

  // ---------------------------------------------------------------- what the commands promise

  /**
   * A join leaves the joiner a member of the room it asked for, replies with the ids of that
   * room and of the joiner, and the joiner's own connection hears its "has joined" notice.
   */
  lemma JoinerHearsOwnJoin(s: State, room: string, name: string, conn: ConnId, cfg: Config)
    requires Valid(s)
    ensures var e := JoinEffect(s, room, name, conn, cfg);
      exists roomId, clientId ::
        && roomId in e.after.rooms && e.after.rooms[roomId].name == room
        && clientId in e.after.clients && e.after.clients[clientId].name == name
        && clientId in e.after.rooms[roomId].members
        && e.replies == [Write(conn, JoinReply(room, cfg.serverIp, cfg.serverPort, roomId, clientId))]
        && Write(e.after.clients[clientId].conn, ChatFrame(roomId, name, JoinedNotice(name))) in e.notices
  {
    var (s1, clientId) := ResolveClient(s, name, conn);
    var (s2, roomId) := AddClientToRoom(s1, room, clientId);
    BroadcastReachesMembers(s2, roomId, name, JoinedNotice(name), clientId);
    var e := JoinEffect(s, room, name, conn, cfg);
    assert e.after == s2;
    assert e.replies == [Write(conn, JoinReply(room, cfg.serverIp, cfg.serverPort, roomId, clientId))];
    assert Write(e.after.clients[clientId].conn, ChatFrame(roomId, name, JoinedNotice(name))) in e.notices;
  }

  /**
   * A leave broadcasts before it removes, so a leaver that was a member of an existing room
   * hears its own "has left" notice; afterwards it is no longer a member.
   */
  lemma LeaverHearsOwnLeave(s: State, roomRef: string, joinId: string, name: string, conn: ConnId)
    requires Valid(s)
    requires Atoi(roomRef) in s.rooms && Atoi(joinId) in s.rooms[Atoi(roomRef)].members
    ensures var e := LeaveEffect(s, roomRef, joinId, name, conn);
      var roomId, clientId := Atoi(roomRef), Atoi(joinId);
      && e.status == Accepted
      && clientId in s.clients
      && Write(s.clients[clientId].conn, ChatFrame(roomId, name, LeftNotice(name))) in e.notices
      && roomId in e.after.rooms && clientId !in e.after.rooms[roomId].members
  {
    var roomId, clientId := Atoi(roomRef), Atoi(joinId);
    var notices := Broadcast(s, roomId, name, LeftNotice(name));
    MembersBounded(s, roomId);
    BroadcastReachesMembers(s, roomId, name, LeftNotice(name), clientId);
    assert Write(s.clients[clientId].conn, ChatFrame(roomId, name, LeftNotice(name))) in multiset(notices);
    var after := RemoveClientFromRoom(s, clientId, roomId);
    assert LeaveEffect(s, roomRef, joinId, name, conn) == Effect(Accepted, after, [Write(conn, LeaveReply(roomRef, joinId))], multiset(notices));
  }

  /** A chat reaches every current member of the room it names, on the member's own connection. */
  lemma ChatReachesMembers(s: State, roomRef: string, name: string, text: string, m: int)
    requires Valid(s) && Atoi(roomRef) in s.rooms && m in s.rooms[Atoi(roomRef)].members
    ensures m in s.clients
    ensures Write(s.clients[m].conn, ChatFrame(Atoi(roomRef), name, text)) in ChatEffect(s, roomRef, name, text).notices
  {
    BroadcastReachesMembers(s, Atoi(roomRef), name, text, m);
  }

  /**
   * A disconnect leaves no trace of the client: it is in no room and no longer registered, and
   * every member of every room it was in (itself included) hears its "has left" notice.
   */
  lemma DisconnectLeavesNoTrace(s: State, name: string, conn: ConnId)
    requires Valid(s)
    ensures var (s1, clientId) := ResolveClient(s, name, conn);
      var e := DisconnectEffect(s, name, conn);
      && clientId !in e.after.clients && RoomsOf(e.after, clientId) == {}
      && forall k, m :: k in RoomsOf(s1, clientId) && m in s1.rooms[k].members ==>
           m in s1.clients && Write(s1.clients[m].conn, ChatFrame(k, name, LeftNotice(name))) in e.notices
  {
    var (s1, clientId) := ResolveClient(s, name, conn);
    var roomIds := RoomsUpTo(s1, clientId, s1.lastRoomId);
    forall k, m | k in RoomsOf(s1, clientId) && m in s1.rooms[k].members
      ensures m in s1.clients && Write(s1.clients[m].conn, ChatFrame(k, name, LeftNotice(name))) in Notices(s1, roomIds, name)
    {
      NoticesReach(s1, roomIds, name, k, m);
    }
  }

  /**
   * A disconnect under a name nobody registered creates a client only to drop it again: the
   * registry ends as it was except that one client id has been used up, and nothing is written.
   */
  lemma DisconnectUnknownBurnsId(s: State, name: string, conn: ConnId)
    requires Valid(s)
    requires forall id :: id in s.clients ==> s.clients[id].name != name
    ensures var e := DisconnectEffect(s, name, conn);
      && e.after == s.(lastClientId := s.lastClientId + 1)
      && e.replies == [] && e.notices == multiset{}
  {
    var (s1, clientId) := ResolveClient(s, name, conn);
    assert clientId !in s.clients;
    forall id | id in s.rooms
      ensures clientId !in s.rooms[id].members
    {
      MembersBounded(s, id);
    }
    assert RoomsOf(s1, clientId) == {};
    RoomsUpToNone(s1, clientId, s1.lastRoomId);
    forall id | id in s.rooms
      ensures s.rooms[id].(members := s.rooms[id].members - {clientId}) == s.rooms[id]
    {
      assert s.rooms[id].members - {clientId} == s.rooms[id].members;
    }
    assert Disconnected(s1, clientId).clients == s.clients;
    assert Disconnected(s1, clientId).rooms == s.rooms;
  }

  /** A command that fails validation changes nothing and writes nothing. */
  lemma RejectedIsHarmless(s: State, first: string, conn: ConnId, input: seq<string>, cfg: Config)
    requires Valid(s) && Decode(first, input).request.None?
    ensures Respond(s, first, conn, input, cfg) == Effect(Rejected, s, [], multiset{})
  {
  }
}
