/**
 * The server's registry (chat.go:11-86): the id counters ClientID and RoomID and the maps
 * Clients and Rooms, as a value, with the effect of each registry operation as a function
 * of it. The server class keeps these four globals in fields and its methods are proved
 * to have exactly these effects.
 */
module Registry {
  import opened Options

  /** A client's transport connection (Go's net.Conn), as an opaque handle. */
  type ConnId = nat

  /** ChatClient (chat.go:16-19). */
  datatype Client = Client(name: string, conn: ConnId)

  /** ChatRoom (chat.go:21-24); its map[int]struct{} of member ids is a set. */
  datatype Room = Room(name: string, members: set<int>)

  /** The four globals (chat.go:11-14). The counters hold the last id handed out. */
  datatype State = State(lastClientId: int, lastRoomId: int, clients: map<int, Client>, rooms: map<int, Room>)

  /** The globals as the program starts. */
  const Initial: State := State(0, 0, map[], map[])

  /** Every room member is a registered client, so a broadcast finds a connection for each. */
  ghost predicate MembersRegistered(s: State)
  {
    forall id, m :: id in s.rooms && m in s.rooms[id].members ==> m in s.clients
  }

  /**
   * What the registry keeps true: ids are handed out from 1 upwards, rooms are never
   * deleted, names identify clients and rooms, and members are registered clients.
   */
  ghost predicate Valid(s: State)
  {
    && 0 <= s.lastClientId && 0 <= s.lastRoomId
    && (forall id :: id in s.clients ==> 1 <= id <= s.lastClientId)
    && (forall id :: id in s.rooms <==> 1 <= id <= s.lastRoomId)
    && (forall a, b :: a in s.clients && b in s.clients && s.clients[a].name == s.clients[b].name ==> a == b)
    && (forall a, b :: a in s.rooms && b in s.rooms && s.rooms[a].name == s.rooms[b].name ==> a == b)
    && MembersRegistered(s)
  }

  lemma InitialValid()
    ensures Valid(Initial)
  {
  }

  // ---------------------------------------------------------------- lookups by name

  /** The client registered under `name`, if any: the search loop of getClientID (chat.go:41-46). */
  ghost function ClientNamed(clients: map<int, Client>, name: string): (found: Option<int>)
    ensures found.Some? ==> found.value in clients && clients[found.value].name == name
    ensures found.None? ==> forall id :: id in clients ==> clients[id].name != name
  {
    if exists id :: id in clients && clients[id].name == name then
      Some(var id :| id in clients && clients[id].name == name; id)
    else
      None
  }

  /** The room called `name`, if any: the search loop of addClientToRoom (chat.go:57-62). */
  ghost function RoomNamed(rooms: map<int, Room>, name: string): (found: Option<int>)
    ensures found.Some? ==> found.value in rooms && rooms[found.value].name == name
    ensures found.None? ==> forall id :: id in rooms ==> rooms[id].name != name
  {
    if exists id :: id in rooms && rooms[id].name == name then
      Some(var id :| id in rooms && rooms[id].name == name; id)
    else
      None
  }

  // ---------------------------------------------------------------- operations

  /**
   * getClientID (chat.go:40-54): the id of the client called `name`. A known name keeps
   * its id, its record and its original connection; a new name gets the next id.
   */
  ghost function ResolveClient(s: State, name: string, conn: ConnId): (res: (State, int))
    ensures res.1 in res.0.clients && res.0.clients[res.1].name == name
    ensures res.0.rooms == s.rooms && res.0.lastRoomId == s.lastRoomId
    ensures (exists id :: id in s.clients && s.clients[id].name == name) ==> res.0 == s
    ensures (forall id :: id in s.clients ==> s.clients[id].name != name) ==>
      && res.1 == s.lastClientId + 1 == res.0.lastClientId
      && res.0.clients == s.clients[res.1 := Client(name, conn)]
    ensures Valid(s) ==> Valid(res.0)
  {
    match ClientNamed(s.clients, name)
    case Some(id) => (s, id)
    case None =>
      var id := s.lastClientId + 1;
      (s.(lastClientId := id, clients := s.clients[id := Client(name, conn)]), id)
  }

  /**
   * addClientToRoom (chat.go:56-71): the id of the room called `roomName`, created as the
   * next room id when there is none, now with `clientId` among its members. No other room
   * changes.
   */
  ghost function AddClientToRoom(s: State, roomName: string, clientId: int): (res: (State, int))
    ensures res.1 in res.0.rooms && res.0.rooms[res.1].name == roomName
    ensures res.0.rooms.Keys == s.rooms.Keys + {res.1}
    ensures forall id :: id in s.rooms && id != res.1 ==> res.0.rooms[id] == s.rooms[id]
    ensures res.0.clients == s.clients && res.0.lastClientId == s.lastClientId
    ensures (exists id :: id in s.rooms && s.rooms[id].name == roomName) ==>
      && res.1 in s.rooms && res.0.lastRoomId == s.lastRoomId
      && res.0.rooms[res.1].members == s.rooms[res.1].members + {clientId}
    ensures (forall id :: id in s.rooms ==> s.rooms[id].name != roomName) ==>
      && res.1 == s.lastRoomId + 1 == res.0.lastRoomId
      && res.0.rooms[res.1].members == {clientId}
    ensures Valid(s) && clientId in s.clients ==> Valid(res.0)
  {
    match RoomNamed(s.rooms, roomName)
    case Some(id) =>
      var room := s.rooms[id];
      (s.(rooms := s.rooms[id := room.(members := room.members + {clientId})]), id)
    case None =>
      var id := s.lastRoomId + 1;
      (s.(lastRoomId := id, rooms := s.rooms[id := Room(roomName, {clientId})]), id)
  }

  /** A name resolves once: asking again, from any connection, gives the same id and changes nothing. */
  lemma ResolveTwice(s: State, name: string, conn: ConnId, otherConn: ConnId)
    requires Valid(s)
    ensures var (s1, id) := ResolveClient(s, name, conn);
      ResolveClient(s1, name, otherConn) == (s1, id)
  {
    var (s1, id) := ResolveClient(s, name, conn);
    assert id in s1.clients && s1.clients[id].name == name;
  }

  /** Joining a room by a name already used gives the room of that name, and creates no room. */
  lemma AddTwiceSameRoom(s: State, roomName: string, clientId: int, otherId: int)
    requires Valid(s) && clientId in s.clients
    ensures var (s1, roomId) := AddClientToRoom(s, roomName, clientId);
      var (s2, roomId') := AddClientToRoom(s1, roomName, otherId);
      roomId' == roomId && s2.lastRoomId == s1.lastRoomId && clientId in s2.rooms[roomId].members
  {
    var (s1, roomId) := AddClientToRoom(s, roomName, clientId);
    assert roomId in s1.rooms && s1.rooms[roomId].name == roomName;
  }

  /**
   * removeClientFromRoom (chat.go:73-75): the room loses exactly `clientId`. The room must
   * exist: the Go code dereferences a nil room otherwise.
   */
  function RemoveClientFromRoom(s: State, clientId: int, roomId: int): (res: State)
    requires roomId in s.rooms
    ensures res.rooms.Keys == s.rooms.Keys
    ensures res.rooms[roomId].name == s.rooms[roomId].name
    ensures res.rooms[roomId].members == s.rooms[roomId].members - {clientId}
    ensures forall id :: id in s.rooms && id != roomId ==> res.rooms[id] == s.rooms[id]
    ensures res.clients == s.clients && res.lastClientId == s.lastClientId && res.lastRoomId == s.lastRoomId
    ensures clientId !in s.rooms[roomId].members ==> res == s
    ensures Valid(s) ==> Valid(res)
  {
    var room := s.rooms[roomId];
    assert clientId !in room.members ==> room.(members := room.members - {clientId}) == room;
    s.(rooms := s.rooms[roomId := room.(members := room.members - {clientId})])
  }

  /** The rooms that have `clientId` as a member (what getClientChatrooms collects, chat.go:77-86). */
  function RoomsOf(s: State, clientId: int): set<int>
  {
    set id | id in s.rooms && clientId in s.rooms[id].members
  }

  /**
   * The end state of handleDisconnect's removals (chat.go:263-270): `clientId` is a member of
   * no room and its record is gone; rooms themselves all stay.
   */
  function Disconnected(s: State, clientId: int): (res: State)
    ensures clientId !in res.clients && RoomsOf(res, clientId) == {}
    ensures res.clients == s.clients - {clientId}
    ensures res.lastClientId == s.lastClientId && res.lastRoomId == s.lastRoomId
    ensures res.rooms.Keys == s.rooms.Keys
    ensures forall id :: id in s.rooms ==>
      res.rooms[id].name == s.rooms[id].name && res.rooms[id].members == s.rooms[id].members - {clientId}
    ensures Valid(s) ==> Valid(res)
  {
    s.(clients := s.clients - {clientId},
       rooms := map id | id in s.rooms :: s.rooms[id].(members := s.rooms[id].members - {clientId}))
  }

  /** removeClientFromRoom applied to each room of `roomIds` in turn (the loop of chat.go:263-269). */
  function LeaveRooms(s: State, clientId: int, roomIds: seq<int>): (res: State)
    requires forall i :: 0 <= i < |roomIds| ==> roomIds[i] in s.rooms
    ensures res.rooms.Keys == s.rooms.Keys
    ensures res.clients == s.clients && res.lastClientId == s.lastClientId && res.lastRoomId == s.lastRoomId
    ensures Valid(s) ==> Valid(res)
  {
    if roomIds == [] then s
    else
      var last := |roomIds| - 1;
      RemoveClientFromRoom(LeaveRooms(s, clientId, roomIds[..last]), clientId, roomIds[last])
  }

  /** Leaving the rooms of a longer prefix is leaving one more room. */
  lemma LeaveRoomsStep(s: State, clientId: int, roomIds: seq<int>, i: nat)
    requires forall j :: 0 <= j < |roomIds| ==> roomIds[j] in s.rooms
    requires i < |roomIds|
    ensures LeaveRooms(s, clientId, roomIds[..i + 1]) ==
      RemoveClientFromRoom(LeaveRooms(s, clientId, roomIds[..i]), clientId, roomIds[i])
  {
    assert roomIds[..i + 1][..i] == roomIds[..i];
  }

  /** After LeaveRooms, exactly the listed rooms have lost `clientId`; the others are untouched. */
  lemma {:induction false} LeaveRoomsRooms(s: State, clientId: int, roomIds: seq<int>, k: int)
    requires forall i :: 0 <= i < |roomIds| ==> roomIds[i] in s.rooms
    requires k in s.rooms
    ensures LeaveRooms(s, clientId, roomIds).rooms[k] ==
      if k in roomIds then s.rooms[k].(members := s.rooms[k].members - {clientId}) else s.rooms[k]
  {
    if roomIds != [] {
      var last := |roomIds| - 1;
      LeaveRoomsRooms(s, clientId, roomIds[..last], k);
      assert k in roomIds <==> k in roomIds[..last] || k == roomIds[last];
      if k == roomIds[last] && k in roomIds[..last] {
        var m := s.rooms[k].members - {clientId};
        assert m - {clientId} == m;
      }
    }
  }

  /**
   * Leaving, one by one, every room the client is in and then dropping its record is the
   * state Disconnected describes.
   */
  lemma LeaveEveryRoom(s: State, clientId: int)
    requires Valid(s)
    ensures var roomIds := RoomsUpTo(s, clientId, s.lastRoomId);
      LeaveRooms(s, clientId, roomIds).(clients := s.clients - {clientId}) == Disconnected(s, clientId)
  {
    var roomIds := RoomsUpTo(s, clientId, s.lastRoomId);
    var left := LeaveRooms(s, clientId, roomIds);
    var gone := Disconnected(s, clientId);
    forall k | k in s.rooms
      ensures left.rooms[k] == gone.rooms[k]
    {
      LeaveRoomsRooms(s, clientId, roomIds, k);
      if k !in roomIds {
        assert s.rooms[k].members - {clientId} == s.rooms[k].members;
      }
    }
    assert left.rooms == gone.rooms;
  }

  /** The ids in `ids` strictly increase. */
  predicate Ascending(ids: seq<int>)
  {
    forall i, j :: 0 <= i < j < |ids| ==> ids[i] < ids[j]
  }

  /** The rooms with ids in 1..upTo that have `clientId` as a member, in ascending id order. */
  function RoomsUpTo(s: State, clientId: int, upTo: int): (ids: seq<int>)
    ensures Ascending(ids)
    ensures forall id :: id in ids <==> id in RoomsOf(s, clientId) && 1 <= id <= upTo
    ensures forall i :: 0 <= i < |ids| ==> ids[i] in s.rooms
    decreases upTo
  {
    if upTo < 1 then []
    else
      var below := RoomsUpTo(s, clientId, upTo - 1);
      assert forall x :: x in below ==> x < upTo;
      assert forall i :: 0 <= i < |below| ==> below[i] in below;
      if upTo in RoomsOf(s, clientId) then below + [upTo] else below
  }

  /** A client that is in no room has no rooms to list. */
  lemma {:induction false} RoomsUpToNone(s: State, clientId: int, upTo: int)
    requires RoomsOf(s, clientId) == {}
    ensures RoomsUpTo(s, clientId, upTo) == []
    decreases upTo
  {
    if upTo >= 1 {
      RoomsUpToNone(s, clientId, upTo - 1);
    }
  }
}
