/**
 * sendMessageToChatroom (chat.go:88-98): one frame written to the connection of every member
 * of a room. Go visits the members in no fixed order; the model visits them in ascending
 * id order, and what the server promises is stated as the multiset of the writes.
 */
module Broadcaster {
  import opened Registry
  import opened Protocol

  /** One write of `data` to a connection. */
  datatype Write = Write(conn: ConnId, data: string)

  /** The members with ids in 1..upTo. */
  function MembersUpTo(members: set<int>, upTo: int): set<int>
  {
    set m | m in members && 1 <= m <= upTo
  }

  /** One `frame` to the connection of each member with an id in 1..upTo, in ascending id order. */
  function Fanout(clients: map<int, Client>, members: set<int>, frame: string, upTo: int): (out: seq<Write>)
    requires members <= clients.Keys
    ensures |out| == |MembersUpTo(members, upTo)|
    ensures forall i :: 0 <= i < |out| ==> out[i].data == frame
    decreases upTo
  {
    if upTo < 1 then
      assert MembersUpTo(members, upTo) == {};
      []
    else
      var before := Fanout(clients, members, frame, upTo - 1);
      if upTo in members then
        assert MembersUpTo(members, upTo) == MembersUpTo(members, upTo - 1) + {upTo};
        before + [Write(clients[upTo].conn, frame)]
      else
        assert MembersUpTo(members, upTo) == MembersUpTo(members, upTo - 1);
        before
  }

  /** Every member with an id in 1..upTo gets the frame on its connection. */
  lemma {:induction false} FanoutReaches(clients: map<int, Client>, members: set<int>, frame: string, upTo: int, m: int)
    requires members <= clients.Keys && m in members && 1 <= m <= upTo
    ensures Write(clients[m].conn, frame) in Fanout(clients, members, frame, upTo)
    decreases upTo
  {
    if m < upTo {
      FanoutReaches(clients, members, frame, upTo - 1, m);
    }
  }

  /** The members with ids in 1..upTo registered on connection `conn`. */
  function MembersOn(clients: map<int, Client>, members: set<int>, upTo: int, conn: ConnId): set<int>
  {
    set m | m in members && 1 <= m <= upTo && m in clients && clients[m].conn == conn
  }

  /**
   * Each connection gets the frame exactly once per member in range registered on it, so
   * with the frame fixed by Fanout's contract the writes are pinned down as a multiset.
   */
  lemma {:induction false} FanoutPerConnection(clients: map<int, Client>, members: set<int>, frame: string, upTo: int, conn: ConnId)
    requires members <= clients.Keys
    ensures multiset(Fanout(clients, members, frame, upTo))[Write(conn, frame)] == |MembersOn(clients, members, upTo, conn)|
    decreases upTo
  {
    if upTo < 1 {
      assert MembersOn(clients, members, upTo, conn) == {};
    } else {
      FanoutPerConnection(clients, members, frame, upTo - 1, conn);
      var before := Fanout(clients, members, frame, upTo - 1);
      if upTo in members {
        var w := Write(clients[upTo].conn, frame);
        assert Fanout(clients, members, frame, upTo) == before + [w];
        CountAppend(before, w, Write(conn, frame));
      } else {
        assert Fanout(clients, members, frame, upTo) == before;
      }
      MembersOnStep(clients, members, upTo, conn);
    }
  }

  /** Appending one element adds one occurrence of it and of nothing else. */
  lemma CountAppend<T>(a: seq<T>, w: T, x: T)
    ensures multiset(a + [w])[x] == multiset(a)[x] + if w == x then 1 else 0
  {
    assert multiset(a + [w]) == multiset(a) + multiset{w};
  }

  /** Raising the bound by one adds that id when it is a member registered on `conn`. */
  lemma MembersOnStep(clients: map<int, Client>, members: set<int>, upTo: int, conn: ConnId)
    requires members <= clients.Keys && upTo >= 1
    ensures |MembersOn(clients, members, upTo, conn)| == |MembersOn(clients, members, upTo - 1, conn)|
      + if upTo in members && clients[upTo].conn == conn then 1 else 0
  {
    var earlier := MembersOn(clients, members, upTo - 1, conn);
    if upTo in members && clients[upTo].conn == conn {
      assert MembersOn(clients, members, upTo, conn) == earlier + {upTo};
    } else {
      assert MembersOn(clients, members, upTo, conn) == earlier;
    }
  }

  /**
   * What sendMessageToChatroom(roomId, name, text) writes: nothing when the room does not exist,
   * otherwise the frame of that room once for each member.
   */
  function Broadcast(s: State, roomId: int, name: string, text: string): (out: seq<Write>)
    requires Valid(s)
    ensures roomId !in s.rooms ==> out == []
    ensures roomId in s.rooms ==> |out| == |s.rooms[roomId].members|
    ensures forall i :: 0 <= i < |out| ==> out[i].data == ChatFrame(roomId, name, text)
  {
    if roomId in s.rooms then
      var members := s.rooms[roomId].members;
      MembersBounded(s, roomId);
      assert MembersUpTo(members, s.lastClientId) == members;
      Fanout(s.clients, members, ChatFrame(roomId, name, text), s.lastClientId)
    else
      []
  }

  /** A broadcast depends only on the room it goes to and on the registered clients. */
  lemma BroadcastLocal(s: State, t: State, roomId: int, name: string, text: string)
    requires Valid(s) && Valid(t)
    requires s.clients == t.clients && s.lastClientId == t.lastClientId
    requires roomId in s.rooms <==> roomId in t.rooms
    requires roomId in s.rooms ==> s.rooms[roomId] == t.rooms[roomId]
    ensures Broadcast(s, roomId, name, text) == Broadcast(t, roomId, name, text)
  {
  }

  /** The members of a room are registered, so their ids lie in 1..lastClientId. */
  lemma MembersBounded(s: State, roomId: int)
    requires Valid(s) && roomId in s.rooms
    ensures s.rooms[roomId].members <= s.clients.Keys
    ensures forall m :: m in s.rooms[roomId].members ==> 1 <= m <= s.lastClientId
  {
    forall m | m in s.rooms[roomId].members
      ensures m in s.clients && 1 <= m <= s.lastClientId
    {
    }
  }

  /** A broadcast reaches every member of the room on the connection the registry holds for it. */
  lemma BroadcastReachesMembers(s: State, roomId: int, name: string, text: string, m: int)
    requires Valid(s) && roomId in s.rooms && m in s.rooms[roomId].members
    ensures Write(s.clients[m].conn, ChatFrame(roomId, name, text)) in Broadcast(s, roomId, name, text)
  {
    MembersBounded(s, roomId);
    FanoutReaches(s.clients, s.rooms[roomId].members, ChatFrame(roomId, name, text), s.lastClientId, m);
  }

  /** The members of a room registered on connection `conn`. */
  function Listeners(s: State, roomId: int, conn: ConnId): set<int>
    requires roomId in s.rooms
  {
    set m | m in s.rooms[roomId].members && m in s.clients && s.clients[m].conn == conn
  }

  /**
   * A broadcast writes the room's frame to each connection exactly as many times as the room
   * has members registered on it, and nothing to a room that does not exist.
   */
  lemma BroadcastPerConnection(s: State, roomId: int, name: string, text: string, conn: ConnId)
    requires Valid(s)
    ensures multiset(Broadcast(s, roomId, name, text))[Write(conn, ChatFrame(roomId, name, text))] ==
      if roomId in s.rooms then |Listeners(s, roomId, conn)| else 0
  {
    if roomId in s.rooms {
      var members := s.rooms[roomId].members;
      MembersBounded(s, roomId);
      assert MembersUpTo(members, s.lastClientId) == members;
      FanoutPerConnection(s.clients, members, ChatFrame(roomId, name, text), s.lastClientId, conn);
      assert MembersOn(s.clients, members, s.lastClientId, conn) == Listeners(s, roomId, conn);
    }
  }

  /**
   * The "has left" notices handleDisconnect broadcasts (chat.go:262-268): one broadcast to each
   * room of `roomIds`, in that order.
   */
  function Notices(s: State, roomIds: seq<int>, name: string): (out: seq<Write>)
    requires Valid(s)
  {
    if roomIds == [] then []
    else
      var last := |roomIds| - 1;
      Notices(s, roomIds[..last], name) + Broadcast(s, roomIds[last], name, LeftNotice(name))
  }

  /** One more room's notices follow the notices of the rooms before it. */
  lemma NoticesStep(s: State, roomIds: seq<int>, i: nat, name: string)
    requires Valid(s) && i < |roomIds|
    ensures Notices(s, roomIds[..i + 1], name) ==
      Notices(s, roomIds[..i], name) + Broadcast(s, roomIds[i], name, LeftNotice(name))
  {
    assert roomIds[..i + 1][..i] == roomIds[..i];
  }

  /** Every member of every listed room gets that room's notice. */
  lemma {:induction false} NoticesReach(s: State, roomIds: seq<int>, name: string, k: int, m: int)
    requires Valid(s) && k in roomIds && k in s.rooms && m in s.rooms[k].members
    ensures Write(s.clients[m].conn, ChatFrame(k, name, LeftNotice(name))) in Notices(s, roomIds, name)
  {
    var last := |roomIds| - 1;
    if roomIds[last] == k {
      BroadcastReachesMembers(s, k, name, LeftNotice(name), m);
    } else {
      assert k in roomIds[..last];
      NoticesReach(s, roomIds[..last], name, k, m);
    }
  }
}
