/**
  The in-memory adapter: it updates both maps of the room index in place, and walks them to visit the
  sockets an operation targets, while the visits themselves change the index.
 */
module Adapter {
  import opened Common
  import opened RoomIndex

  class InMemoryAdapter {
    var rooms: Rooms
    var sids: Sids
    /** The sockets of the namespace, by id. */
    var registered: set<SocketId>
    /** The events emitted so far. */
    var trace: seq<Event>

    ghost predicate Valid()
      reads this
    {
      Inverse(rooms, sids) && Replay(trace) == Some(rooms)
    }

    constructor ()
      ensures Valid() && sids == map[] && rooms == map[] && registered == {} && trace == []
    {
      rooms, sids, registered, trace := map[], map[], {}, [];
    }

    method Emit(e: Event)
      requires Replay(trace).Some? && ReplayStep(Replay(trace).value, e).Some?
      modifies this`trace
      ensures trace == old(trace) + [e]
      ensures Replay(trace) == ReplayStep(Replay(old(trace)).value, e)
    {
      ReplaySnoc(trace, e);
      trace := trace + [e];
    }

    /** Adds a socket to a list of rooms. */
    method AddAll(id: SocketId, joining: set<Room>)
      requires Valid()
      modifies this`rooms, this`sids, this`trace
      ensures Valid()
      ensures sids == Added(old(sids), id, joining)
      ensures JoinsOnly(old(trace), trace, id, joining)
    {
      if id !in sids {
        sids := sids[id := {}];
      }
      var todo := joining;
      ghost var done: set<Room> := {};
      assert RoomsOf(sids, id) + done == RoomsOf(sids, id);
      while todo != {}
        invariant done + todo == joining && id in sids
        invariant Valid()
        invariant sids == Added(old(sids), id, done)
        invariant JoinsOnly(old(trace), trace, id, joining)
        decreases todo
      {
        var room :| room in todo;
        todo := todo - {room};
        ghost var before := sids;
        sids := sids[id := sids[id] + {room}];
        AddToRoom(room, id, before);
        AddedTwice(old(sids), id, done, {room});
        done := done + {room};
      }
    }

    /** Creates the room when it is missing and adds the socket to its members. */
    method AddToRoom(room: Room, id: SocketId, ghost before: Sids)
      requires Inverse(rooms, before) && Replay(trace) == Some(rooms)
      modifies this`rooms, this`trace
      ensures Inverse(rooms, Added(before, id, {room})) && Replay(trace) == Some(rooms)
      ensures JoinsOnly(old(trace), trace, id, {room})
    {
      InverseAfterAdd(rooms, before, id, room);
      if room !in rooms {
        rooms := rooms[room := {}];
        Emit(CreateRoom(room));
      }
      if id !in rooms[room] {
        rooms := rooms[room := rooms[room] + {id}];
        Emit(JoinRoom(room, id));
      }
      ghost var members := (if room in old(rooms) then old(rooms)[room] else {}) + {id};
      assert rooms[room] == members && rooms == old(rooms)[room := members];
    }

    /** Removes a socket from a room. */
    method Del(id: SocketId, room: Room)
      requires Valid()
      modifies this`rooms, this`sids, this`trace
      ensures Valid()
      ensures sids == Removed(old(sids), id, {room})
      ensures LeavesOnly(old(trace), trace, id, {room})
    {
      if id in sids {
        sids := sids[id := sids[id] - {room}];
      }
      DelFromRoom(room, id, old(sids));
    }

    /** Removes a socket from the members of a room, and the room when it was the last one. */
    method DelFromRoom(room: Room, id: SocketId, ghost before: Sids)
      requires Inverse(rooms, before) && Replay(trace) == Some(rooms)
      modifies this`rooms, this`trace
      ensures Inverse(rooms, Removed(before, id, {room})) && Replay(trace) == Some(rooms)
      ensures LeavesOnly(old(trace), trace, id, {room})
    {
      InverseAfterRemove(rooms, before, id, room);
      if room in rooms {
        if id in rooms[room] {
          rooms := rooms[room := rooms[room] - {id}];
          Emit(LeaveRoom(room, id));
        }
        if rooms[room] == {} {
          rooms := rooms - {room};
          Emit(DeleteRoom(room));
        }
      }
    }

    /** Removes a socket from all rooms it has joined. */
    method DelAll(id: SocketId)
      requires Valid()
      modifies this`rooms, this`sids, this`trace
      ensures Valid()
      ensures sids == old(sids) - {id}
      ensures LeavesOnly(old(trace), trace, id, RoomsOf(old(sids), id))
    {
      if id in sids {
        var todo := sids[id];
        assert sids[id := todo] == sids;
        while todo != {}
          invariant sids == old(sids)
          invariant Inverse(rooms, sids[id := todo]) && Replay(trace) == Some(rooms)
          invariant todo <= sids[id] && LeavesOnly(old(trace), trace, id, sids[id])
          decreases todo
        {
          var room :| room in todo;
          ghost var left := sids[id := todo];
          todo := todo - {room};
          assert Removed(left, id, {room}) == sids[id := todo];
          DelFromRoom(room, id, left);
        }
        InverseWithoutEmpty(rooms, sids, id);
        sids := sids - {id};
      }
    }

    // ---------- walking the index ----------

    /** The sockets that are in one of the given rooms. */
    method ComputeExceptSids(except: set<Room>) returns (spared: set<SocketId>)
      requires Valid()
      ensures forall id :: id in spared <==> id in sids && except * sids[id] != {}
    {
      spared := {};
      var todo := except;
      while todo != {}
        invariant todo <= except
        invariant forall id :: id in spared <==> id in sids && (except - todo) * sids[id] != {}
        decreases todo
      {
        var room :| room in todo;
        ghost var done := except - todo;
        todo := todo - {room};
        assert except - todo == done + {room};
        if room in rooms {
          spared := spared + rooms[room];
        }
        forall id ensures id in spared <==> id in sids && (done + {room}) * sids[id] != {} {
          assert Lists(rooms, room, id) <==> Joined(sids, id, room);
          if id in sids {
            assert (done + {room}) * sids[id] == done * sids[id] + {room} * sids[id];
            assert {room} * sids[id] == if room in sids[id] then {room} else {};
          }
        }
      }
    }

    /** The callback of a bulk operation, on one registered socket. */
    method Perform(id: SocketId, action: Action)
      requires Valid() && id in registered && id in sids
      modifies this
      ensures Valid()
      ensures sids == ActedSids(old(sids), {id}, action)
      ensures registered == ActedRegistered(old(registered), {id}, action)
      ensures Reported(old(trace), trace, action)
    {
      match action
      case Deliver =>
      case Join(joining) =>
        AddAll(id, joining);
      case Leave(leaving) =>
        assert sids[id] - ToSet(leaving[..0]) == sids[id];
        for i := 0 to |leaving|
          invariant Valid() && old(trace) <= trace
          invariant registered == old(registered)
          invariant sids == Removed(old(sids), id, ToSet(leaving[..i]))
        {
          Del(id, leaving[i]);
          RemovedTwice(old(sids), id, ToSet(leaving[..i]), {leaving[i]});
          assert ToSet(leaving[..i + 1]) == ToSet(leaving[..i]) + {leaving[i]};
        }
        assert leaving[..|leaving|] == leaving;
      case Disconnect =>
        DelAll(id);
        registered := registered - {id};
    }

    /**
      Visits the targeted sockets and acts on each. The index changes under the walk, yet the result is
      the one of a snapshot: every socket targeted at the start is acted on exactly once, no other is.
     */
    method Apply(opts: Options, action: Action) returns (visited: seq<SocketId>)
      requires Valid()
      modifies this
      ensures Valid() && Reported(old(trace), trace, action)
      ensures Distinct(visited)
      ensures (set id | id in visited) == Targets(old(sids), old(registered), opts)
      ensures sids == ActedSids(old(sids), Targets(old(sids), old(registered), opts), action)
      ensures registered == ActedRegistered(old(registered), Targets(old(sids), old(registered), opts), action)
    {
      var except := ComputeExceptSids(opts.except);
      if opts.rooms != {} {
        visited := WalkRooms(opts, except, action);
      } else {
        visited := WalkSids(opts, except, action);
      }
    }

    method WalkRooms(opts: Options, except: set<SocketId>, action: Action) returns (visited: seq<SocketId>)
      requires Valid() && opts.rooms != {}
      requires forall id :: id in except <==> id in sids && opts.except * sids[id] != {}
      modifies this
      ensures Valid() && Reported(old(trace), trace, action)
      ensures Distinct(visited)
      ensures (set id | id in visited) == Targets(old(sids), old(registered), opts)
      ensures sids == ActedSids(old(sids), Targets(old(sids), old(registered), opts), action)
      ensures registered == ActedRegistered(old(registered), Targets(old(sids), old(registered), opts), action)
    {
      ghost var start, reg := sids, registered;
      var ids: set<SocketId> := {};
      visited := [];
      assert sids == ActedSids(start, ids, action);
      var keys := opts.rooms;
      while keys != {}
        invariant keys <= opts.rooms
        invariant Walked(start, reg, opts, action, ids, visited) && Reported(old(trace), trace, action)
        invariant forall id | id in Targets(start, reg, opts) && id !in ids :: opts.rooms * start[id] <= keys
        decreases keys
      {
        var room :| room in keys;
        keys := keys - {room};
        assert forall id | id !in ids :: Lists(rooms, room, id) <==> Joined(start, id, room) by {
          forall id | id !in ids ensures Lists(rooms, room, id) <==> Joined(start, id, room) {
            assert Lists(rooms, room, id) <==> Joined(sids, id, room);
          }
        }
        if room in rooms {
          ids, visited := VisitMembers(opts, except, action, room, rooms[room], start, reg, ids, visited);
        }
      }
      assert ids == Targets(start, reg, opts);
    }

    /** Visits the members one room has when the walk reaches it, except those already visited. */
    method VisitMembers(opts: Options, except: set<SocketId>, action: Action, ghost room: Room,
                        snapshot: set<SocketId>, ghost start: Sids, ghost reg: set<SocketId>,
                        ids0: set<SocketId>, visited0: seq<SocketId>)
      returns (ids: set<SocketId>, visited: seq<SocketId>)
      requires Walked(start, reg, opts, action, ids0, visited0) && room in opts.rooms
      requires forall id :: id in except <==> id in start && opts.except * start[id] != {}
      requires forall id | id !in ids0 :: id in snapshot <==> Joined(start, id, room)
      modifies this
      ensures Walked(start, reg, opts, action, ids, visited) && Reported(old(trace), trace, action)
      ensures ids0 <= ids
      ensures forall id | id in Targets(start, reg, opts) && room in start[id] :: id in ids
    {
      ids, visited := ids0, visited0;
      var members := snapshot;
      while members != {}
        invariant Walked(start, reg, opts, action, ids, visited) && Reported(old(trace), trace, action)
        invariant ids0 <= ids && members <= snapshot
        invariant forall id | id in Targets(start, reg, opts) && room in start[id] :: id in ids || id in members
        decreases members
      {
        var id :| id in members;
        members := members - {id};
        if id in ids || id in except {
          continue;
        }
        if id in registered {
          assert room in opts.rooms * start[id];
          Perform(id, action);
          ActedTwice(start, reg, ids, {id}, action);
          DistinctSnoc(visited, id);
          ids := ids + {id};
          visited := visited + [id];
        }
      }
    }

    /** No room is given: the live socket map itself is walked, each key once. */
    method WalkSids(opts: Options, except: set<SocketId>, action: Action) returns (visited: seq<SocketId>)
      requires Valid() && opts.rooms == {}
      requires forall id :: id in except <==> id in sids && opts.except * sids[id] != {}
      modifies this
      ensures Valid() && Reported(old(trace), trace, action)
      ensures Distinct(visited)
      ensures (set id | id in visited) == Targets(old(sids), old(registered), opts)
      ensures sids == ActedSids(old(sids), Targets(old(sids), old(registered), opts), action)
      ensures registered == ActedRegistered(old(registered), Targets(old(sids), old(registered), opts), action)
    {
      ghost var start, reg := sids, registered;
      var ranged: set<SocketId> := {};
      ghost var ids: set<SocketId> := {};
      visited := [];
      assert sids == ActedSids(start, ids, action);
      while sids.Keys - ranged != {}
        invariant Walked(start, reg, opts, action, ids, visited) && Reported(old(trace), trace, action)
        invariant ids <= ranged <= start.Keys
        invariant forall id | id in Targets(start, reg, opts) && id in ranged :: id in ids
        decreases start.Keys - ranged
      {
        var id :| id in sids.Keys - ranged;
        ranged := ranged + {id};
        if id in except {
          continue;
        }
        if id in registered {
          assert id in Targets(start, reg, opts);
          Perform(id, action);
          ActedTwice(start, reg, ids, {id}, action);
          DistinctSnoc(visited, id);
          ids := ids + {id};
          visited := visited + [id];
        }
      }
      assert ids == Targets(start, reg, opts);
    }

    /** Half-way through a walk: exactly the visited sockets have been acted on. */
    ghost predicate Walked(start: Sids, reg: set<SocketId>, opts: Options, action: Action,
                           ids: set<SocketId>, visited: seq<SocketId>)
      reads this
    {
      && Valid()
      && ids <= Targets(start, reg, opts)
      && Distinct(visited)
      && (set id | id in visited) == ids
      && sids == ActedSids(start, ids, action)
      && registered == ActedRegistered(reg, ids, action)
    }

    /** Sends a packet to the targeted sockets: each gets one copy. The index is not changed. */
    method Broadcast(opts: Options) returns (written: seq<SocketId>)
      requires Valid()
      modifies this
      ensures Valid() && rooms == old(rooms) && sids == old(sids) && registered == old(registered)
      ensures trace == old(trace)
      ensures Distinct(written) && (set id | id in written) == Targets(sids, registered, opts)
    {
      written := Apply(opts, Deliver);
      InverseIsUnique(rooms, old(rooms), sids);
    }

    /** As Broadcast, and reports to the caller how many acknowledgements to expect. */
    method BroadcastWithAck(opts: Options) returns (written: seq<SocketId>, clientCount: nat)
      requires Valid()
      modifies this
      ensures Valid() && rooms == old(rooms) && sids == old(sids) && registered == old(registered)
      ensures trace == old(trace)
      ensures Distinct(written) && (set id | id in written) == Targets(sids, registered, opts)
      ensures clientCount == |Targets(sids, registered, opts)|
    {
      written := Broadcast(opts);
      clientCount := |written|;
      DistinctSize(written);
    }

    method AddSockets(opts: Options, joining: set<Room>)
      requires Valid()
      modifies this
      ensures Valid() && registered == old(registered)
      ensures sids == ActedSids(old(sids), Targets(old(sids), registered, opts), Join(joining))
    {
      var _ := Apply(opts, Join(joining));
    }

    method DelSockets(opts: Options, leaving: seq<Room>)
      requires Valid()
      modifies this
      ensures Valid() && registered == old(registered)
      ensures sids == ActedSids(old(sids), Targets(old(sids), registered, opts), Leave(leaving))
    {
      var _ := Apply(opts, Leave(leaving));
    }

    method DisconnectSockets(opts: Options)
      requires Valid()
      modifies this
      ensures Valid()
      ensures sids == old(sids) - Targets(old(sids), old(registered), opts)
      ensures registered == old(registered) - Targets(old(sids), old(registered), opts)
    {
      var _ := Apply(opts, Disconnect);
    }
  }

  /** An operation adds events to the trace; a mere delivery adds none. */
  ghost predicate Reported(before: seq<Event>, after: seq<Event>, action: Action) {
    before <= after && (action.Deliver? ==> after == before)
  }

  // ---------- lemmas ----------

  lemma InverseAfterAdd(rooms: Rooms, sids: Sids, id: SocketId, room: Room)
    requires Inverse(rooms, sids)
    ensures Inverse(rooms[room := (if room in rooms then rooms[room] else {}) + {id}], Added(sids, id, {room}))
  {
    var rooms' := rooms[room := (if room in rooms then rooms[room] else {}) + {id}];
    forall r, x ensures Lists(rooms', r, x) <==> Joined(Added(sids, id, {room}), x, r) {
      assert Lists(rooms, r, x) <==> Joined(sids, x, r);
    }
  }

  /** Taking one socket out of one room, and the room out of the map when nobody is left. */
  lemma InverseAfterRemove(rooms: Rooms, sids: Sids, id: SocketId, room: Room)
    requires Inverse(rooms, sids)
    ensures var left := if room in rooms then rooms[room] - {id} else {};
            Inverse(if left == {} then rooms - {room} else rooms[room := left], Removed(sids, id, {room}))
  {
    var left := if room in rooms then rooms[room] - {id} else {};
    var rooms' := if left == {} then rooms - {room} else rooms[room := left];
    forall r, x ensures Lists(rooms', r, x) <==> Joined(Removed(sids, id, {room}), x, r) {
      assert Lists(rooms, r, x) <==> Joined(sids, x, r);
    }
  }

  lemma InverseWithoutEmpty(rooms: Rooms, sids: Sids, id: SocketId)
    requires Inverse(rooms, sids[id := {}])
    ensures Inverse(rooms, sids - {id})
  {
    forall r, x ensures Lists(rooms, r, x) <==> Joined(sids - {id}, x, r) {
      assert Lists(rooms, r, x) <==> Joined(sids[id := {}], x, r);
    }
  }

  lemma AddedTwice(sids: Sids, id: SocketId, a: set<Room>, b: set<Room>)
    ensures Added(Added(sids, id, a), id, b) == Added(sids, id, a + b)
  {
    assert RoomsOf(sids, id) + a + b == RoomsOf(sids, id) + (a + b);
  }

  lemma RemovedTwice(sids: Sids, id: SocketId, a: set<Room>, b: set<Room>)
    ensures Removed(Removed(sids, id, a), id, b) == Removed(sids, id, a + b)
  {
    if id in sids {
      assert sids[id] - a - b == sids[id] - (a + b);
    }
  }

  /** Acting on two disjoint groups one after the other is acting on both at once. */
  lemma ActedTwice(sids: Sids, registered: set<SocketId>, a: set<SocketId>, b: set<SocketId>, action: Action)
    requires a !! b
    ensures ActedSids(ActedSids(sids, a, action), b, action) == ActedSids(sids, a + b, action)
    ensures ActedRegistered(ActedRegistered(registered, a, action), b, action) ==
            ActedRegistered(registered, a + b, action)
  {
  }
}
