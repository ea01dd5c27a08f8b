/**
  The room index of a namespace: two maps that are kept inverse to each other, the events that
  report every change of the room map, and the rule that decides which sockets an operation targets.
 */
module RoomIndex {
  import opened Common

  type Room = string

  type SocketId = string

  /** The rooms each known socket has joined. */
  type Sids = map<SocketId, set<Room>>

  /** The members of each room. */
  type Rooms = map<Room, set<SocketId>>

  /** The rooms an operation is restricted to (none: every socket) and those it spares. */
  datatype Options = Options(rooms: set<Room>, except: set<Room>)

  datatype Event =
    | CreateRoom(room: Room)
    | JoinRoom(room: Room, id: SocketId)
    | LeaveRoom(room: Room, id: SocketId)
    | DeleteRoom(room: Room)

  // ---------- the two maps ----------

  predicate Joined(sids: Sids, id: SocketId, room: Room) {
    id in sids && room in sids[id]
  }

  predicate Lists(rooms: Rooms, room: Room, id: SocketId) {
    room in rooms && id in rooms[room]
  }

  /** A room lists exactly the sockets that list the room, and no stored room is empty. */
  ghost predicate Inverse(rooms: Rooms, sids: Sids) {
    && (forall room | room in rooms :: rooms[room] != {})
    && (forall room, id :: Lists(rooms, room, id) <==> Joined(sids, id, room))
  }

  /** The room map is a function of the socket map. */
  lemma InverseIsUnique(a: Rooms, b: Rooms, sids: Sids)
    requires Inverse(a, sids) && Inverse(b, sids)
    ensures a == b
  {
    forall room
      ensures room in a <==> room in b
      ensures room in a ==> a[room] == b[room]
    {
      if room in a { var id :| id in a[room]; assert Lists(a, room, id); assert Lists(b, room, id); }
      if room in b { var id :| id in b[room]; assert Lists(b, room, id); assert Lists(a, room, id); }
      if room in a {
        forall id ensures id in a[room] <==> id in b[room] {
          assert Lists(a, room, id) <==> Lists(b, room, id);
        }
      }
    }
  }

  // ---------- updates of the socket map ----------

  function RoomsOf(sids: Sids, id: SocketId): set<Room> {
    if id in sids then sids[id] else {}
  }

  function Added(sids: Sids, id: SocketId, rooms: set<Room>): Sids {
    sids[id := RoomsOf(sids, id) + rooms]
  }

  function Removed(sids: Sids, id: SocketId, rooms: set<Room>): Sids {
    if id in sids then sids[id := sids[id] - rooms] else sids
  }

  // ---------- events ----------

  /** The room map after one event; None when the event does not fit the map. */
  function ReplayStep(rooms: Rooms, e: Event): Option<Rooms> {
    match e
    case CreateRoom(r) => if r in rooms then None else Some(rooms[r := {}])
    case JoinRoom(r, id) =>
      if r !in rooms || id in rooms[r] then None else Some(rooms[r := rooms[r] + {id}])
    case LeaveRoom(r, id) =>
      if !Lists(rooms, r, id) then None else Some(rooms[r := rooms[r] - {id}])
    case DeleteRoom(r) =>
      if r !in rooms || rooms[r] != {} then None else Some(rooms - {r})
  }

  /** The room map a listener rebuilds from the events alone. */
  function Replay(trace: seq<Event>): Option<Rooms> {
    if trace == [] then Some(map[])
    else
      match Replay(trace[..|trace| - 1])
      case None => None
      case Some(rooms) => ReplayStep(rooms, trace[|trace| - 1])
  }

  lemma ReplaySnoc(trace: seq<Event>, e: Event)
    ensures Replay(trace + [e]) ==
            match Replay(trace) { case None => None case Some(rooms) => ReplayStep(rooms, e) }
  {
    assert (trace + [e])[..|trace|] == trace;
  }

  /** The create (true) and delete (false) events of one room, in order. */
  function Births(trace: seq<Event>, room: Room): seq<bool> {
    if trace == [] then []
    else
      var e := trace[|trace| - 1];
      Births(trace[..|trace| - 1], room) +
      (if e == CreateRoom(room) then [true] else if e == DeleteRoom(room) then [false] else [])
  }

  ghost predicate Alternating(bs: seq<bool>) {
    forall i | 0 <= i < |bs| :: bs[i] == (i % 2 == 0)
  }

  /** Create and delete strictly alternate for every room, and the room exists exactly between them. */
  lemma {:induction false} BirthsAlternate(trace: seq<Event>, room: Room)
    requires Replay(trace).Some?
    ensures Alternating(Births(trace, room))
    ensures room in Replay(trace).value <==> |Births(trace, room)| % 2 == 1
  {
    if trace != [] {
      BirthsAlternate(trace[..|trace| - 1], room);
    }
  }

  /** `after` goes on from `before` with events of one socket joining rooms of the given set. */
  ghost predicate JoinsOnly(before: seq<Event>, after: seq<Event>, id: SocketId, joining: set<Room>) {
    && before <= after
    && forall i | |before| <= i < |after| ::
         after[i].room in joining && (after[i] == CreateRoom(after[i].room) || after[i] == JoinRoom(after[i].room, id))
  }

  /** `after` goes on from `before` with events of one socket leaving rooms of the given set. */
  ghost predicate LeavesOnly(before: seq<Event>, after: seq<Event>, id: SocketId, leaving: set<Room>) {
    && before <= after
    && forall i | |before| <= i < |after| ::
         after[i].room in leaving && (after[i] == DeleteRoom(after[i].room) || after[i] == LeaveRoom(after[i].room, id))
  }

  // ---------- targeting ----------

  /** Whether a socket in `joined` is addressed by `opts`. */
  predicate Included(joined: set<Room>, opts: Options) {
    && (opts.rooms == {} || opts.rooms * joined != {})
    && opts.except * joined == {}
  }

  /** The registered sockets an operation addresses. */
  function Targets(sids: Sids, registered: set<SocketId>, opts: Options): set<SocketId> {
    set id | id in sids && id in registered && Included(sids[id], opts)
  }

  // ---------- bulk actions ----------

  /** What an operation does to each socket it visits. */
  datatype Action =
    | Deliver
    | Join(rooms: set<Room>)
    | Leave(leaving: seq<Room>)
    | Disconnect

  function ToSet(s: seq<Room>): set<Room> {
    set r | r in s
  }

  function Effect(joined: set<Room>, action: Action): set<Room> {
    match action
    case Join(rooms) => joined + rooms
    case Leave(leaving) => joined - ToSet(leaving)
    case _ => joined
  }

  /** The socket map after acting once on every socket of `ids`, all at the same time. */
  function ActedSids(sids: Sids, ids: set<SocketId>, action: Action): Sids {
    if action.Disconnect? then sids - ids
    else map id | id in sids :: if id in ids then Effect(sids[id], action) else sids[id]
  }

  function ActedRegistered(registered: set<SocketId>, ids: set<SocketId>, action: Action): set<SocketId> {
    if action.Disconnect? then registered - ids else registered
  }
}
