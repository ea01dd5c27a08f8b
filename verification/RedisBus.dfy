/**
  The Redis adapter of one server. Bulk requests go to every server, the sender included; a server that acts
  on one publishes a further message for every socket it changes, and those reach every server too. Broadcasts
  go to a channel named after one of their rooms, and servers that have no such room skip them.
 */
module RedisBus {
  import opened Common
  import opened RoomIndex
  import opened Adapter

  type Uid = string

  datatype Kind = RemoteJoin | RemoteLeave | RemoteDisconnect

  /** A message on the request channel: bulk requests have no `sid`, messages about one socket have no `opts`. */
  datatype Request = Request(kind: Kind, uid: Uid, sid: SocketId, opts: Options, rooms: seq<Room>)

  const NO_OPTIONS := Options({}, {})

  /** The id in a request that names no socket; no socket has it. */
  const NO_SOCKET: SocketId := ""

  /** What one server knows: its own sockets. */
  datatype Local = Local(uid: Uid, sids: Sids, registered: set<SocketId>)

  predicate CheckOpt(opts: Options) {
    opts.except != {} || opts.rooms != {}
  }

  function ActionOf(kind: Kind, rooms: seq<Room>): Action {
    match kind
    case RemoteJoin => Action.Join(ToSet(rooms))
    case RemoteLeave => Leave(rooms)
    case RemoteDisconnect => Disconnect
  }

  function LocalTargets(l: Local, opts: Options): set<SocketId> {
    Targets(l.sids, l.registered, opts)
  }

  function ActedOn(l: Local, ids: set<SocketId>, action: Action): Local {
    l.(sids := ActedSids(l.sids, ids, action), registered := ActedRegistered(l.registered, ids, action))
  }

  /** What the three operations mean for a server: its targets change, and nothing else does. */
  lemma OperationsMean(l: Local, opts: Options, rooms: seq<Room>)
    ensures var targets := LocalTargets(l, opts);
            var joined := ActedOn(l, targets, ActionOf(RemoteJoin, rooms));
            var parted := ActedOn(l, targets, ActionOf(RemoteLeave, rooms));
            var gone := ActedOn(l, targets, ActionOf(RemoteDisconnect, rooms));
            && joined.sids.Keys == parted.sids.Keys == l.sids.Keys && gone.sids.Keys == l.sids.Keys - targets
            && joined.registered == parted.registered == l.registered && gone.registered == l.registered - targets
            && (forall id, room | id in l.sids ::
                  && (Joined(joined.sids, id, room) <==> Joined(l.sids, id, room) || (id in targets && room in rooms))
                  && (Joined(parted.sids, id, room) <==> Joined(l.sids, id, room) && !(id in targets && room in rooms))
                  && (Joined(gone.sids, id, room) <==> Joined(l.sids, id, room) && id !in targets))
  {
  }

  datatype Work = Work(ids: set<SocketId>, kind: Kind, rooms: seq<Room>)

  /** What a server does about a message; None when it ignores it. `all` lists the rooms it knows. */
  function WorkFor(l: Local, m: Request, all: seq<Room>): Option<Work> {
    if CheckOpt(m.opts) then Some(Work(LocalTargets(l, m.opts), m.kind, m.rooms))
    else if m.sid !in l.registered then None
    else if m.kind == RemoteDisconnect then Some(Work({m.sid}, RemoteDisconnect, []))
    else if m.uid == l.uid then None
    else if m.kind == RemoteJoin then Some(Work(LocalTargets(l, Options({m.sid}, {})), RemoteJoin, m.rooms))
    else Some(Work(LocalTargets(l, m.opts), RemoteLeave, if m.rooms == [] then all else m.rooms))
  }

  /** The messages about one changed socket: one for a join, one for each room left, one for a disconnection. */
  function Announced(uid: Uid, kind: Kind, rooms: seq<Room>, id: SocketId): seq<Request> {
    match kind
    case RemoteJoin => [Request(RemoteJoin, uid, id, NO_OPTIONS, rooms)]
    case RemoteLeave =>
      seq(|rooms|, i requires 0 <= i < |rooms| => Request(RemoteLeave, uid, id, NO_OPTIONS, [rooms[i]]))
    case RemoteDisconnect => [Request(RemoteLeave, uid, id, NO_OPTIONS, [])]
  }

  function AllAnnounced(uid: Uid, kind: Kind, rooms: seq<Room>, order: seq<SocketId>): seq<Request> {
    if order == [] then []
    else
      var last := |order| - 1;
      AllAnnounced(uid, kind, rooms, order[..last]) + Announced(uid, kind, rooms, order[last])
  }

  ghost predicate Enumerates<T(!new)>(order: seq<T>, s: set<T>) {
    Distinct(order) && (set x | x in order) == s
  }

  lemma EnumeratesSnoc<T(!new)>(order: seq<T>, s: set<T>, x: T)
    requires Enumerates(order, s) && x !in s
    ensures Enumerates(order + [x], s + {x})
  {
    assert x !in order;
    DistinctSnoc(order, x);
    assert (set y | y in order + [x]) == (set y | y in order) + {x};
  }

  // ---------- broadcasts ----------

  type Data = string

  /** A message on a broadcast channel; `suffix` is what the name of the channel adds to the common prefix. */
  datatype Message = Message(uid: Uid, suffix: string, data: Data, opts: Options)

  /** The channel is named after one of the rooms, if there is any. */
  function SuffixOf(opts: Options, key: Room): string {
    if opts.rooms == {} then "" else key + "#"
  }

  ghost predicate RoomExists(sids: Sids, room: Room) {
    exists id :: Joined(sids, id, room)
  }

  ghost predicate Accepts(l: Local, m: Message) {
    && m.suffix != ""
    && (var room := m.suffix[..|m.suffix| - 1]; room == "" || RoomExists(l.sids, room))
    && m.uid != l.uid
  }

  /** The sockets a server hands a message to. */
  ghost function Written(l: Local, m: Message): set<SocketId> {
    if Accepts(l, m) then LocalTargets(l, m.opts) else {}
  }

  lemma RoomExistsIffListed(rooms: Rooms, sids: Sids, room: Room)
    requires Inverse(rooms, sids)
    ensures room in rooms <==> RoomExists(sids, room)
  {
    if room in rooms {
      var id :| id in rooms[room];
      assert Lists(rooms, room, id);
    }
    if id :| Joined(sids, id, room) {
      assert Lists(rooms, room, id);
    }
  }

  // ---------- bulk requests ----------

  /** The sockets a server visits for a message, in some order. */
  ghost predicate Visits(l: Local, m: Request, all: seq<Room>, order: seq<SocketId>) {
    var w := WorkFor(l, m, all);
    w.Some? ==> Enumerates(order, w.value.ids)
  }

  function AfterMessage(l: Local, m: Request, all: seq<Room>): Local {
    match WorkFor(l, m, all)
    case None => l
    case Some(w) => ActedOn(l, w.ids, ActionOf(w.kind, w.rooms))
  }

  function Published(l: Local, m: Request, all: seq<Room>, order: seq<SocketId>): seq<Request> {
    match WorkFor(l, m, all)
    case None => []
    case Some(w) => AllAnnounced(l.uid, w.kind, w.rooms, order)
  }

  /**
    The messages about the visited sockets: one of a kind for each socket, and for those that leave one for each room;
    a disconnection is announced as leaving all rooms.
   */
  lemma {:induction false} AnnouncedIff(uid: Uid, kind: Kind, rooms: seq<Room>, order: seq<SocketId>, m: Request)
    ensures m in AllAnnounced(uid, kind, rooms, order) <==>
            && m.uid == uid && m.sid in order && m.opts == NO_OPTIONS
            && (match kind
                case RemoteJoin => m.kind == RemoteJoin && m.rooms == rooms
                case RemoteLeave => m.kind == RemoteLeave && |m.rooms| == 1 && m.rooms[0] in rooms
                case RemoteDisconnect => m.kind == RemoteLeave && m.rooms == [])
    ensures |AllAnnounced(uid, kind, rooms, order)| == |order| * if kind == RemoteLeave then |rooms| else 1
  {
    if order != [] {
      var front, last := order[..|order| - 1], order[|order| - 1];
      AnnouncedIff(uid, kind, rooms, front, m);
      AnnouncedOfOne(uid, kind, rooms, last, m);
      assert m.sid in order <==> m.sid in front || m.sid == last;
    }
  }

  lemma AnnouncedOfOne(uid: Uid, kind: Kind, rooms: seq<Room>, id: SocketId, m: Request)
    ensures m in Announced(uid, kind, rooms, id) <==>
            && m.uid == uid && m.sid == id && m.opts == NO_OPTIONS
            && (match kind
                case RemoteJoin => m.kind == RemoteJoin && m.rooms == rooms
                case RemoteLeave => m.kind == RemoteLeave && |m.rooms| == 1 && m.rooms[0] in rooms
                case RemoteDisconnect => m.kind == RemoteLeave && m.rooms == [])
  {
    if kind == RemoteLeave && m.kind == RemoteLeave && |m.rooms| == 1 && m.rooms[0] in rooms {
      var i :| 0 <= i < |rooms| && rooms[i] == m.rooms[0];
      if m.uid == uid && m.sid == id && m.opts == NO_OPTIONS {
        assert Announced(uid, kind, rooms, id)[i] == m;
      }
    }
  }

  /**
    What a message about a single socket does to a server. One about a socket it does not have, or of its own, does
    nothing, but for disconnections. A join adds the rooms to everybody in the room of the socket's name; leaving,
    which comes without options, takes the rooms, or all of them when none is named, from every socket.
   */
  lemma SingleMessageMeans(l: Local, m: Request, all: seq<Room>)
    requires !CheckOpt(m.opts)
    ensures var after := AfterMessage(l, m, all);
            && (m.sid !in l.registered ==> after == l)
            && (m.sid in l.registered && m.kind == RemoteDisconnect ==>
                  && after.registered == l.registered - {m.sid} && after.sids == l.sids - {m.sid})
            && (m.uid == l.uid && m.kind != RemoteDisconnect ==> after == l)
            && (m.sid in l.registered && m.uid != l.uid && m.kind != RemoteDisconnect ==>
                  && after.registered == l.registered && after.sids.Keys == l.sids.Keys
                  && forall id, room | id in l.sids ::
                       Joined(after.sids, id, room) <==>
                       if m.kind == RemoteJoin
                       then Joined(l.sids, id, room) ||
                            (id in l.registered && Joined(l.sids, id, m.sid) && room in m.rooms)
                       else Joined(l.sids, id, room) &&
                            !(id in l.registered && room in (if m.rooms == [] then all else m.rooms)))
  {
  }

  class RedisAdapter {
    const uid: Uid
    const adapter: InMemoryAdapter

    ghost function State(): Local
      reads this, adapter
    {
      Local(uid, adapter.sids, adapter.registered)
    }

    constructor (uid: Uid, adapter: InMemoryAdapter)
      ensures this.uid == uid && this.adapter == adapter
    {
      this.uid, this.adapter := uid, adapter;
    }

    /** A bulk operation: it is only published, unless it was asked for locally. */
    method Bulk(kind: Kind, opts: Options, rooms: seq<Room>, local: bool)
      returns (published: seq<Request>, visited: seq<SocketId>)
      requires adapter.Valid()
      modifies adapter
      ensures adapter.Valid()
      ensures !local ==> State() == old(State()) && published == [Request(kind, uid, NO_SOCKET, opts, rooms)]
      ensures local ==> Enumerates(visited, LocalTargets(old(State()), opts))
      ensures local ==> State() == ActedOn(old(State()), LocalTargets(old(State()), opts), ActionOf(kind, rooms))
      ensures local ==> published == AllAnnounced(uid, kind, rooms, visited)
    {
      if local {
        visited := adapter.Apply(opts, ActionOf(kind, rooms));
        published := Announce(kind, rooms, visited);
        return;
      }
      return [Request(kind, uid, NO_SOCKET, opts, rooms)], [];
    }

    /** What the sockets publish through this adapter while they are visited. */
    method Announce(kind: Kind, rooms: seq<Room>, visited: seq<SocketId>) returns (published: seq<Request>)
      ensures published == AllAnnounced(uid, kind, rooms, visited)
    {
      published := [];
      for i := 0 to |visited|
        invariant published == AllAnnounced(uid, kind, rooms, visited[..i])
      {
        published := published + Announced(uid, kind, rooms, visited[i]);
        assert visited[..i + 1][..i] == visited[..i];
      }
      assert visited[..|visited|] == visited;
    }

    /** A message arrives on the request channel. */
    method OnRequest(m: Request) returns (published: seq<Request>, ghost all: seq<Room>, visited: seq<SocketId>)
      requires adapter.Valid()
      modifies adapter
      ensures adapter.Valid()
      ensures Enumerates(all, old(adapter.rooms).Keys)
      ensures Visits(old(State()), m, all, visited)
      ensures State() == AfterMessage(old(State()), m, all)
      ensures published == Published(old(State()), m, all, visited)
    {
      var known := ListRooms();
      all := known;
      published, visited := [], [];
      if CheckOpt(m.opts) {
        visited := adapter.Apply(m.opts, ActionOf(m.kind, m.rooms));
        published := Announce(m.kind, m.rooms, visited);
      } else if m.sid !in adapter.registered {
        return;
      } else if m.kind == RemoteDisconnect {
        adapter.DelAll(m.sid);
        adapter.registered := adapter.registered - {m.sid};
        visited := [m.sid];
        published := Announce(m.kind, [], visited);
      } else if m.uid == uid {
        return;
      } else if m.kind == RemoteJoin {
        visited := adapter.Apply(Options({m.sid}, {}), ActionOf(m.kind, m.rooms));
        published := Announce(m.kind, m.rooms, visited);
      } else {
        var leaving := m.rooms;
        if leaving == [] {
          leaving := known;
        }
        visited := adapter.Apply(m.opts, Leave(leaving));
        published := Announce(m.kind, leaving, visited);
      }
    }

    /** Publishes the packet, unless it is meant for local sockets only, and writes it to the local ones. */
    method Broadcast(data: Data, opts: Options, local: bool)
      returns (published: Option<Message>, written: seq<SocketId>, key: Room)
      requires adapter.Valid()
      modifies adapter
      ensures adapter.Valid() && State() == old(State()) && adapter.rooms == old(adapter.rooms)
      ensures opts.rooms != {} ==> key in opts.rooms
      ensures published == if local then None else Some(Message(uid, SuffixOf(opts, key), data, opts))
      ensures Enumerates(written, LocalTargets(State(), opts))
    {
      published, key := None, "";
      if opts.rooms != {} {
        key :| key in opts.rooms;
      }
      if !local {
        published := Some(Message(uid, SuffixOf(opts, key), data, opts));
      }
      written := adapter.Broadcast(opts);
    }

    /** A message arrives on a broadcast channel. */
    method OnMessage(m: Message) returns (written: seq<SocketId>)
      requires adapter.Valid()
      modifies adapter
      ensures adapter.Valid() && State() == old(State()) && adapter.rooms == old(adapter.rooms)
      ensures Enumerates(written, Written(State(), m))
    {
      written := [];
      if |m.suffix| < 1 {
        return;
      }
      var room := m.suffix[..|m.suffix| - 1];
      RoomExistsIffListed(adapter.rooms, adapter.sids, room);
      if room != "" && room !in adapter.rooms {
        return;
      }
      if m.uid == uid {
        return;
      }
      written := adapter.Broadcast(m.opts);
    }

    method ListRooms() returns (all: seq<Room>)
      ensures Enumerates(all, adapter.rooms.Keys)
    {
      all := [];
      var todo := adapter.rooms.Keys;
      while todo != {}
        invariant Enumerates(all, adapter.rooms.Keys - todo) && todo <= adapter.rooms.Keys
        decreases todo
      {
        var room :| room in todo;
        EnumeratesSnoc(all, adapter.rooms.Keys - todo, room);
        all := all + [room];
        todo := todo - {room};
        assert adapter.rooms.Keys - todo == adapter.rooms.Keys - (todo + {room}) + {room};
      }
    }
  }
}
