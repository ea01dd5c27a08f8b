/**
  The life of server-side sockets: middleware, connection to a namespace, rooms, and the three ways to close.
 */
module Lifecycle {
  import opened Common

  type SocketId = string

  type Room = string

  type Nsp = string

  type Client = nat

  /** The identity of a socket object; ids can be taken over by a restored socket. */
  type Ref = nat

  type Key = (Nsp, SocketId)

  datatype Socket = Socket(
    id: SocketId,
    nsp: Nsp,
    client: Client,
    connected: bool,
    canJoin: bool,
    /** Whether the socket was ever connected, and how often "disconnect" was emitted. */
    admitted: bool,
    disconnects: nat)

  function KeyOf(s: Socket): Key { (s.nsp, s.id) }

  /** Neither closed nor rejected. */
  predicate Alive(s: Socket) { s.connected || s.canJoin }

  predicate Pending(s: Socket) { !s.connected && s.canJoin }

  datatype State = State(
    sockets: map<Ref, Socket>,
    /** The sockets of each namespace, and those of each client by id and by namespace. */
    registered: map<Key, Ref>,
    ofClient: map<(Client, SocketId), Ref>,
    nspsOfClient: map<(Client, Nsp), Ref>,
    rooms: map<Key, set<Room>>,
    open: set<Client>,
    /** The ids whose socket was told to leave the room of its own name. */
    left: set<Key>)

  const EMPTY := State(map[], map[], map[], map[], map[], {}, {})

  // ---------- the operations ----------

  function RoomsAt(rooms: map<Key, set<Room>>, k: Key): set<Room> {
    if k in rooms then rooms[k] else {}
  }

  function AfterJoin(s: State, r: Ref, joining: set<Room>): State
    requires r in s.sockets
  {
    var k := KeyOf(s.sockets[r]);
    if s.sockets[r].canJoin then s.(rooms := s.rooms[k := RoomsAt(s.rooms, k) + joining]) else s
  }

  function AfterLeave(s: State, r: Ref, room: Room): State
    requires r in s.sockets
  {
    var k := KeyOf(s.sockets[r]);
    s.(rooms := if k in s.rooms then s.rooms[k := s.rooms[k] - {room}] else s.rooms,
       left := if room == s.sockets[r].id then s.left + {k} else s.left)
  }

  /** A new socket; a restored one is back in its rooms before the middleware runs. */
  function AfterCreate(s: State, r: Ref, client: Client, nsp: Nsp, id: SocketId, restored: Option<set<Room>>): State {
    var s1 := s.(sockets := s.sockets[r := Socket(id, nsp, client, false, true, false, 0)]);
    if restored.Some? && restored.value != {} then AfterJoin(s1, r, restored.value) else s1
  }

  function AfterConnect(s: State, r: Ref): State
    requires r in s.sockets
  {
    var x := s.sockets[r];
    var k := KeyOf(x);
    var s1 := s.(sockets := s.sockets[r := x.(connected := true, admitted := true)],
                 registered := s.registered[k := r], left := s.left - {k},
                 ofClient := s.ofClient[(x.client, x.id) := r],
                 nspsOfClient := s.nspsOfClient[(x.client, x.nsp) := r]);
    AfterJoin(s1, r, {x.id})
  }

  function AfterReject(s: State, r: Ref): State
    requires r in s.sockets
  {
    s.(sockets := s.sockets[r := s.sockets[r].(canJoin := false)], rooms := s.rooms - {KeyOf(s.sockets[r])})
  }

  /** The middleware is through with a socket. */
  function AfterMiddleware(s: State, r: Ref, error: bool): State
    requires r in s.sockets
  {
    if s.sockets[r].client !in s.open || error then AfterReject(s, r) else AfterConnect(s, r)
  }

  /** What a client forgets: the entry of the id, and that of the namespace of whatever socket had it. */
  function Forgotten(s: State, client: Client, id: SocketId): State {
    var k := (client, id);
    if k !in s.ofClient || s.ofClient[k] !in s.sockets then s
    else s.(ofClient := s.ofClient - {k}, nspsOfClient := s.nspsOfClient - {(client, s.sockets[s.ofClient[k]].nsp)})
  }

  /** A connected socket is closed: everything is removed by its id. */
  function AfterClose(s: State, r: Ref): State
    requires r in s.sockets
  {
    var x := s.sockets[r];
    if !x.connected then s
    else
      var s1 := AfterReject(s, r);
      var s2 := Forgotten(s1.(registered := s1.registered - {KeyOf(x)}), x.client, x.id);
      s2.(sockets := s2.sockets[r := ClosedSocket(x)])
  }

  // ---------- several sockets at once ----------

  function ClosedSocket(x: Socket): Socket {
    x.(connected := false, canJoin := false, disconnects := x.disconnects + 1)
  }

  function KeysOf(sockets: map<Ref, Socket>, rs: set<Ref>): set<Key> {
    set r | r in rs && r in sockets :: KeyOf(sockets[r])
  }

  function ClientKeysOf(sockets: map<Ref, Socket>, rs: set<Ref>): set<(Client, SocketId)> {
    set r | r in rs && r in sockets :: (sockets[r].client, sockets[r].id)
  }

  function NspKeysOf(sockets: map<Ref, Socket>, rs: set<Ref>): set<(Client, Nsp)> {
    set r | r in rs && r in sockets :: (sockets[r].client, sockets[r].nsp)
  }

  /** All the given sockets closed at the same time; everything is removed by their ids and namespaces. */
  function Shut(s: State, rs: set<Ref>): State {
    s.(sockets := map r | r in s.sockets :: if r in rs then ClosedSocket(s.sockets[r]) else s.sockets[r],
       registered := s.registered - KeysOf(s.sockets, rs),
       ofClient := s.ofClient - ClientKeysOf(s.sockets, rs),
       nspsOfClient := s.nspsOfClient - NspKeysOf(s.sockets, rs),
       rooms := s.rooms - KeysOf(s.sockets, rs))
  }

  /** The connected sockets that the map of a client leads to. */
  function EntriesOf(s: State, client: Client): set<Ref> {
    set k | k in s.ofClient && k.0 == client && s.ofClient[k] in s.sockets && s.sockets[s.ofClient[k]].connected ::
      s.ofClient[k]
  }

  /** The connected sockets of a client. */
  function SocketsOf(s: State, client: Client): set<Ref> {
    set r | r in s.sockets && s.sockets[r].connected && s.sockets[r].client == client
  }

  /** The connection of a client is gone: all sockets its map leads to are closed. */
  function AfterGone(s: State, client: Client): State {
    Shut(s.(open := s.open - {client}), EntriesOf(s, client))
  }

  function AfterDisconnect(s: State, r: Ref, close: bool): State
    requires r in s.sockets
  {
    if !s.sockets[r].connected then s
    else if close then AfterGone(s, s.sockets[r].client)
    else AfterClose(s, r)
  }

  // ---------- what holds ----------

  /** A connected socket is where it should be. */
  ghost predicate InPlace(s: State, r: Ref)
    requires r in s.sockets
  {
    var x := s.sockets[r];
    var k := KeyOf(x);
    && k in s.registered && s.registered[k] == r
    && (x.client, x.id) in s.ofClient && s.ofClient[(x.client, x.id)] == r
    && (x.client, x.nsp) in s.nspsOfClient && s.nspsOfClient[(x.client, x.nsp)] == r
    && (k in s.left || x.id in RoomsAt(s.rooms, k))
  }

  ghost predicate AllInPlace(s: State) {
    forall r | r in s.sockets && s.sockets[r].connected :: InPlace(s, r)
  }

  /** The maps lead to connected sockets only. */
  ghost predicate OnlyConnected(s: State) {
    && (forall k | k in s.registered ::
          s.registered[k] in s.sockets && s.sockets[s.registered[k]].connected &&
          KeyOf(s.sockets[s.registered[k]]) == k)
    && EntriesSound(s)
    && (forall k | k in s.nspsOfClient ::
          s.nspsOfClient[k] in s.sockets && s.sockets[s.nspsOfClient[k]].connected &&
          (s.sockets[s.nspsOfClient[k]].client, s.sockets[s.nspsOfClient[k]].nsp) == k)
  }

  /** The map of a client leads to connected sockets of that client, by their ids. */
  ghost predicate EntriesSound(s: State) {
    forall k | k in s.ofClient ::
      s.ofClient[k] in s.sockets && s.sockets[s.ofClient[k]].connected &&
      (s.sockets[s.ofClient[k]].client, s.sockets[s.ofClient[k]].id) == k
  }

  /** Only a socket that is neither closed nor rejected is in a room. */
  ghost predicate OnlyAliveInRooms(s: State) {
    forall k | k in s.rooms :: HasAlive(s, k)
  }

  ghost predicate HasAlive(s: State, k: Key) {
    exists r :: r in s.sockets && Alive(s.sockets[r]) && KeyOf(s.sockets[r]) == k
  }

  /** "disconnect" is emitted once by a socket that was connected and is not any more, and by no other. */
  ghost predicate DisconnectOnce(s: State) {
    forall r | r in s.sockets ::
      var x := s.sockets[r];
      && x.disconnects == (if x.admitted && !x.connected then 1 else 0)
      && (x.connected ==> x.admitted && x.canJoin) && (Pending(x) ==> !x.admitted)
  }

  ghost predicate OnlyOpenClients(s: State) {
    forall r | r in s.sockets && s.sockets[r].connected :: s.sockets[r].client in s.open
  }

  /** Sockets that live at the same time have different ids, and one client has one of them in a namespace. */
  ghost predicate Apart(s: State) {
    forall r, t | r in s.sockets && t in s.sockets && r != t && Alive(s.sockets[r]) && Alive(s.sockets[t]) ::
      && s.sockets[r].id != s.sockets[t].id
      && (s.sockets[r].client != s.sockets[t].client || s.sockets[r].nsp != s.sockets[t].nsp)
  }

  ghost predicate Core(s: State) {
    AllInPlace(s) && OnlyConnected(s) && OnlyAliveInRooms(s) && DisconnectOnce(s) && Apart(s)
  }

  ghost predicate Inv(s: State) {
    Core(s) && OnlyOpenClients(s)
  }

  /** The sockets of a server and the tables that lead to them. */
  class Server {
    var sockets: map<Ref, Socket>
    var registered: map<Key, Ref>
    var ofClient: map<(Client, SocketId), Ref>
    var nspsOfClient: map<(Client, Nsp), Ref>
    var rooms: map<Key, set<Room>>
    var open: set<Client>
    ghost var left: set<Key>

    ghost function Abs(): State
      reads this
    {
      State(sockets, registered, ofClient, nspsOfClient, rooms, open, left)
    }

    constructor ()
      ensures Abs() == EMPTY
    {
      sockets, registered, ofClient, nspsOfClient, rooms, open, left := map[], map[], map[], map[], map[], {}, {};
    }

    method Add(r: Ref, client: Client, nsp: Nsp, id: SocketId, restored: Option<set<Room>>, skipMiddlewares: bool)
      requires r !in sockets
      modifies this
      ensures var s1 := AfterCreate(old(Abs()), r, client, nsp, id, restored);
              Abs() == if skipMiddlewares && restored.Some? && client in s1.open then AfterConnect(s1, r) else s1
    {
      sockets := sockets[r := Socket(id, nsp, client, false, true, false, 0)];
      if restored.Some? && restored.value != {} {
        JoinRooms(r, restored.value);
      }
      if skipMiddlewares && restored.Some? && client in open {
        DoConnect(r);
      }
    }

    method OnMiddleware(r: Ref, error: bool)
      requires r in sockets
      modifies this
      ensures Abs() == AfterMiddleware(old(Abs()), r, error)
    {
      if sockets[r].client !in open || error {
        Cleanup(r);
      } else {
        DoConnect(r);
      }
    }

    method DoConnect(r: Ref)
      requires r in sockets
      modifies this
      ensures Abs() == AfterConnect(old(Abs()), r)
    {
      var x := sockets[r];
      registered := registered[KeyOf(x) := r];
      sockets := sockets[r := x.(connected := true, admitted := true)];
      left := left - {KeyOf(x)};
      JoinRooms(r, {x.id});
      ofClient := ofClient[(x.client, x.id) := r];
      nspsOfClient := nspsOfClient[(x.client, x.nsp) := r];
    }

    method JoinRooms(r: Ref, joining: set<Room>)
      requires r in sockets
      modifies this
      ensures Abs() == AfterJoin(old(Abs()), r, joining)
    {
      if !sockets[r].canJoin {
        return;
      }
      var k := KeyOf(sockets[r]);
      rooms := rooms[k := RoomsAt(rooms, k) + joining];
    }

    method LeaveRoom(r: Ref, room: Room)
      requires r in sockets
      modifies this
      ensures Abs() == AfterLeave(old(Abs()), r, room)
    {
      var k := KeyOf(sockets[r]);
      if k in rooms {
        rooms := rooms[k := rooms[k] - {room}];
      }
      if room == sockets[r].id {
        left := left + {k};
      }
    }

    /** The socket leaves all rooms and cannot join any more. */
    method Cleanup(r: Ref)
      requires r in sockets
      modifies this
      ensures Abs() == AfterReject(old(Abs()), r)
    {
      rooms := rooms - {KeyOf(sockets[r])};
      sockets := sockets[r := sockets[r].(canJoin := false)];
    }

    method ClientRemove(client: Client, id: SocketId)
      modifies this
      ensures Abs() == Forgotten(old(Abs()), client, id)
    {
      if (client, id) in ofClient && ofClient[(client, id)] in sockets {
        var nsp := sockets[ofClient[(client, id)]].nsp;
        ofClient := ofClient - {(client, id)};
        nspsOfClient := nspsOfClient - {(client, nsp)};
      }
    }

    method OnClose(r: Ref)
      requires r in sockets
      modifies this
      ensures Abs() == AfterClose(old(Abs()), r)
    {
      if !sockets[r].connected {
        return;
      }
      var x := sockets[r];
      Cleanup(r);
      registered := registered - {KeyOf(x)};
      ClientRemove(x.client, x.id);
      sockets := sockets[r := ClosedSocket(x)];
    }

    /** Closes the sockets of a client one after the other, while each takes itself out of the map being walked. */
    method CloseSockets(client: Client)
      requires EntriesSound(Abs())
      modifies this
      ensures Abs() == Shut(old(Abs()), EntriesOf(old(Abs()), client)) && EntriesSound(Abs())
    {
      ghost var s0, closed := Abs(), {};
      ShutNone(s0);
      while exists k :: k in ofClient && k.0 == client
        invariant closed <= EntriesOf(s0, client) && Abs() == Shut(s0, closed) && EntriesSound(Abs())
        decreases ofClient.Keys
      {
        var k :| k in ofClient && k.0 == client;
        ghost var r := ofClient[k];
        CloseEntry(k);
        NextEntry(s0, closed, k, client);
        ShutTwice(s0, closed, {r});
        closed := closed + {r};
      }
      AllClosed(s0, closed, client);
    }

    method CloseEntry(k: (Client, SocketId))
      requires EntriesSound(Abs()) && k in ofClient
      modifies this
      ensures Abs() == Shut(old(Abs()), {old(ofClient)[k]}) && EntriesSound(Abs())
      ensures ofClient.Keys < old(ofClient.Keys)
    {
      var r := ofClient[k];
      CloseIsShut(Abs(), r);
      ShutKeepsEntries(Abs(), {r});
      OnClose(r);
      assert k in old(ofClient) && k !in ofClient;
      assert ofClient - {k} == ofClient;
      ofClient := ofClient - {k};
    }

    /** The connection of a client is closed, by the transport or by the server. */
    method ClientOnClose(client: Client)
      requires EntriesSound(Abs())
      modifies this
      ensures Abs() == AfterGone(old(Abs()), client)
    {
      open := open - {client};
      CloseSockets(client);
    }

    method ClientDisconnect(client: Client)
      requires EntriesSound(Abs())
      modifies this
      ensures Abs() == AfterGone(old(Abs()), client)
    {
      ghost var s0 := Abs();
      CloseSockets(client);
      NobodyLeft(s0, client);
      if client in open {
        ClientOnClose(client);
      }
    }

    method Disconnect(r: Ref, close: bool)
      requires EntriesSound(Abs()) && r in sockets
      modifies this
      ensures Abs() == AfterDisconnect(old(Abs()), r, close)
    {
      if !sockets[r].connected {
        return;
      }
      if close {
        ClientDisconnect(sockets[r].client);
      } else {
        OnClose(r);
      }
    }
  }

  // ---------- runs ----------

  datatype Event =
    | Arrive(ref: Ref, client: Client, nsp: Nsp, id: SocketId, restored: Option<set<Room>>, skipMiddlewares: bool)
    | Middleware(ref: Ref, error: bool)
    | Join(ref: Ref, rooms: set<Room>)
    | Leave(ref: Ref, room: Room)
    | Close(ref: Ref)
    | Disconnect(ref: Ref, close: bool)
    | Open(client: Client)
    | Gone(client: Client)

  /** The client does not connect twice at once to a namespace, and no socket in use has the id. */
  ghost predicate Free(s: State, client: Client, nsp: Nsp, id: SocketId) {
    forall t | t in s.sockets && Alive(s.sockets[t]) ::
      s.sockets[t].id != id && (s.sockets[t].client != client || s.sockets[t].nsp != nsp)
  }

  /** What the code does about an event, whatever the state. */
  ghost function Handled(s: State, e: Event): Option<State> {
    match e
    case Arrive(r, client, nsp, id, restored, skip) =>
      if r in s.sockets then None
      else
        var s1 := AfterCreate(s, r, client, nsp, id, restored);
        Some(if skip && restored.Some? && client in s.open then AfterConnect(s1, r) else s1)
    case Middleware(r, error) =>
      if r in s.sockets && Pending(s.sockets[r]) then Some(AfterMiddleware(s, r, error)) else None
    case Join(r, rooms) => if r in s.sockets then Some(AfterJoin(s, r, rooms)) else None
    case Leave(r, room) => if r in s.sockets then Some(AfterLeave(s, r, room)) else None
    case Close(r) => if r in s.sockets then Some(AfterClose(s, r)) else None
    case Disconnect(r, close) => if r in s.sockets then Some(AfterDisconnect(s, r, close)) else None
    case Open(client) => Some(s.(open := s.open + {client}))
    case Gone(client) => Some(AfterGone(s, client))
  }

  /** The events of an orderly run: sockets arrive one at a time and with ids that are not in use. */
  ghost function Next(s: State, e: Event): Option<State> {
    if e.Arrive? && !Free(s, e.client, e.nsp, e.id) then None else Handled(s, e)
  }

  ghost function Run(events: seq<Event>): Option<State> {
    if events == [] then Some(EMPTY)
    else match Run(events[..|events| - 1]) case None => None case Some(s) => Next(s, events[|events| - 1])
  }

  /** Whatever happens, every socket is where it should be, and a closed or rejected one is nowhere. */
  lemma {:induction false} LifecycleIsSafe(events: seq<Event>)
    requires Run(events).Some?
    ensures Inv(Run(events).value)
  {
    if events != [] {
      var front, e := events[..|events| - 1], events[|events| - 1];
      LifecycleIsSafe(front);
      StepKeeps(Run(front).value, e);
    }
  }

  lemma StepKeeps(s: State, e: Event)
    requires Inv(s) && Next(s, e).Some?
    ensures Inv(Next(s, e).value)
  {
    match e
    case Arrive(r, client, nsp, id, restored, skip) =>
      CreateKeeps(s, r, client, nsp, id, restored);
      if skip && restored.Some? && client in s.open {
        ConnectKeeps(AfterCreate(s, r, client, nsp, id, restored), r);
      }
    case Middleware(r, error) => MiddlewareKeeps(s, r, error);
    case Join(r, rooms) => JoinKeeps(s, r, rooms);
    case Leave(r, room) => LeaveKeeps(s, r, room);
    case Close(r) => CloseKeeps(s, r);
    case Disconnect(r, close) => DisconnectKeeps(s, r, close);
    case Open(client) => OpenMatters(s, s.(open := s.open + {client}));
    case Gone(client) => GoneKeeps(s, client);
  }

  lemma MiddlewareKeeps(s: State, r: Ref, error: bool)
    requires Inv(s) && r in s.sockets && Pending(s.sockets[r])
    ensures Inv(AfterMiddleware(s, r, error))
  {
    if s.sockets[r].client !in s.open || error {
      RejectKeeps(s, r);
    } else {
      ConnectKeeps(s, r);
    }
  }

  lemma DisconnectKeeps(s: State, r: Ref, close: bool)
    requires Inv(s) && r in s.sockets
    ensures Inv(AfterDisconnect(s, r, close))
  {
    if s.sockets[r].connected {
      GoneKeeps(s, s.sockets[r].client);
      CloseKeeps(s, r);
    }
  }

  lemma SameAlive(s: State, s': State, k: Key)
    requires HasAlive(s, k)
    requires forall r | r in s.sockets && Alive(s.sockets[r]) && KeyOf(s.sockets[r]) == k ::
               r in s'.sockets && Alive(s'.sockets[r]) && KeyOf(s'.sockets[r]) == k
    ensures HasAlive(s', k)
  {
    var r :| r in s.sockets && Alive(s.sockets[r]) && KeyOf(s.sockets[r]) == k;
    assert r in s'.sockets && Alive(s'.sockets[r]) && KeyOf(s'.sockets[r]) == k;
  }

  lemma JoinKeeps(s: State, r: Ref, joining: set<Room>)
    requires Inv(s) && r in s.sockets
    ensures Inv(AfterJoin(s, r, joining))
  {
    JoinKeepsPlaces(s, r, joining);
    JoinKeepsRooms(s, r, joining);
  }

  lemma JoinKeepsPlaces(s: State, r: Ref, joining: set<Room>)
    requires AllInPlace(s) && r in s.sockets
    ensures AllInPlace(AfterJoin(s, r, joining))
  {
    var s' := AfterJoin(s, r, joining);
    forall t | t in s'.sockets && s'.sockets[t].connected ensures InPlace(s', t) {
      assert InPlace(s, t);
    }
  }

  lemma JoinKeepsRooms(s: State, r: Ref, joining: set<Room>)
    requires OnlyAliveInRooms(s) && r in s.sockets
    ensures OnlyAliveInRooms(AfterJoin(s, r, joining))
  {
    var s', k0 := AfterJoin(s, r, joining), KeyOf(s.sockets[r]);
    forall k | k in s'.rooms ensures HasAlive(s', k) {
      if k == k0 && s.sockets[r].canJoin {
        assert r in s'.sockets && Alive(s'.sockets[r]) && KeyOf(s'.sockets[r]) == k;
      } else {
        SameAlive(s, s', k);
      }
    }
  }

  lemma LeaveKeeps(s: State, r: Ref, room: Room)
    requires Inv(s) && r in s.sockets
    ensures Inv(AfterLeave(s, r, room))
  {
    LeaveKeepsPlaces(s, r, room);
    LeaveKeepsRooms(s, r, room);
  }

  lemma LeaveKeepsPlaces(s: State, r: Ref, room: Room)
    requires AllInPlace(s) && r in s.sockets
    ensures AllInPlace(AfterLeave(s, r, room))
  {
    var s' := AfterLeave(s, r, room);
    forall t | t in s'.sockets && s'.sockets[t].connected ensures InPlace(s', t) {
      assert InPlace(s, t);
    }
  }

  lemma LeaveKeepsRooms(s: State, r: Ref, room: Room)
    requires OnlyAliveInRooms(s) && r in s.sockets
    ensures OnlyAliveInRooms(AfterLeave(s, r, room))
  {
    var s' := AfterLeave(s, r, room);
    forall k | k in s'.rooms ensures HasAlive(s', k) {
      SameAlive(s, s', k);
    }
  }

  lemma CreateKeeps(s: State, r: Ref, client: Client, nsp: Nsp, id: SocketId, restored: Option<set<Room>>)
    requires Inv(s) && r !in s.sockets && Free(s, client, nsp, id)
    ensures Inv(AfterCreate(s, r, client, nsp, id, restored))
  {
    var s1 := s.(sockets := s.sockets[r := Socket(id, nsp, client, false, true, false, 0)]);
    PendingKeepsPlaces(s, s1);
    PendingKeepsRooms(s, s1);
    PendingKeepsMaps(s, s1, r);
    PendingKeepsApart(s, s1, r);
    if restored.Some? && restored.value != {} {
      JoinKeeps(s1, r, restored.value);
    }
  }

  lemma PendingKeepsMaps(s: State, s': State, r: Ref)
    requires OnlyConnected(s) && DisconnectOnce(s) && OnlyOpenClients(s)
    requires r !in s.sockets && r in s'.sockets && s' == s.(sockets := s.sockets[r := s'.sockets[r]])
    requires var x := s'.sockets[r]; Pending(x) && !x.admitted && x.disconnects == 0
    ensures OnlyConnected(s') && DisconnectOnce(s') && OnlyOpenClients(s')
  {
  }

  lemma PendingKeepsApart(s: State, s': State, r: Ref)
    requires Apart(s) && r !in s.sockets && r in s'.sockets && s' == s.(sockets := s.sockets[r := s'.sockets[r]])
    requires var x := s'.sockets[r]; Free(s, x.client, x.nsp, x.id)
    ensures Apart(s')
  {
  }

  lemma PendingKeepsRooms(s: State, s': State)
    requires OnlyAliveInRooms(s) && s' == s.(sockets := s'.sockets)
    requires forall t | t in s.sockets :: t in s'.sockets && s'.sockets[t] == s.sockets[t]
    ensures OnlyAliveInRooms(s')
  {
    forall k | k in s'.rooms ensures HasAlive(s', k) {
      SameAlive(s, s', k);
    }
  }

  lemma PendingKeepsPlaces(s: State, s': State)
    requires AllInPlace(s) && s' == s.(sockets := s'.sockets)
    requires forall t | t in s'.sockets && s'.sockets[t].connected :: t in s.sockets && s.sockets[t] == s'.sockets[t]
    ensures AllInPlace(s')
  {
    forall t | t in s'.sockets && s'.sockets[t].connected ensures InPlace(s', t) {
      assert InPlace(s, t);
    }
  }

  lemma RejectKeeps(s: State, r: Ref)
    requires Inv(s) && r in s.sockets && Pending(s.sockets[r])
    ensures Inv(AfterReject(s, r))
  {
    RejectKeepsPlaces(s, r);
    RejectKeepsRooms(s, r);
    RejectKeepsMaps(s, r);
  }

  lemma RejectKeepsMaps(s: State, r: Ref)
    requires OnlyConnected(s) && DisconnectOnce(s) && OnlyOpenClients(s) && r in s.sockets && Pending(s.sockets[r])
    ensures OnlyConnected(AfterReject(s, r)) && DisconnectOnce(AfterReject(s, r)) && OnlyOpenClients(AfterReject(s, r))
  {
  }

  lemma RejectKeepsPlaces(s: State, r: Ref)
    requires AllInPlace(s) && Apart(s) && r in s.sockets && Pending(s.sockets[r])
    ensures AllInPlace(AfterReject(s, r)) && Apart(AfterReject(s, r))
  {
    var s' := AfterReject(s, r);
    forall t | t in s'.sockets && s'.sockets[t].connected ensures InPlace(s', t) {
      assert InPlace(s, t) && s.sockets[t].id != s.sockets[r].id;
    }
  }

  lemma RejectKeepsRooms(s: State, r: Ref)
    requires OnlyAliveInRooms(s) && r in s.sockets
    ensures OnlyAliveInRooms(AfterReject(s, r))
  {
    var s' := AfterReject(s, r);
    forall k | k in s'.rooms ensures HasAlive(s', k) {
      SameAlive(s, s', k);
    }
  }

  lemma ConnectKeeps(s: State, r: Ref)
    requires Inv(s) && r in s.sockets && Pending(s.sockets[r]) && s.sockets[r].client in s.open
    ensures Inv(AfterConnect(s, r))
  {
    ConnectKeepsPlaces(s, r);
    ConnectKeepsMaps(s, r);
    ConnectKeepsRooms(s, r);
  }

  lemma ConnectKeepsPlaces(s: State, r: Ref)
    requires AllInPlace(s) && Apart(s) && r in s.sockets && Pending(s.sockets[r]) && s.sockets[r].client in s.open
    ensures AllInPlace(AfterConnect(s, r)) && Apart(AfterConnect(s, r))
  {
    var s', x := AfterConnect(s, r), s.sockets[r];
    forall t | t in s'.sockets && s'.sockets[t].connected ensures InPlace(s', t) {
      if t != r {
        assert InPlace(s, t) && s.sockets[t].id != x.id;
      }
    }
  }

  lemma ConnectKeepsMaps(s: State, r: Ref)
    requires OnlyConnected(s) && DisconnectOnce(s) && r in s.sockets && Pending(s.sockets[r])
    ensures OnlyConnected(AfterConnect(s, r)) && DisconnectOnce(AfterConnect(s, r))
  {
  }

  lemma ConnectKeepsRooms(s: State, r: Ref)
    requires OnlyAliveInRooms(s) && r in s.sockets && Pending(s.sockets[r])
    ensures OnlyAliveInRooms(AfterConnect(s, r))
  {
    var s', x := AfterConnect(s, r), s.sockets[r];
    forall k | k in s'.rooms ensures HasAlive(s', k) {
      if k == KeyOf(x) {
        assert r in s'.sockets && Alive(s'.sockets[r]) && KeyOf(s'.sockets[r]) == k;
      } else {
        SameAlive(s, s', k);
      }
    }
  }

  lemma CloseKeeps(s: State, r: Ref)
    requires Inv(s) && r in s.sockets
    ensures Inv(AfterClose(s, r))
  {
    if s.sockets[r].connected {
      assert InPlace(s, r);
      CloseIsShut(s, r);
      ShutKeeps(s, {r});
    }
  }

  /** What closing removes by id is what closing a set of one socket removes. */
  lemma CloseIsShut(s: State, r: Ref)
    requires r in s.sockets && s.sockets[r].connected
    requires var k := (s.sockets[r].client, s.sockets[r].id); k in s.ofClient && s.ofClient[k] == r
    ensures AfterClose(s, r) == Shut(s, {r})
  {
    var x := s.sockets[r];
    assert s.sockets[r := x.(canJoin := false)][r := ClosedSocket(x)] == s.sockets[r := ClosedSocket(x)];
    assert Shut(s, {r}).sockets == s.sockets[r := ClosedSocket(x)];
    assert KeysOf(s.sockets, {r}) == {KeyOf(x)};
    assert ClientKeysOf(s.sockets, {r}) == {(x.client, x.id)};
    assert NspKeysOf(s.sockets, {r}) == {(x.client, x.nsp)};
  }

  /** When everything is in place, what is removed by ids and namespaces is exactly what leads to the sockets. */
  lemma ShutRemovesOwn(s: State, rs: set<Ref>)
    requires Core(s) && forall r | r in rs :: r in s.sockets && s.sockets[r].connected
    ensures forall k | k in s.registered :: k in Shut(s, rs).registered <==> s.registered[k] !in rs
    ensures forall k | k in s.ofClient :: k in Shut(s, rs).ofClient <==> s.ofClient[k] !in rs
    ensures forall k | k in s.nspsOfClient :: k in Shut(s, rs).nspsOfClient <==> s.nspsOfClient[k] !in rs
  {
    forall r | r in rs ensures InPlace(s, r) {}
  }

  lemma GoneKeeps(s: State, client: Client)
    requires Inv(s)
    ensures Inv(AfterGone(s, client))
  {
    var s1 := s.(open := s.open - {client});
    OpenMatters(s, s1);
    EntriesAreSockets(s, client);
    ShutKeeps(s1, SocketsOf(s, client));
    OnlyOpenAfterGone(s, client);
  }

  lemma EntriesAreSockets(s: State, client: Client)
    requires AllInPlace(s) && EntriesSound(s)
    ensures EntriesOf(s, client) == SocketsOf(s, client)
  {
    forall r | r in SocketsOf(s, client) ensures r in EntriesOf(s, client) {
      assert InPlace(s, r);
    }
  }

  lemma OnlyOpenAfterGone(s: State, client: Client)
    requires OnlyOpenClients(s) && AllInPlace(s) && EntriesSound(s)
    ensures OnlyOpenClients(AfterGone(s, client))
  {
    EntriesAreSockets(s, client);
  }

  /** All but the open clients does not depend on them. */
  lemma OpenMatters(s: State, s': State)
    requires Core(s) && s' == s.(open := s'.open)
    ensures Core(s')
  {
    forall r | r in s'.sockets && s'.sockets[r].connected ensures InPlace(s', r) {
      assert InPlace(s, r);
    }
    forall k | k in s'.rooms ensures HasAlive(s', k) {
      SameAlive(s, s', k);
    }
  }

  lemma ShutKeeps(s: State, rs: set<Ref>)
    requires Core(s) && forall r | r in rs :: r in s.sockets && s.sockets[r].connected
    ensures Core(Shut(s, rs))
  {
    ShutKeepsPlaces(s, rs);
    ShutKeepsRooms(s, rs);
    ShutKeepsMaps(s, rs);
  }

  lemma ShutKeepsPlaces(s: State, rs: set<Ref>)
    requires AllInPlace(s) && Apart(s) && forall r | r in rs :: r in s.sockets && s.sockets[r].connected
    ensures AllInPlace(Shut(s, rs))
  {
    var s' := Shut(s, rs);
    forall t | t in s'.sockets && s'.sockets[t].connected ensures InPlace(s', t) {
      assert InPlace(s, t) && t !in rs;
      forall r | r in rs ensures s.sockets[r].id != s.sockets[t].id {}
      assert KeyOf(s.sockets[t]) !in KeysOf(s.sockets, rs);
    }
  }

  lemma ShutKeepsMaps(s: State, rs: set<Ref>)
    requires OnlyConnected(s) && DisconnectOnce(s) && Apart(s)
    requires forall r | r in rs :: r in s.sockets && s.sockets[r].connected
    ensures OnlyConnected(Shut(s, rs)) && DisconnectOnce(Shut(s, rs)) && Apart(Shut(s, rs))
  {
  }

  lemma ShutKeepsRooms(s: State, rs: set<Ref>)
    requires OnlyAliveInRooms(s)
    ensures OnlyAliveInRooms(Shut(s, rs))
  {
    var s' := Shut(s, rs);
    forall k | k in s'.rooms ensures HasAlive(s', k) {
      SameAlive(s, s', k);
    }
  }

  lemma AllClosed(s: State, closed: set<Ref>, client: Client)
    requires EntriesSound(s) && closed <= EntriesOf(s, client)
    requires forall k | k in Shut(s, closed).ofClient :: k.0 != client
    ensures closed == EntriesOf(s, client)
  {
    forall k | k in s.ofClient && k.0 == client ensures s.ofClient[k] in closed {
      assert k in ClientKeysOf(s.sockets, closed);
    }
  }

  /** An entry that is left after closing some sockets leads to one that was not closed. */
  lemma NextEntry(s: State, closed: set<Ref>, k: (Client, SocketId), client: Client)
    requires EntriesSound(s) && k in Shut(s, closed).ofClient && k.0 == client
    ensures s.ofClient[k] !in closed && s.ofClient[k] in EntriesOf(s, client)
  {
  }

  lemma ShutKeepsEntries(s: State, rs: set<Ref>)
    requires EntriesSound(s)
    ensures EntriesSound(Shut(s, rs))
  {
  }

  lemma ShutNone(s: State)
    ensures Shut(s, {}) == s
  {
    assert Shut(s, {}).sockets == s.sockets;
    assert KeysOf(s.sockets, {}) == {} && ClientKeysOf(s.sockets, {}) == {} && NspKeysOf(s.sockets, {}) == {};
    assert s.registered - {} == s.registered && s.ofClient - {} == s.ofClient;
    assert s.nspsOfClient - {} == s.nspsOfClient && s.rooms - {} == s.rooms;
  }

  /** When all sockets of a client are closed, losing the connection closes nothing more. */
  lemma NobodyLeft(s: State, client: Client)
    requires EntriesSound(s)
    ensures var s' := Shut(s, EntriesOf(s, client));
            && AfterGone(s', client) == AfterGone(s, client)
            && (client !in s.open ==> s' == AfterGone(s, client))
  {
    var s' := Shut(s, EntriesOf(s, client));
    assert EntriesOf(s', client) == {};
    ShutNone(s'.(open := s.open - {client}));
    assert client !in s.open ==> s.open - {client} == s.open;
  }

  lemma ShutTwice(s: State, a: set<Ref>, b: set<Ref>)
    requires a !! b
    ensures Shut(Shut(s, a), b) == Shut(s, a + b)
  {
    var s1, s2 := Shut(Shut(s, a), b), Shut(s, a + b);
    assert s1.sockets == s2.sockets;
    KeysOfBoth(s, a, b);
    RemovedInTurn(s.registered, KeysOf(s.sockets, a), KeysOf(s.sockets, b));
    RemovedInTurn(s.ofClient, ClientKeysOf(s.sockets, a), ClientKeysOf(s.sockets, b));
    RemovedInTurn(s.nspsOfClient, NspKeysOf(s.sockets, a), NspKeysOf(s.sockets, b));
    RemovedInTurn(s.rooms, KeysOf(s.sockets, a), KeysOf(s.sockets, b));
  }

  lemma RemovedInTurn<K, V>(m: map<K, V>, a: set<K>, b: set<K>)
    ensures m - a - b == m - (a + b)
  {
  }

  lemma KeysOfBoth(s: State, a: set<Ref>, b: set<Ref>)
    ensures KeysOf(s.sockets, a + b) == KeysOf(s.sockets, a) + KeysOf(s.sockets, b)
    ensures ClientKeysOf(s.sockets, a + b) == ClientKeysOf(s.sockets, a) + ClientKeysOf(s.sockets, b)
    ensures NspKeysOf(s.sockets, a + b) == NspKeysOf(s.sockets, a) + NspKeysOf(s.sockets, b)
    ensures KeysOf(Shut(s, a).sockets, b) == KeysOf(s.sockets, b)
    ensures ClientKeysOf(Shut(s, a).sockets, b) == ClientKeysOf(s.sockets, b)
    ensures NspKeysOf(Shut(s, a).sockets, b) == NspKeysOf(s.sockets, b)
  {
  }

  /** The state after events that need not be orderly: ids may be used twice. */
  ghost function HandledAll(events: seq<Event>): Option<State> {
    if events == [] then Some(EMPTY)
    else match HandledAll(events[..|events| - 1]) case None => None case Some(s) => Handled(s, events[|events| - 1])
  }

  /** The maps of the clients are sound in every run, orderly or not. */
  lemma {:induction false} EntriesAlwaysSound(events: seq<Event>)
    requires HandledAll(events).Some?
    ensures EntriesSound(HandledAll(events).value)
  {
    if events != [] {
      var front := events[..|events| - 1];
      EntriesAlwaysSound(front);
      EntriesStaySound(HandledAll(front).value, events[|events| - 1]);
    }
  }

  lemma EntriesStaySound(s: State, e: Event)
    requires EntriesSound(s) && Handled(s, e).Some?
    ensures EntriesSound(Handled(s, e).value)
  {
    match e
    case Arrive(r, client, nsp, id, restored, skip) =>
      var s1 := AfterCreate(s, r, client, nsp, id, restored);
      assert EntriesSound(s1);
      ConnectKeepsEntries(s1, r);
    case Middleware(r, _) => ConnectKeepsEntries(s, r);
    case Close(r) => CloseKeepsEntries(s, r);
    case Disconnect(r, _) =>
      CloseKeepsEntries(s, r);
      GoneKeepsEntries(s, s.sockets[r].client);
    case Gone(client) => GoneKeepsEntries(s, client);
    case _ =>
  }

  lemma ConnectKeepsEntries(s: State, r: Ref)
    requires EntriesSound(s) && r in s.sockets
    ensures EntriesSound(AfterConnect(s, r))
  {
  }

  lemma GoneKeepsEntries(s: State, client: Client)
    requires EntriesSound(s)
    ensures EntriesSound(AfterGone(s, client))
  {
    ShutKeepsEntries(s.(open := s.open - {client}), EntriesOf(s, client));
  }

  lemma CloseKeepsEntries(s: State, r: Ref)
    requires EntriesSound(s) && r in s.sockets
    ensures EntriesSound(AfterClose(s, r))
  {
  }

  // ---------- what the events alone say ----------

  /** The event connects the socket. */
  ghost predicate Connects(s: State, e: Event, r: Ref) {
    match e
    case Arrive(t, client, _, _, restored, skip) => t == r && skip && restored.Some? && client in s.open
    case Middleware(t, error) => t == r && r in s.sockets && !error && s.sockets[r].client in s.open
    case _ => false
  }

  ghost predicate Rejects(s: State, e: Event, r: Ref) {
    e.Middleware? && e.ref == r && !Connects(s, e, r)
  }

  /** The event ends the connection of the client. */
  ghost predicate Ends(s: State, e: Event, client: Client) {
    match e
    case Gone(c) => c == client
    case Disconnect(t, close) => close && t in s.sockets && s.sockets[t].connected && s.sockets[t].client == client
    case _ => false
  }

  /** The event closes the socket, by itself or with the connection of its client. */
  ghost predicate Closes(s: State, e: Event, r: Ref) {
    r in s.sockets && s.sockets[r].connected &&
    (Ends(s, e, s.sockets[r].client) || ((e.Close? || e.Disconnect?) && e.ref == r))
  }

  /** Which sockets there are, which of them are connected or alive, and which clients have a connection. */
  ghost predicate StatusMoves(s: State, e: Event, sockets: map<Ref, Socket>, open: set<Client>) {
    && sockets.Keys == s.sockets.Keys + (if e.Arrive? then {e.ref} else {})
    && (forall r | r in sockets ::
          && (sockets[r].connected <==>
              Connects(s, e, r) || (r in s.sockets && s.sockets[r].connected && !Closes(s, e, r)))
          && (Alive(sockets[r]) <==>
              || (e.Arrive? && e.ref == r)
              || (r in s.sockets && Alive(s.sockets[r]) && !Closes(s, e, r) && !Rejects(s, e, r))))
    && (forall client ::
          client in open <==> e == Open(client) || (client in s.open && !Ends(s, e, client)))
  }

  /** In every orderly run, each event connects, rejects and closes exactly the sockets that it should. */
  lemma StatusIff(events: seq<Event>, e: Event)
    requires Run(events).Some? && Run(events + [e]).Some?
    ensures StatusMoves(Run(events).value, e, Run(events + [e]).value.sockets, Run(events + [e]).value.open)
  {
    assert (events + [e])[..|events|] == events;
    LifecycleIsSafe(events);
    StatusStep(Run(events).value, e);
  }

  lemma StatusStep(s: State, e: Event)
    requires AllInPlace(s) && EntriesSound(s) && Next(s, e).Some?
    ensures StatusMoves(s, e, Next(s, e).value.sockets, Next(s, e).value.open)
  {
    match e
    case Arrive(r, client, nsp, id, restored, skip) =>
      SocketsAfterArrival(s, r, client, nsp, id, restored);
      ArriveStatus(s, e, Next(s, e).value.sockets);
    case Middleware(r, error) =>
      SocketsAfterMiddleware(s, r, error);
      MiddlewareStatus(s, e, Next(s, e).value.sockets);
    case Close(t) => ClosedStatus(s, e, t);
    case Disconnect(t, close) => DisconnectStatus(s, e, t);
    case Gone(client) => GoneStatus(s, e, client);
    case _ =>
  }

  lemma ArriveStatus(s: State, e: Event, sockets: map<Ref, Socket>)
    requires e.Arrive? && e.ref !in s.sockets
    requires var connected := e.skipMiddlewares && e.restored.Some? && e.client in s.open;
             sockets == s.sockets[e.ref := Socket(e.id, e.nsp, e.client, connected, true, connected, 0)]
    ensures StatusMoves(s, e, sockets, s.open)
  {
  }

  lemma MiddlewareStatus(s: State, e: Event, sockets: map<Ref, Socket>)
    requires e.Middleware? && e.ref in s.sockets && Pending(s.sockets[e.ref])
    requires var x := s.sockets[e.ref];
             sockets == s.sockets[e.ref := if x.client !in s.open || e.error then x.(canJoin := false)
                                           else x.(connected := true, admitted := true)]
    ensures StatusMoves(s, e, sockets, s.open)
  {
  }

  lemma SocketsAfterArrival(s: State, r: Ref, client: Client, nsp: Nsp, id: SocketId, restored: Option<set<Room>>)
    ensures var s1 := AfterCreate(s, r, client, nsp, id, restored);
            && s1.sockets == s.sockets[r := Socket(id, nsp, client, false, true, false, 0)] && s1.open == s.open
            && AfterConnect(s1, r).sockets == s1.sockets[r := Socket(id, nsp, client, true, true, true, 0)]
            && AfterConnect(s1, r).open == s.open
  {
  }

  lemma SocketsAfterMiddleware(s: State, r: Ref, error: bool)
    requires r in s.sockets
    ensures var s', x := AfterMiddleware(s, r, error), s.sockets[r];
            && s'.sockets == s.sockets[r := if x.client !in s.open || error then x.(canJoin := false)
                                            else x.(connected := true, admitted := true)]
            && s'.open == s.open
  {
  }

  /** Closing some sockets at once changes the status of no others. */
  lemma ShutStatus(s: State, rs: set<Ref>)
    ensures Shut(s, rs).sockets.Keys == s.sockets.Keys && Shut(s, rs).open == s.open
    ensures forall r | r in s.sockets ::
              && (Shut(s, rs).sockets[r].connected <==> s.sockets[r].connected && r !in rs)
              && (Alive(Shut(s, rs).sockets[r]) <==> Alive(s.sockets[r]) && r !in rs)
  {
  }

  lemma ClosedStatus(s: State, e: Event, t: Ref)
    requires AllInPlace(s) && t in s.sockets
    requires e == Close(t) || (e.Disconnect? && e.ref == t && (s.sockets[t].connected ==> !e.close))
    ensures StatusMoves(s, e, AfterClose(s, t).sockets, AfterClose(s, t).open)
  {
    if s.sockets[t].connected {
      assert InPlace(s, t);
      CloseIsShut(s, t);
      ShutStatus(s, {t});
    }
  }

  lemma DisconnectStatus(s: State, e: Event, t: Ref)
    requires AllInPlace(s) && EntriesSound(s) && t in s.sockets && e.Disconnect? && e.ref == t
    ensures var s' := AfterDisconnect(s, t, e.close); StatusMoves(s, e, s'.sockets, s'.open)
  {
    if s.sockets[t].connected && e.close {
      GoneStatus(s, e, s.sockets[t].client);
    } else {
      ClosedStatus(s, e, t);
    }
  }

  lemma GoneStatus(s: State, e: Event, client: Client)
    requires AllInPlace(s) && EntriesSound(s) && forall c :: Ends(s, e, c) <==> c == client
    requires e.Gone? || (e.Disconnect? && e.ref in s.sockets && s.sockets[e.ref].client == client)
    ensures StatusMoves(s, e, AfterGone(s, client).sockets, AfterGone(s, client).open)
  {
    EntriesAreSockets(s, client);
    ShutStatus(s.(open := s.open - {client}), SocketsOf(s, client));
  }

  /** The event puts the socket into the room: by restoring it, by connecting it to its own room, or by a join. */
  ghost predicate Puts(s: State, e: Event, r: Ref, room: Room) {
    match e
    case Arrive(t, client, _, id, restored, skip) =>
      t == r && restored.Some? && (room in restored.value || (skip && client in s.open && room == id))
    case Middleware(t, error) =>
      t == r && r in s.sockets && !error && s.sockets[r].client in s.open && room == s.sockets[r].id
    case Join(t, rooms) => t == r && room in rooms
    case _ => false
  }

  /** The event takes the socket's id, and so the socket, out of the room. */
  ghost predicate TakesOut(s: State, e: Event, r: Ref, room: Room) {
    e.Leave? && e.room == room && e.ref in s.sockets && r in s.sockets && KeyOf(s.sockets[e.ref]) == KeyOf(s.sockets[r])
  }

  /** Some event put the socket into the room, and none since has taken it out. */
  ghost predicate PutAndNotTakenOut(events: seq<Event>, r: Ref, room: Room) {
    events != [] &&
    var front, e := events[..|events| - 1], events[|events| - 1];
    Run(front).Some? &&
    (Puts(Run(front).value, e, r, room) ||
     (PutAndNotTakenOut(front, r, room) && !TakesOut(Run(front).value, e, r, room)))
  }

  /** In every orderly run, a living socket is in exactly the rooms it was put into and not taken out of since. */
  lemma {:induction false} RoomsIff(events: seq<Event>, r: Ref, room: Room)
    requires Run(events).Some?
    requires r in Run(events).value.sockets && Alive(Run(events).value.sockets[r])
    ensures var s := Run(events).value;
            room in RoomsAt(s.rooms, KeyOf(s.sockets[r])) <==> PutAndNotTakenOut(events, r, room)
  {
    var front := events[..|events| - 1];
    LastRoomMove(events, r, room);
    if r in Run(front).value.sockets {
      RoomsIff(front, r, room);
    } else {
      NeverPutBefore(front, r, room);
    }
  }

  lemma LastRoomMove(events: seq<Event>, r: Ref, room: Room)
    requires Run(events).Some? && events != []
    requires r in Run(events).value.sockets && Alive(Run(events).value.sockets[r])
    ensures Run(events[..|events| - 1]).Some?
    ensures RoomMoves(Run(events[..|events| - 1]).value, events[|events| - 1], Run(events).value, r, room)
  {
    LifecycleIsSafe(events[..|events| - 1]);
    RoomStep(Run(events[..|events| - 1]).value, events[|events| - 1], r, room);
  }

  /** What one event does to the rooms of a socket that is alive after it. */
  ghost predicate RoomMoves(s: State, e: Event, s': State, r: Ref, room: Room)
    requires r in s'.sockets
  {
    && (r in s.sockets ==> Alive(s.sockets[r]) && KeyOf(s.sockets[r]) == KeyOf(s'.sockets[r]))
    && (room in RoomsAt(s'.rooms, KeyOf(s'.sockets[r])) <==>
        || Puts(s, e, r, room)
        || (r in s.sockets && room in RoomsAt(s.rooms, KeyOf(s.sockets[r])) && !TakesOut(s, e, r, room)))
  }

  lemma RoomStep(s: State, e: Event, r: Ref, room: Room)
    requires Inv(s) && Next(s, e).Some? && r in Next(s, e).value.sockets && Alive(Next(s, e).value.sockets[r])
    ensures RoomMoves(s, e, Next(s, e).value, r, room)
  {
    var s' := Next(s, e).value;
    match e
    case Arrive(t, client, nsp, id, _, _) =>
      if r == t {
        NewKeyHasNoRooms(s, client, nsp, id);
        ArrivesInRooms(s, e, room);
      } else {
        OthersStay(s, e, r);
        OtherArrives(s, e, r, room);
      }
    case Middleware(t, error) => MiddlewareMoves(s, e, r, room);
    case Join(t, rooms) => JoinMoves(s, t, rooms, r, room);
    case Leave(t, left) => LeaveMoves(s, t, left, r, room);
    case Open(_) =>
    case _ => ClosingMoves(s, e, r, room);
  }

  lemma ClosingMoves(s: State, e: Event, r: Ref, room: Room)
    requires Inv(s) && Next(s, e).Some? && r in s.sockets && (e.Close? || e.Disconnect? || e.Gone?)
    ensures Unmoved(s, Next(s, e).value, r)
    ensures Alive(Next(s, e).value.sockets[r]) ==> RoomMoves(s, e, Next(s, e).value, r, room)
  {
    match e
    case Close(t) => CloseMoves(s, t, r);
    case Disconnect(t, close) => DisconnectMoves(s, t, close, r);
    case Gone(client) => GoneMoves(s, client, r);
  }

  lemma DisconnectMoves(s: State, t: Ref, close: bool, r: Ref)
    requires Inv(s) && t in s.sockets && r in s.sockets
    ensures Unmoved(s, AfterDisconnect(s, t, close), r)
  {
    CloseMoves(s, t, r);
    GoneMoves(s, s.sockets[t].client, r);
  }

  lemma JoinMoves(s: State, t: Ref, rooms: set<Room>, r: Ref, room: Room)
    requires Apart(s) && DisconnectOnce(s) && t in s.sockets && r in s.sockets && Alive(s.sockets[r])
    ensures RoomMoves(s, Join(t, rooms), AfterJoin(s, t, rooms), r, room)
  {
    if t != r && Alive(s.sockets[t]) { assert s.sockets[t].id != s.sockets[r].id; }
  }

  lemma LeaveMoves(s: State, t: Ref, left: Room, r: Ref, room: Room)
    requires t in s.sockets && r in s.sockets && Alive(s.sockets[r])
    ensures RoomMoves(s, Leave(t, left), AfterLeave(s, t, left), r, room)
  {
  }

  lemma CloseMoves(s: State, t: Ref, r: Ref)
    requires Inv(s) && t in s.sockets && r in s.sockets
    ensures Unmoved(s, AfterClose(s, t), r)
  {
    if s.sockets[t].connected {
      assert InPlace(s, t);
      CloseIsShut(s, t);
      ShutMoves(s, {t}, r);
    }
  }

  /** If the socket is still alive, its rooms are the same. */
  ghost predicate Unmoved(s: State, s': State, r: Ref)
    requires r in s.sockets
  {
    && r in s'.sockets && KeyOf(s'.sockets[r]) == KeyOf(s.sockets[r])
    && (Alive(s'.sockets[r]) ==>
          && Alive(s.sockets[r])
          && RoomsAt(s'.rooms, KeyOf(s.sockets[r])) == RoomsAt(s.rooms, KeyOf(s.sockets[r])))
  }

  lemma NewKeyHasNoRooms(s: State, client: Client, nsp: Nsp, id: SocketId)
    requires OnlyAliveInRooms(s) && Free(s, client, nsp, id)
    ensures (nsp, id) !in s.rooms
  {
    assert (nsp, id) in s.rooms ==> HasAlive(s, (nsp, id));
  }

  lemma ArrivesInRooms(s: State, e: Event, room: Room)
    requires e.Arrive? && Next(s, e).Some? && (e.nsp, e.id) !in s.rooms
    ensures e.ref in Next(s, e).value.sockets && RoomMoves(s, e, Next(s, e).value, e.ref, room)
  {
    var k, s1 := (e.nsp, e.id), AfterCreate(s, e.ref, e.client, e.nsp, e.id, e.restored);
    assert KeyOf(s1.sockets[e.ref]) == k;
    assert RoomsAt(s1.rooms, k) == if e.restored.Some? then e.restored.value else {};
  }

  lemma OtherArrives(s: State, e: Event, r: Ref, room: Room)
    requires e.Arrive? && Next(s, e).Some? && r != e.ref && r in s.sockets && Alive(s.sockets[r])
    ensures r in Next(s, e).value.sockets && RoomMoves(s, e, Next(s, e).value, r, room)
  {
    assert KeyOf(s.sockets[r]) != (e.nsp, e.id);
    var s1 := AfterCreate(s, e.ref, e.client, e.nsp, e.id, e.restored);
    assert s1.sockets[r] == s.sockets[r] && KeyOf(s1.sockets[e.ref]) == (e.nsp, e.id);
  }

  lemma OthersStay(s: State, e: Event, r: Ref)
    requires e.Arrive? && Next(s, e).Some? && r != e.ref && r in Next(s, e).value.sockets
    ensures r in s.sockets && Next(s, e).value.sockets[r] == s.sockets[r]
  {
    var s1 := AfterCreate(s, e.ref, e.client, e.nsp, e.id, e.restored);
    assert r in s1.sockets && s1.sockets[r] == s.sockets[r];
  }

  lemma MiddlewareMoves(s: State, e: Event, r: Ref, room: Room)
    requires Apart(s) && e.Middleware? && Next(s, e).Some? && r in Next(s, e).value.sockets
    requires Alive(Next(s, e).value.sockets[r])
    ensures RoomMoves(s, e, Next(s, e).value, r, room)
  {
    if r != e.ref {
      assert Alive(s.sockets[r]) && s.sockets[r].id != s.sockets[e.ref].id;
    }
  }

  /** Closing other sockets leaves a living one where it is. */
  lemma ShutMoves(s: State, rs: set<Ref>, r: Ref)
    requires Core(s) && r in s.sockets && (forall t | t in rs :: t in s.sockets && s.sockets[t].connected)
    ensures Unmoved(s, Shut(s, rs), r)
  {
    if Alive(Shut(s, rs).sockets[r]) {
      assert r !in rs;
      assert KeyOf(s.sockets[r]) !in KeysOf(s.sockets, rs) by {
        forall t | t in rs ensures KeyOf(s.sockets[t]) != KeyOf(s.sockets[r]) {
          assert s.sockets[t].id != s.sockets[r].id;
        }
      }
    }
  }

  lemma GoneMoves(s: State, client: Client, r: Ref)
    requires Inv(s) && r in s.sockets
    ensures Unmoved(s, AfterGone(s, client), r)
  {
    ShutMoves(s, EntriesOf(s, client), r);
  }

  /** Before it arrives nothing is put anywhere for a socket. */
  lemma {:induction false} NeverPutBefore(events: seq<Event>, r: Ref, room: Room)
    requires Run(events).Some? && r !in Run(events).value.sockets
    ensures !PutAndNotTakenOut(events, r, room)
  {
    if events != [] {
      var front, e := events[..|events| - 1], events[|events| - 1];
      SocketsStay(Run(front).value, e);
      NeverPutBefore(front, r, room);
    }
  }

  lemma SocketsStay(s: State, e: Event)
    requires Next(s, e).Some?
    ensures s.sockets.Keys <= Next(s, e).value.sockets.Keys
    ensures forall r, room | Puts(s, e, r, room) :: r in Next(s, e).value.sockets
  {
  }

  // ---------- closed and rejected sockets ----------

  /** A socket that is not alive is in no map and, unless its id was taken over, in no room; it cannot join any. */
  lemma DeadIsNowhere(s: State, r: Ref)
    requires Inv(s) && r in s.sockets && !Alive(s.sockets[r])
    ensures r !in s.registered.Values + s.ofClient.Values + s.nspsOfClient.Values
    ensures KeyOf(s.sockets[r]) in s.rooms ==>
              exists t :: t in s.sockets && t != r && Alive(s.sockets[t]) && KeyOf(s.sockets[t]) == KeyOf(s.sockets[r])
    ensures forall rooms :: AfterJoin(s, r, rooms) == s
    ensures s.sockets[r].disconnects == if s.sockets[r].admitted then 1 else 0
  {
    if KeyOf(s.sockets[r]) in s.rooms {
      assert HasAlive(s, KeyOf(s.sockets[r]));
    }
  }

  /** It stays that way, and emits nothing more. */
  lemma {:induction false} DeadForever(before: seq<Event>, after: seq<Event>, r: Ref)
    requires Run(before).Some? && r in Run(before).value.sockets && !Alive(Run(before).value.sockets[r])
    requires Run(before + after).Some?
    ensures r in Run(before + after).value.sockets
    ensures Run(before + after).value.sockets[r] == Run(before).value.sockets[r]
  {
    if after == [] {
      assert before + after == before;
    } else {
      var front, e := after[..|after| - 1], after[|after| - 1];
      assert (before + after)[..|before + after| - 1] == before + front;
      DeadForever(before, front, r);
      StaysDead(Run(before + front).value, e, r);
    }
  }

  lemma StaysDead(s: State, e: Event, r: Ref)
    requires Next(s, e).Some? && r in s.sockets && !Alive(s.sockets[r])
    ensures r in Next(s, e).value.sockets && Next(s, e).value.sockets[r] == s.sockets[r]
  {
    match e
    case Arrive(t, client, nsp, id, restored, skip) =>
      assert AfterCreate(s, t, client, nsp, id, restored).sockets[r] == s.sockets[r];
    case _ =>
  }

  /** The middleware decides once: the socket is connected, or it was rejected and never will be. */
  lemma MiddlewareDecides(s: State, r: Ref, error: bool)
    requires Inv(s) && r in s.sockets && Pending(s.sockets[r])
    ensures var s' := AfterMiddleware(s, r, error);
            if error || s.sockets[r].client !in s.open
            then !Alive(s'.sockets[r]) && !s'.sockets[r].admitted && KeyOf(s.sockets[r]) !in s'.rooms
            else s'.sockets[r].connected && s.sockets[r].id in s'.rooms[KeyOf(s.sockets[r])]
  {
  }

  /** Closing a connection, from either side, closes all sockets of the client and no other. */
  lemma GoneClosesExactly(s: State, client: Client)
    requires Inv(s)
    ensures var s' := AfterGone(s, client);
            && s'.sockets.Keys == s.sockets.Keys && (forall k | k in s'.ofClient :: k.0 != client)
            && (forall r | r in s.sockets ::
                  if s.sockets[r].client == client && s.sockets[r].connected
                  then !Alive(s'.sockets[r]) && s'.sockets[r].disconnects == 1
                  else s'.sockets[r] == s.sockets[r])
  {
    EntriesAreSockets(s, client);
    forall k | k in AfterGone(s, client).ofClient ensures k.0 != client {
      NextEntryOfOther(s, SocketsOf(s, client), k);
    }
  }

  lemma NextEntryOfOther(s: State, rs: set<Ref>, k: (Client, SocketId))
    requires EntriesSound(s) && k in s.ofClient && k !in ClientKeysOf(s.sockets, rs)
    ensures s.ofClient[k] !in rs
  {
  }

  // ---------- ids in use ----------

  /** A connected socket has the id, in the namespace or with the client. */
  ghost predicate InUse(s: State, client: Client, nsp: Nsp, id: SocketId) {
    exists t :: t in s.sockets && s.sockets[t].connected && s.sockets[t].id == id &&
                (s.sockets[t].nsp == nsp || s.sockets[t].client == client)
  }

  /** Connecting a socket leaves all connected sockets in place exactly when no connected one has its id. */
  lemma FreeIdNeededIff(s: State, r: Ref, client: Client, nsp: Nsp, id: SocketId, restored: Option<set<Room>>)
    requires Inv(s) && r !in s.sockets && client in s.open
    requires forall t | t in s.sockets && Alive(s.sockets[t]) ::
               s.sockets[t].client != client || s.sockets[t].nsp != nsp
    ensures AllInPlace(AfterConnect(AfterCreate(s, r, client, nsp, id, restored), r)) <==> !InUse(s, client, nsp, id)
  {
    if InUse(s, client, nsp, id) {
      UsedIdDisplaces(s, r, client, nsp, id, restored);
    } else {
      FreeIdDisplacesNobody(s, r, client, nsp, id, restored);
    }
  }

  lemma FreeIdDisplacesNobody(s: State, r: Ref, client: Client, nsp: Nsp, id: SocketId, restored: Option<set<Room>>)
    requires AllInPlace(s) && r !in s.sockets && !InUse(s, client, nsp, id)
    requires forall t | t in s.sockets && s.sockets[t].connected ::
               s.sockets[t].client != client || s.sockets[t].nsp != nsp
    ensures AllInPlace(AfterConnect(AfterCreate(s, r, client, nsp, id, restored), r))
  {
    var s0 := s.(sockets := s.sockets[r := Socket(id, nsp, client, false, true, false, 0)]);
    PendingKeepsPlaces(s, s0);
    if restored.Some? && restored.value != {} {
      JoinKeepsPlaces(s0, r, restored.value);
    }
    NewKeyKeepsPlaces(AfterCreate(s, r, client, nsp, id, restored), r);
  }

  lemma NewKeyKeepsPlaces(s: State, r: Ref)
    requires AllInPlace(s) && r in s.sockets && Pending(s.sockets[r])
    requires forall t | t in s.sockets && s.sockets[t].connected ::
               var x, y := s.sockets[t], s.sockets[r];
               KeyOf(x) != KeyOf(y) && (x.client, x.id) != (y.client, y.id) && (x.client, x.nsp) != (y.client, y.nsp)
    ensures AllInPlace(AfterConnect(s, r))
  {
    var s' := AfterConnect(s, r);
    forall t | t in s'.sockets && s'.sockets[t].connected ensures InPlace(s', t) {
      if t != r {
        assert InPlace(s, t) && s'.sockets[t] == s.sockets[t];
      }
    }
  }

  lemma UsedIdDisplaces(s: State, r: Ref, client: Client, nsp: Nsp, id: SocketId, restored: Option<set<Room>>)
    requires r !in s.sockets && InUse(s, client, nsp, id)
    ensures !AllInPlace(AfterConnect(AfterCreate(s, r, client, nsp, id, restored), r))
  {
    var s' := AfterConnect(AfterCreate(s, r, client, nsp, id, restored), r);
    var t :| t in s.sockets && s.sockets[t].connected && s.sockets[t].id == id &&
             (s.sockets[t].nsp == nsp || s.sockets[t].client == client);
    assert s'.sockets[t] == s.sockets[t];
    assert !InPlace(s', t);
  }

  /**
    A session that is restored while its socket is still connected: when the old socket is closed, the new one
    loses its rooms and its place in the namespace, yet stays connected.
   */
  lemma OverlapStripsNewSocket(s: State, t: Ref, r: Ref, client: Client, rooms: set<Room>)
    requires Inv(s) && t in s.sockets && s.sockets[t].connected && r !in s.sockets
    ensures var x := s.sockets[t];
            var s' := AfterClose(AfterConnect(AfterCreate(s, r, client, x.nsp, x.id, Some(rooms)), r), t);
            s'.sockets[r].connected && KeyOf(s'.sockets[r]) !in s'.registered && KeyOf(s'.sockets[r]) !in s'.rooms
  {
    var x := s.sockets[t];
    var s1 := AfterCreate(s, r, client, x.nsp, x.id, Some(rooms));
    assert s1.sockets[t] == x && s1.sockets[r].id == x.id && s1.sockets[r].nsp == x.nsp;
    ConnectThenClose(s1, r, t);
  }

  lemma ConnectThenClose(s: State, r: Ref, t: Ref)
    requires r in s.sockets && t in s.sockets && r != t && s.sockets[t].connected
    requires KeyOf(s.sockets[r]) == KeyOf(s.sockets[t])
    ensures var s' := AfterClose(AfterConnect(s, r), t);
            s'.sockets[r].connected && KeyOf(s'.sockets[r]) !in s'.registered && KeyOf(s'.sockets[r]) !in s'.rooms
  {
    var s1 := AfterConnect(s, r);
    assert s1.sockets[t] == s.sockets[t] && KeyOf(s1.sockets[r]) == KeyOf(s1.sockets[t]);
  }
}
