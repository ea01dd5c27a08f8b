/**
  Connection-state recovery from end to end: one client, its server and everything that can happen in
  between, in any order: broadcasts, packets that are not logged, sweeps, room changes, connection losses that the
  server notices late or never, closings, and reconnections. The client processes the logged packets addressed to it,
  in log order and without a gap, as long as every stored session still selects what was addressed and no overtaken
  socket is closed under a newer one; and it processes none twice exactly when no connection is lost while replayed
  packets wait in its buffer.
 */
module Recovery {
  import opened Common
  import opened RoomIndex
  import opened SessionAwareAdapter
  import opened ClientSocket
  import Yeast

  /** A packet ever persisted, with the rooms the client's socket had when it was broadcast. */
  datatype Entry = Entry(packet: Packet, members: Option<set<Room>>)

  /** What travels from the server to the client. */
  datatype Frame = Event(data: Data) | Connect

  datatype System = System(
    pid: Pid,
    sid: Room,
    maxDuration: int,
    // every packet ever persisted, and the clock readings its ids were made from
    history: seq<Entry>,
    clock: seq<nat>,
    // the server: log and sessions
    now: nat,
    log: seq<Packet>,
    sessions: Sessions,
    // the newest socket of the session: not closed yet, and the one the namespace knows under the id
    open: bool,
    placed: bool,
    // older sockets that were overtaken by a reconnection and not closed yet
    overtaken: nat,
    // the rooms the index lists for the id, if any, and the rooms the client has or had when last connected
    index: Option<set<Room>>,
    rooms: set<Room>,
    // the connection
    up: bool,
    wire: seq<Frame>,
    client: Client)

  datatype Step =
    | Broadcast(args: Data, opts: Options, at: nat)
    | Signal(args: Data, opts: Options)
    | Tick(at: nat)
    | Join(joining: set<Room>)
    | Leave(room: Room)
    | FrameArrives
    | ConnectionLost
    | ServerCloses(recoverable: bool, at: nat)
    | OvertakenCloses(recoverable: bool, at: nat)
    | Reconnect(at: nat)

  function Addressed(e: Entry): bool {
    e.members.Some? && Included(e.members.value, e.packet.opts)
  }

  /** The packets addressed to the client, in log order. */
  function Inbox(history: seq<Entry>): seq<Packet> {
    if history == [] then []
    else
      var last := history[|history| - 1];
      Inbox(history[..|history| - 1]) + (if Addressed(last) then [last.packet] else [])
  }

  function DataOf(packets: seq<Packet>): (data: seq<Data>)
    ensures |data| == |packets|
  {
    seq(|packets|, i requires 0 <= i < |packets| => packets[i].data)
  }

  function Packets(history: seq<Entry>): (ps: seq<Packet>)
    ensures |ps| == |history|
  {
    seq(|history|, i requires 0 <= i < |history| => history[i].packet)
  }

  function Events(data: seq<Data>): (frames: seq<Frame>)
    ensures |frames| == |data|
  {
    seq(|data|, i requires 0 <= i < |data| => Event(data[i]))
  }

  function Listed(s: System): set<Room> {
    if s.index.Some? then s.index.value else {}
  }

  /** A live packet goes to the socket the namespace knows, if the index lists it in the right rooms. */
  predicate Hears(s: System, opts: Options) {
    s.placed && s.up && s.index.Some? && Included(s.index.value, opts)
  }

  function AfterBroadcast(s: System, args: Data, opts: Options, at: nat): System {
    var id := Yeast.Advance(Yeast.Run(s.clock).0, at).1;
    var packet := Packet(id, at, args + [Text(id)], opts);
    s.(now := at, clock := s.clock + [at], log := s.log + [packet],
       history := s.history + [Entry(packet, Some(s.rooms))],
       wire := if Hears(s, opts) then s.wire + [Event(packet.data)] else s.wire)
  }

  /** A packet that is not logged, because it is volatile or asks for an acknowledgement. */
  function AfterSignal(s: System, args: Data, opts: Options): System {
    s.(wire := if Hears(s, opts) then s.wire + [Event(args)] else s.wire)
  }

  function AfterTick(s: System, at: nat): System {
    s.(now := at, sessions := AliveSessions(s.sessions, at - s.maxDuration),
       log := Pruned(s.log, at - s.maxDuration))
  }

  function AfterJoin(s: System, joining: set<Room>): System {
    s.(index := Some(Listed(s) + joining), rooms := s.rooms + joining)
  }

  function AfterLeave(s: System, room: Room): System {
    s.(index := if s.index.Some? then Some(s.index.value - {room}) else None, rooms := s.rooms - {room})
  }

  function AfterFrame(s: System): System
    requires s.wire != []
  {
    s.(wire := s.wire[1..],
       client := match s.wire[0]
                 case Event(data) => OnEvent(s.client, data)
                 case Connect => OnConnect(s.client, s.pid))
  }

  function AfterLoss(s: System): System {
    s.(up := false, wire := [], client := OnClose(s.client))
  }

  /** Closing any socket of the session stores the rooms listed for the id, then clears index and namespace of it. */
  function AfterClosing(s: System, recoverable: bool, at: nat): System {
    s.(now := at, placed := false, index := None,
       sessions := if recoverable then s.sessions[s.pid := StoredSession(Listed(s), at)] else s.sessions)
  }

  function AfterClose(s: System, recoverable: bool, at: nat): System {
    AfterClosing(s, recoverable, at).(open := false)
  }

  function AfterOvertakenClose(s: System, recoverable: bool, at: nat): System
    requires s.overtaken > 0
  {
    AfterClosing(s, recoverable, at).(overtaken := s.overtaken - 1)
  }

  /** The new socket joins the stored rooms under the old id, replays, and takes the place of the one before. */
  function AfterRestore(s: System, session: Session, at: nat): System {
    var rooms := Listed(s) + session.rooms + {s.sid};
    s.(now := at, overtaken := if s.open then s.overtaken + 1 else s.overtaken, open := true, placed := true,
       index := Some(rooms), rooms := rooms, up := true, wire := Events(session.missed) + [Connect])
  }

  /** One step; None when the step cannot happen or a restore fails. */
  ghost function Next(s: System, step: Step): Option<System> {
    match step
    case Broadcast(args, opts, at) => if at < s.now then None else Some(AfterBroadcast(s, args, opts, at))
    case Signal(args, opts) => if EndsInText(args) then None else Some(AfterSignal(s, args, opts))
    case Tick(at) => if at < s.now then None else Some(AfterTick(s, at))
    case Join(joining) => if s.open || s.overtaken > 0 then Some(AfterJoin(s, joining)) else None
    case Leave(room) => if s.open || s.overtaken > 0 then Some(AfterLeave(s, room)) else None
    case FrameArrives => if s.wire == [] then None else Some(AfterFrame(s))
    case ConnectionLost => if s.up then Some(AfterLoss(s)) else None
    case ServerCloses(recoverable, at) =>
      if s.open && s.now <= at then Some(AfterClose(s, recoverable, at)) else None
    case OvertakenCloses(recoverable, at) =>
      if s.overtaken > 0 && s.now <= at then Some(AfterOvertakenClose(s, recoverable, at)) else None
    case Reconnect(at) =>
      if s.up || at < s.now || s.client.lastOffset.None? then None
      else
        match Restored(s.sessions, s.log, s.maxDuration, s.pid, s.client.lastOffset.value, at)
        case None => None
        case Some(session) => Some(AfterRestore(s, session, at))
  }

  ghost function Stepping(): (System, Step) -> Option<System> {
    (s, step) => Next(s, step)
  }

  ghost function Run(s: System, steps: seq<Step>): Option<System> {
    Fold(Stepping(), s, steps)
  }

  /** The logged packets among some events: those that end in text. */
  function Logged(events: seq<Data>): seq<Data> {
    Filter(EndsInText, events)
  }

  /** No connection is lost while logged packets wait in the client's buffer. */
  ghost predicate NoLossDuringReplay(s: System, steps: seq<Step>)
    requires Run(s, steps).Some?
    decreases |steps|
  {
    steps != [] ==>
      && !LosesReplay(s, steps[0])
      && NoLossDuringReplay(Next(s, steps[0]).value, steps[1..])
  }

  predicate LosesReplay(s: System, step: Step) {
    step.ConnectionLost? && Logged(s.client.receiveBuffer) != []
  }

  /** The given rooms select from the packets behind the offset packet exactly those addressed to the client. */
  ghost predicate Agrees(history: seq<Entry>, offset: string, rooms: set<Room>) {
    forall i, j | 0 <= i < j < |history| && history[i].packet.id == offset ::
      Included(rooms, history[j].packet.opts) <==> Addressed(history[j])
  }

  /**
    A reconnection that finds a stored session whose rooms do not select what was addressed since the offset, or
    the closing of an overtaken socket while the newer one is in its place and connected.
   */
  ghost predicate Disturbs(s: System, step: Step) {
    match step
    case Reconnect(_) =>
      s.client.lastOffset.Some? && s.pid in s.sessions &&
      !Agrees(s.history, s.client.lastOffset.value, s.sessions[s.pid].rooms)
    case OvertakenCloses(_, _) => s.placed && s.up
    case _ => false
  }

  ghost predicate Undisturbed(s: System, steps: seq<Step>)
    requires Run(s, steps).Some?
    decreases |steps|
  {
    steps != [] ==> !Disturbs(s, steps[0]) && Undisturbed(Next(s, steps[0]).value, steps[1..])
  }

  /** A fresh client whose connection the server has just accepted, on a server with any past. */
  ghost predicate Start(s: System) {
    && s.pid != "" && s.open && s.placed && s.overtaken == 0 && s.index == Some(s.rooms)
    && s.up && s.wire == [Connect]
    && s.client == Client(false, "", None, [], [])
    && (forall e | e in s.history :: e.members == None)
    && GoodLog(s)
  }

  /** Both ends are connected and nothing is on the way. */
  predicate Settled(s: System) {
    s.open && s.up && s.client.connected && s.wire == []
  }

  /** The log is the end of the history, whose ids come from the generator and end each packet's data. */
  ghost predicate GoodLog(s: System) {
    && |s.clock| == |s.history|
    && Yeast.NonDecreasing(s.clock)
    && (forall i | 0 <= i < |s.clock| :: s.clock[i] <= s.now)
    && (forall i | 0 <= i < |s.history| :: s.history[i].packet.id == Yeast.Ids(s.clock)[i])
    && (forall e | e in s.history :: e.packet.data != [] &&
                                     e.packet.data[|e.packet.data| - 1] == Text(e.packet.id))
    && SuffixOf(s.log, Packets(s.history))
  }

  // ---------- the main results ----------

  /**
    In every undisturbed run the client has processed of the logged packets, without repetition, a prefix of what is
    addressed to it, as long as no connection was lost during a replay. Once the system settles it has processed all
    of it, each packet once and in log order, exactly when that is so. Packets that are not logged may come at any time.
   */
  lemma ExactlyOnceIff(s0: System, steps: seq<Step>)
    requires Start(s0) && Run(s0, steps).Some? && Undisturbed(s0, steps)
    ensures var s := Run(s0, steps).value;
            && (NoLossDuringReplay(s0, steps) ==> Logged(s.client.processed) <= DataOf(Inbox(s.history)))
            && (Settled(s) ==>
                  (Logged(s.client.processed) == DataOf(Inbox(s.history)) <==> NoLossDuringReplay(s0, steps)))
  {
    var m := StartInv(s0);
    var m' := RunKeeps(s0, steps, true, m);
    InvMeans(Run(s0, steps).value, NoLossDuringReplay(s0, steps), m');
  }

  lemma InvMeans(s: System, clean: bool, m: Marks)
    requires Inv(Erased(s), clean, m)
    ensures clean ==> Logged(s.client.processed) <= DataOf(Inbox(s.history))
    ensures Settled(s) ==> (Logged(s.client.processed) == DataOf(Inbox(s.history)) <==> clean)
  {
    var inbox := DataOf(Inbox(s.history));
    assert inbox[..|inbox|] == inbox;
  }

  lemma StartInv(s: System) returns (m: Marks)
    requires Start(s)
    ensures Inv(Erased(s), true, m)
  {
    assert Audible([Connect]) == [Connect];
    assert Erased(s) == s;
    m := Marks(0, 0, 0, 0, 0);
    InboxEmpty(s.history);
    assert Connecting([], s.up, s.wire, s.client, m);
  }

  /** In every undisturbed continuation without loss during a replay, a settled client has exactly its packets. */
  ghost predicate StaysExact(s: System) {
    forall more | Run(s, more).Some? && Undisturbed(s, more) && NoLossDuringReplay(s, more) :: ExactIfSettled(s, more)
  }

  ghost predicate ExactIfSettled(s: System, more: seq<Step>)
    requires Run(s, more).Some?
  {
    var s' := Run(s, more).value;
    Settled(s') ==> Logged(s'.client.processed) == DataOf(Inbox(s'.history))
  }

  /**
    The condition on the steps is exact: after a good run, a step leaves a system that always stays exact if and
    only if it does not disturb. Every disturbing step can be followed by nothing but arriving packets
    and a broadcast, and the client has lost a packet or got one that was not for it.
   */
  lemma StaysExactIff(s0: System, steps: seq<Step>, step: Step)
    requires Start(s0) && Run(s0, steps).Some? && Undisturbed(s0, steps) && NoLossDuringReplay(s0, steps)
    requires Next(Run(s0, steps).value, step).Some? && !LosesReplay(Run(s0, steps).value, step)
    ensures StaysExact(Next(Run(s0, steps).value, step).value) <==> !Disturbs(Run(s0, steps).value, step)
  {
    var s := Run(s0, steps).value;
    var m0 := StartInv(s0);
    var m := RunKeeps(s0, steps, true, m0);
    if Disturbs(s, step) {
      if step.Reconnect? {
        StaleSessionMisses(s, step.at, m);
      } else {
        OvertakenCloseStrips(s, step.recoverable, step.at, m);
      }
    } else {
      var m' := StepKeeps(s, step, true, m);
      InvStaysExact(Next(s, step).value, m');
    }
  }

  // ---------- the invariant ----------

  /**
    Positions in the inbox: `seen` packets lie up to the client's offset, the buffer reaches to `buffered`,
    the frames before the Connect frame to `replayed`, all frames to `sent`. The first `stale` packets in the
    buffer were left by lost connections.
   */
  datatype Marks = Marks(seen: nat, buffered: nat, replayed: nat, sent: nat, stale: nat)

  ghost predicate Connected(inbox: seq<Data>, up: bool, wire: seq<Frame>, c: Client, m: Marks) {
    && m.seen <= m.sent <= |inbox| && m.stale == 0
    && up && c.connected && c.receiveBuffer == []
    && wire == Events(inbox[m.seen..m.sent])
  }

  ghost predicate Connecting(inbox: seq<Data>, up: bool, wire: seq<Frame>, c: Client, m: Marks) {
    && m.seen <= m.buffered <= m.replayed <= m.sent <= |inbox|
    && m.stale <= |c.receiveBuffer|
    && up && !c.connected
    && c.receiveBuffer[m.stale..] == inbox[m.seen..m.buffered]
    && wire == Events(inbox[m.buffered..m.replayed]) + [Connect] + Events(inbox[m.replayed..m.sent])
    && (m.stale > 0 ==> m.seen < m.replayed)
  }

  ghost predicate Disconnected(inbox: seq<Data>, up: bool, wire: seq<Frame>, c: Client, m: Marks) {
    && m.seen <= |inbox| && m.stale == |c.receiveBuffer|
    && !up && !c.connected && wire == []
    && (m.stale > 0 ==> m.seen < |inbox|)
  }

  /** The buffer and the frames on the way continue where the client's offset is. */
  ghost predicate Link(inbox: seq<Data>, live: bool, up: bool, wire: seq<Frame>, c: Client, m: Marks) {
    && (Connected(inbox, up, wire, c, m) || Connecting(inbox, up, wire, c, m) || Disconnected(inbox, up, wire, c, m))
    && (live && up ==> m.sent == |inbox|)
  }

  /** What the client has processed. `clean`: no connection was lost during a replay so far. */
  ghost predicate Progress(inbox: seq<Packet>, c: Client, clean: bool, seen: nat, stale: nat) {
    && seen <= |inbox|
    && c.lastOffset == (if seen == 0 then None else Some(inbox[seen - 1].id))
    && |c.processed| + stale >= seen
    && (clean <==> |c.processed| + stale == seen)
    && (clean ==> stale == 0 && c.processed == DataOf(inbox)[..seen])
  }

  ghost predicate Inv(s: System, clean: bool, m: Marks) {
    && s.pid != "" && GoodLog(s)
    && (s.client.connected || m.seen > 0 ==> s.client.pid == s.pid)
    && (s.open && s.up ==> s.placed && s.index == Some(s.rooms)) && (s.placed ==> s.open)
    && Link(DataOf(Inbox(s.history)), s.open, s.up, s.wire, s.client, m)
    && Progress(Inbox(s.history), s.client, clean, m.seen, m.stale)
  }

  lemma {:induction false} RunKeeps(s: System, steps: seq<Step>, clean: bool, m: Marks) returns (m': Marks)
    requires Inv(Erased(s), clean, m) && Run(s, steps).Some? && Undisturbed(s, steps)
    ensures Inv(Erased(Run(s, steps).value), clean && NoLossDuringReplay(s, steps), m')
    decreases |steps|
  {
    if steps == [] {
      m' := m;
    } else {
      m' := StepKeeps(s, steps[0], clean, m);
      m' := RunKeeps(Next(s, steps[0]).value, steps[1..], clean && !LosesReplay(s, steps[0]), m');
    }
  }

  lemma StepKeeps(s: System, step: Step, clean: bool, m: Marks) returns (m': Marks)
    requires Inv(Erased(s), clean, m) && Next(s, step).Some? && !Disturbs(s, step)
    ensures Inv(Erased(Next(s, step).value), clean && !LosesReplay(s, step), m')
  {
    if IsSilent(s, step) {
      SilentStep(s, step);
      m' := m;
    } else {
      ErasedStep(s, step);
      m' := LoudStepKeeps(Erased(s), step, clean, m);
    }
  }

  // ---------- packets that are not logged ----------

  predicate IsAudible(frame: Frame) {
    frame.Event? ==> EndsInText(frame.data)
  }

  function Audible(wire: seq<Frame>): seq<Frame> {
    Filter(IsAudible, wire)
  }

  function ErasedClient(c: Client): Client {
    c.(receiveBuffer := Logged(c.receiveBuffer), processed := Logged(c.processed))
  }

  /** The system without the packets that are not logged. */
  function Erased(s: System): System {
    s.(wire := Audible(s.wire), client := ErasedClient(s.client))
  }

  /** Sending a packet that is not logged, or its arrival. */
  predicate IsSilent(s: System, step: Step) {
    step.Signal? || (step.FrameArrives? && s.wire != [] && !IsAudible(s.wire[0]))
  }

  lemma LoggedSnoc(events: seq<Data>, data: Data)
    ensures Logged(events + [data]) == Logged(events) + (if EndsInText(data) then [data] else [])
  {
    FilterSnoc(EndsInText, events, data);
  }

  lemma AudibleSnoc(wire: seq<Frame>, frame: Frame)
    ensures Audible(wire + [frame]) == Audible(wire) + (if IsAudible(frame) then [frame] else [])
  {
    FilterSnoc(IsAudible, wire, frame);
  }

  lemma AudibleTail(wire: seq<Frame>)
    requires wire != []
    ensures Audible(wire) == (if IsAudible(wire[0]) then [wire[0]] else []) + Audible(wire[1..])
  {
  }

  lemma SilentStep(s: System, step: Step)
    requires IsSilent(s, step) && Next(s, step).Some?
    ensures Erased(Next(s, step).value) == Erased(s) && !LosesReplay(s, step)
  {
    if step.Signal? {
      AudibleSnoc(s.wire, Event(step.args));
    } else {
      AudibleTail(s.wire);
      ErasedOnEvent(s.client, s.wire[0].data);
    }
  }

  lemma ErasedOnEvent(c: Client, data: Data)
    ensures ErasedClient(OnEvent(c, data)) ==
            if EndsInText(data) then OnEvent(ErasedClient(c), data) else ErasedClient(c)
  {
    LoggedSnoc(c.processed, data);
    LoggedSnoc(c.receiveBuffer, data);
  }

  /** All other steps do to the erased system what they do to the system. */
  lemma ErasedStep(s: System, step: Step)
    requires GoodLog(s) && !IsSilent(s, step) && Next(s, step).Some?
    ensures Next(Erased(s), step) == Some(Erased(Next(s, step).value))
  {
    match step
    case Broadcast(args, opts, at) => ErasedBroadcast(s, args, opts, at);
    case FrameArrives => ErasedFrame(s);
    case Reconnect(at) => ErasedReconnect(s, at);
    case _ => ErasedOther(s, step);
  }

  lemma ErasedOther(s: System, step: Step)
    requires Next(s, step).Some? && !step.Signal? && !step.Broadcast? && !step.FrameArrives? && !step.Reconnect?
    ensures Next(Erased(s), step) == Some(Erased(Next(s, step).value))
  {
  }

  lemma ErasedBroadcast(s: System, args: Data, opts: Options, at: nat)
    ensures AfterBroadcast(Erased(s), args, opts, at) == Erased(AfterBroadcast(s, args, opts, at))
  {
    var data := args + [Text(Yeast.Advance(Yeast.Run(s.clock).0, at).1)];
    AudibleSnoc(s.wire, Event(data));
  }

  lemma ErasedFrame(s: System)
    requires s.wire != [] && IsAudible(s.wire[0])
    ensures Erased(s).wire != [] && AfterFrame(Erased(s)) == Erased(AfterFrame(s))
  {
    AudibleTail(s.wire);
    var tail := Audible(s.wire[1..]);
    assert ([s.wire[0]] + tail)[1..] == tail;
    if s.wire[0].Event? {
      ErasedOnEvent(s.client, s.wire[0].data);
    } else {
      ErasedEmissions(s.client.(pid := s.pid, connected := true), s.client.receiveBuffer);
      EmittedAllKeepsBuffer(s.client.(pid := s.pid, connected := true), s.client.receiveBuffer);
    }
  }

  /** Events that do not end in text change nothing but what is processed. */
  lemma {:induction false} ErasedEmissions(c: Client, events: seq<Data>)
    ensures EmittedAll(ErasedClient(c), Logged(events)) == ErasedClient(EmittedAll(c, events))
  {
    if events != [] {
      var front, last := events[..|events| - 1], events[|events| - 1];
      ErasedEmissions(c, front);
      assert events == front + [last];
      LoggedSnoc(front, last);
      ErasedEmitted(EmittedAll(c, front), last);
      EmittedSnoc(ErasedClient(c), Logged(front), last);
    }
  }

  lemma ErasedEmitted(c: Client, data: Data)
    ensures ErasedClient(Emitted(c, data)) ==
            if EndsInText(data) then Emitted(ErasedClient(c), data) else ErasedClient(c)
  {
    LoggedSnoc(c.processed, data);
  }

  lemma EmittedSnoc(c: Client, events: seq<Data>, data: Data)
    ensures EmittedAll(c, events + [data]) == Emitted(EmittedAll(c, events), data)
    ensures events + [] == events
  {
    assert (events + [data])[..|events|] == events;
  }

  lemma ErasedReconnect(s: System, at: nat)
    requires GoodLog(s) && Next(s, Reconnect(at)).Some?
    ensures Next(Erased(s), Reconnect(at)) == Some(Erased(Next(s, Reconnect(at)).value))
  {
    var session := ReconnectRestores(s, at);
    ReplayIsLogged(s, session);
    AllAudible(session.missed);
    assert Erased(AfterRestore(s, session, at)) == AfterRestore(Erased(s), session, at);
  }

  lemma AllAudible(missed: seq<Data>)
    requires forall d | d in missed :: EndsInText(d)
    ensures Audible(Events(missed) + [Connect]) == Events(missed) + [Connect]
  {
    FilterAll(IsAudible, Events(missed) + [Connect]);
  }

  lemma LogEndsInText(s: System, p: Packet)
    requires GoodLog(s) && p in s.log
    ensures EndsInText(p.data)
  {
    var i :| 0 <= i < |s.log| && s.log[i] == p;
    var j := |s.history| - |s.log| + i;
    assert Packets(s.history)[j] == p && s.history[j] in s.history;
  }

  lemma {:induction false} MissedIsLogged(packets: seq<Packet>, rooms: set<Room>)
    requires forall p | p in packets :: EndsInText(p.data)
    ensures forall d | d in Missed(packets, rooms) :: EndsInText(d)
  {
    if packets != [] {
      MissedIsLogged(packets[..|packets| - 1], rooms);
    }
  }

  /** A packet that is not logged reaches a settled client whose rooms it is for, and leaves the offset alone. */
  lemma SignalArrives(s: System, args: Data, opts: Options)
    requires Settled(s) && s.placed && !EndsInText(args)
    ensures var s' := Run(s, [Signal(args, opts), FrameArrives]);
            if s.index.Some? && Included(s.index.value, opts)
            then s' == Some(s.(client := s.client.(processed := s.client.processed + [args])))
            else s' == None && Next(s, Signal(args, opts)) == Some(s)
  {
    var steps := [Signal(args, opts), FrameArrives];
    var s1 := AfterSignal(s, args, opts);
    assert steps[1..] == [FrameArrives] && [FrameArrives][1..] == [];
    assert Run(s, steps) == Run(s1, [FrameArrives]);
    if Hears(s, opts) {
      assert s1.wire == [Event(args)] && s1.wire[1..] == [];
      assert Run(s1, [FrameArrives]) == Run(AfterFrame(s1), []);
    }
  }

  // ---------- all other steps ----------

  lemma LoudStepKeeps(s: System, step: Step, clean: bool, m: Marks) returns (m': Marks)
    requires Inv(s, clean, m) && Next(s, step).Some? && !Disturbs(s, step) && !step.Signal?
    ensures Inv(Next(s, step).value, clean && !(step.ConnectionLost? && s.client.receiveBuffer != []), m')
  {
    m' := m;
    match step
    case Broadcast(args, opts, at) => m' := BroadcastKeeps(s, args, opts, at, clean, m);
    case FrameArrives => m' := FrameKeeps(s, clean, m);
    case ConnectionLost => m' := LossKeeps(s, clean, m);
    case Reconnect(at) => m' := ReconnectKeeps(s, at, clean, m);
    case _ => ServerStepKeeps(s, step, clean, m);
  }

  /** Steps of the server that send nothing. */
  lemma ServerStepKeeps(s: System, step: Step, clean: bool, m: Marks)
    requires Inv(s, clean, m) && Next(s, step).Some? && !Disturbs(s, step)
    requires !step.Broadcast? && !step.FrameArrives? && !step.ConnectionLost? && !step.Reconnect? && !step.Signal?
    ensures Inv(Next(s, step).value, clean, m)
  {
    match step
    case Tick(at) => TickKeeps(s, at, clean, m);
    case Join(joining) => RoomsKeep(s, AfterJoin(s, joining), clean, m);
    case Leave(room) => RoomsKeep(s, AfterLeave(s, room), clean, m);
    case ServerCloses(recoverable, at) => CloseKeeps(s, recoverable, at, clean, m);
    case OvertakenCloses(recoverable, at) => OvertakenCloseKeeps(s, recoverable, at, clean, m);
  }

  // ---------- one step at a time ----------

  lemma RoomsKeep(s: System, s': System, clean: bool, m: Marks)
    requires Inv(s, clean, m) && s' == s.(index := s'.index, rooms := s'.rooms)
    requires s.index == Some(s.rooms) ==> s'.index == Some(s'.rooms)
    ensures Inv(s', clean, m)
  {
  }

  lemma BroadcastKeeps(s: System, args: Data, opts: Options, at: nat, clean: bool, m: Marks) returns (m': Marks)
    requires Inv(s, clean, m) && s.now <= at
    ensures Inv(AfterBroadcast(s, args, opts, at), clean, m')
  {
    var s' := AfterBroadcast(s, args, opts, at);
    var e := s'.history[|s.history|];
    GoodLogGrows(s, args, opts, at);
    InboxSnoc(s.history, e);
    var inbox := Inbox(s.history);
    m' := m;
    if Addressed(e) {
      DataOfSnoc(inbox, e.packet);
      m' := LinkGrows(DataOf(inbox), e.packet.data, s.open, s.up, s.wire, s.client, m);
      ProgressGrows(inbox, e.packet, s.client, clean, m.seen, m.stale);
      assert s'.wire == if s.open && s.up then s.wire + [Event(e.packet.data)] else s.wire;
      assert Inbox(s'.history) == inbox + [e.packet];
    } else {
      assert Inbox(s'.history) == inbox && s'.wire == s.wire;
    }
  }

  lemma DataOfSnoc(ps: seq<Packet>, p: Packet)
    ensures DataOf(ps + [p]) == DataOf(ps) + [p.data]
  {
  }

  lemma TickKeeps(s: System, at: nat, clean: bool, m: Marks)
    requires Inv(s, clean, m) && s.now <= at
    ensures Inv(AfterTick(s, at), clean, m)
  {
    SuffixOfSuffix(Packets(s.history), s.log, at - s.maxDuration);
  }

  lemma LossKeeps(s: System, clean: bool, m: Marks) returns (m': Marks)
    requires Inv(s, clean, m) && s.up
    ensures Inv(AfterLoss(s), clean && s.client.receiveBuffer == [], m')
  {
    m' := m.(stale := |s.client.receiveBuffer|);
  }

  lemma CloseKeeps(s: System, recoverable: bool, at: nat, clean: bool, m: Marks)
    requires Inv(s, clean, m) && s.open && s.now <= at
    ensures Inv(AfterClose(s, recoverable, at), clean, m)
  {
  }

  lemma OvertakenCloseKeeps(s: System, recoverable: bool, at: nat, clean: bool, m: Marks)
    requires Inv(s, clean, m) && s.overtaken > 0 && s.now <= at && !(s.placed && s.up)
    ensures Inv(AfterOvertakenClose(s, recoverable, at), clean, m)
  {
  }

  lemma LinkGrows(inbox: seq<Data>, data: Data, live: bool, up: bool, wire: seq<Frame>, c: Client, m: Marks)
    returns (m': Marks)
    requires Link(inbox, live, up, wire, c, m)
    ensures Link(inbox + [data], live, up, if live && up then wire + [Event(data)] else wire, c, m')
    ensures m'.seen == m.seen && m'.stale == m.stale
  {
    var inbox' := inbox + [data];
    m' := if live && up then m.(sent := m.sent + 1) else m;
    assert forall i, j | 0 <= i <= j <= |inbox| :: inbox'[i..j] == inbox[i..j];
    if live && up {
      var from := if c.connected then m.seen else m.replayed;
      assert inbox'[from..m'.sent] == inbox[from..m.sent] + [data];
      assert Events(inbox'[from..m'.sent]) == Events(inbox[from..m.sent]) + [Event(data)];
    }
  }

  lemma ProgressGrows(inbox: seq<Packet>, p: Packet, c: Client, clean: bool, seen: nat, stale: nat)
    requires Progress(inbox, c, clean, seen, stale)
    ensures Progress(inbox + [p], c, clean, seen, stale)
  {
    assert DataOf(inbox + [p])[..seen] == DataOf(inbox)[..seen];
  }

  lemma GoodLogGrows(s: System, args: Data, opts: Options, at: nat)
    requires GoodLog(s) && s.now <= at
    ensures GoodLog(AfterBroadcast(s, args, opts, at))
  {
    var s' := AfterBroadcast(s, args, opts, at);
    var p := s'.history[|s.history|].packet;
    Yeast.IdsSnoc(s.clock, at);
    var cut := |s.history| - |s.log|;
    assert Packets(s'.history) == Packets(s.history) + [p];
    assert Packets(s'.history)[cut..] == Packets(s.history)[cut..] + [p];
  }

  lemma SuffixOfSuffix(all: seq<Packet>, log: seq<Packet>, threshold: int)
    requires SuffixOf(log, all)
    ensures SuffixOf(Pruned(log, threshold), all)
  {
    SweepKeepsUnexpiredIff(log, threshold);
    var kept := Pruned(log, threshold);
    assert all[|all| - |log|..][|log| - |kept|..] == all[|all| - |kept|..];
  }

  lemma FrameKeeps(s: System, clean: bool, m: Marks) returns (m': Marks)
    requires Inv(s, clean, m) && s.wire != []
    ensures Inv(AfterFrame(s), clean, m')
  {
    var inbox := Inbox(s.history);
    forall x | 0 <= x < |inbox| ensures EndsWithId(inbox[x]) {
      InboxDataEndsWithId(s, x);
    }
    m' := LinkMoves(inbox, s.pid, s.open, s.up, s.wire, s.client, clean, m);
  }

  ghost predicate EndsWithId(p: Packet) {
    p.data != [] && p.data[|p.data| - 1] == Text(p.id)
  }

  function AfterArrival(c: Client, frame: Frame, pid: Pid): Client {
    match frame
    case Event(data) => OnEvent(c, data)
    case Connect => OnConnect(c, pid)
  }

  lemma LinkMoves(inbox: seq<Packet>, pid: Pid, live: bool, up: bool, wire: seq<Frame>, c: Client,
                  clean: bool, m: Marks)
    returns (m': Marks)
    requires Link(DataOf(inbox), live, up, wire, c, m) && Progress(inbox, c, clean, m.seen, m.stale) && wire != []
    requires pid != "" && (c.connected || m.seen > 0 ==> c.pid == pid)
    requires forall x | 0 <= x < |inbox| :: EndsWithId(inbox[x])
    ensures var c' := AfterArrival(c, wire[0], pid);
            && Link(DataOf(inbox), live, up, wire[1..], c', m')
            && Progress(inbox, c', clean, m'.seen, m'.stale)
            && (c'.connected || m'.seen > 0 ==> c'.pid == pid)
  {
    var data := DataOf(inbox);
    if Connected(data, up, wire, c, m) {
      m' := m.(seen := m.seen + 1);
      LiveEventArrives(data, up, wire, c, m);
      assert EndsWithId(inbox[m.seen]);
      assert data[..m'.seen] == data[..m.seen] + [data[m.seen]];
    } else if m.buffered < m.replayed {
      m' := BufferGrows(data, up, wire, c, m);
    } else {
      m' := ConnectArrives(inbox, pid, up, wire, c, clean, m);
    }
  }

  lemma LiveEventArrives(inbox: seq<Data>, up: bool, wire: seq<Frame>, c: Client, m: Marks)
    requires Connected(inbox, up, wire, c, m) && wire != []
    ensures m.seen < m.sent && wire[0] == Event(inbox[m.seen])
    ensures wire[1..] == Events(inbox[m.seen + 1..m.sent])
  {
    var coming := inbox[m.seen..m.sent];
    assert coming[1..] == inbox[m.seen + 1..m.sent];
    assert Events(coming)[1..] == Events(coming[1..]);
  }

  lemma BufferGrows(inbox: seq<Data>, up: bool, wire: seq<Frame>, c: Client, m: Marks) returns (m': Marks)
    requires Connecting(inbox, up, wire, c, m) && m.buffered < m.replayed
    ensures wire[0] == Event(inbox[m.buffered])
    ensures m' == m.(buffered := m.buffered + 1)
    ensures Connecting(inbox, up, wire[1..], OnEvent(c, inbox[m.buffered]), m')
  {
    m' := m.(buffered := m.buffered + 1);
    var data := inbox[m.buffered];
    assert wire[1..] == Events(inbox[m'.buffered..m.replayed]) + [Connect] + Events(inbox[m.replayed..m.sent]);
    assert (c.receiveBuffer + [data])[m.stale..] == c.receiveBuffer[m.stale..] + [data];
    assert inbox[m.seen..m'.buffered] == inbox[m.seen..m.buffered] + [data];
  }

  lemma ConnectArrives(inbox: seq<Packet>, pid: Pid, up: bool, wire: seq<Frame>, c: Client, clean: bool, m: Marks)
    returns (m': Marks)
    requires Connecting(DataOf(inbox), up, wire, c, m) && m.buffered == m.replayed
    requires Progress(inbox, c, clean, m.seen, m.stale) && pid != ""
    requires forall x | 0 <= x < |inbox| :: EndsWithId(inbox[x])
    ensures wire[0] == Connect
    ensures m' == m.(seen := m.replayed, stale := 0)
    ensures Connected(DataOf(inbox), up, wire[1..], OnConnect(c, pid), m')
    ensures Progress(inbox, OnConnect(c, pid), clean, m'.seen, m'.stale)
    ensures OnConnect(c, pid).pid == pid
  {
    m' := m.(seen := m.replayed, stale := 0);
    var data := DataOf(inbox);
    assert Events(data[m.buffered..m.replayed]) == [];
    assert wire[1..] == Events(data[m.replayed..m.sent]);
    EmittedAllKeepsBuffer(c.(pid := pid, connected := true), c.receiveBuffer);
    BufferIsProcessed(inbox, pid, c, clean, m.seen, m.replayed, m.stale);
  }

  lemma BufferIsProcessed(inbox: seq<Packet>, pid: Pid, c: Client, clean: bool, seen: nat, replayed: nat, stale: nat)
    requires seen <= replayed <= |inbox| && stale <= |c.receiveBuffer| && (stale > 0 ==> seen < replayed)
    requires c.receiveBuffer[stale..] == DataOf(inbox)[seen..replayed]
    requires Progress(inbox, c, clean, seen, stale) && pid != ""
    requires forall x | 0 <= x < |inbox| :: EndsWithId(inbox[x])
    ensures Progress(inbox, OnConnect(c, pid), clean, replayed, 0)
  {
    var data, buffer, c' := DataOf(inbox), c.receiveBuffer, c.(pid := pid, connected := true);
    EmittedAllKeepsBuffer(c', buffer);
    BufferTail(data, buffer, seen, replayed, stale);
    if replayed > seen {
      assert EndsWithId(inbox[replayed - 1]);
      OffsetAfter(c', buffer, inbox[replayed - 1].id);
    }
  }

  lemma OffsetAfter(c: Client, events: seq<Data>, id: string)
    requires c.pid != "" && events != []
    requires var last := events[|events| - 1]; last != [] && last[|last| - 1] == Text(id)
    ensures EmittedAll(c, events).lastOffset == Some(id)
  {
    EmittedAllKeepsBuffer(c, events[..|events| - 1]);
  }

  /** What the buffer holds behind its stale part, seen from the inbox. */
  lemma BufferTail(data: seq<Data>, buffer: seq<Data>, seen: nat, replayed: nat, stale: nat)
    requires seen <= replayed <= |data| && stale <= |buffer| && buffer[stale..] == data[seen..replayed]
    ensures |buffer| == stale + (replayed - seen)
    ensures replayed > seen ==> buffer[|buffer| - 1] == data[replayed - 1]
    ensures stale == 0 ==> data[..seen] + buffer == data[..replayed]
  {
    assert |buffer[stale..]| == replayed - seen;
    if replayed > seen {
      assert buffer[|buffer| - 1] == buffer[stale..][replayed - seen - 1];
    }
    if stale == 0 {
      assert buffer[stale..] == buffer && data[..replayed] == data[..seen] + data[seen..replayed];
    }
  }

  lemma ReconnectKeeps(s: System, at: nat, clean: bool, m: Marks) returns (m': Marks)
    requires Inv(s, clean, m) && Next(s, Reconnect(at)).Some? && !Disturbs(s, Reconnect(at))
    ensures Inv(Next(s, Reconnect(at)).value, clean, m')
  {
    var session := ReconnectRestores(s, at);
    RestoredMissedIff(s, clean, m, session);
    m' := RestoreKeeps(s, session, at, clean, m);
  }

  /** A restored session brings exactly what the client misses if and only if the step does not disturb. */
  lemma RestoredMissedIff(s: System, clean: bool, m: Marks, session: Session)
    requires Inv(s, clean, m) && s.client.lastOffset.Some?
    requires Replays(s.log, s.client.lastOffset.value, session.rooms, session.missed)
    ensures m.seen > 0
    ensures session.missed == DataOf(Inbox(s.history))[m.seen..] <==>
            Agrees(s.history, s.client.lastOffset.value, session.rooms)
  {
    Replayable(s, clean, m);
    ReplayIsTheRestIff(s.history, s.log, s.client.lastOffset.value, session.rooms, session.missed, m.seen);
  }

  lemma Replayable(s: System, clean: bool, m: Marks)
    requires Inv(s, clean, m) && s.client.lastOffset.Some?
    ensures CanReplay(s.history, s.log, s.client.lastOffset.value, m.seen)
  {
    HistoryIdsDistinct(s);
    forall k | 0 <= k < |s.history| ensures EndsWithId(s.history[k].packet) {
      assert s.history[k] in s.history;
    }
  }

  lemma ReconnectRestores(s: System, at: nat) returns (session: Session)
    requires Next(s, Reconnect(at)).Some?
    ensures Next(s, Reconnect(at)) == Some(AfterRestore(s, session, at))
    ensures !s.up && s.now <= at && s.client.lastOffset.Some?
    ensures s.pid in s.sessions && session.rooms == s.sessions[s.pid].rooms
    ensures Replays(s.log, s.client.lastOffset.value, session.rooms, session.missed)
  {
    session := Restored(s.sessions, s.log, s.maxDuration, s.pid, s.client.lastOffset.value, at).value;
  }

  /** The packets after the one with the given id that are addressed to the given rooms. */
  ghost predicate Replays(log: seq<Packet>, offset: string, rooms: set<Room>, missed: seq<Data>) {
    var i := IndexOf(log, offset);
    i < |log| && missed == Missed(log[i + 1..], rooms)
  }

  lemma RestoreKeeps(s: System, session: Session, at: nat, clean: bool, m: Marks) returns (m': Marks)
    requires Inv(s, clean, m) && !s.up && m.seen > 0 && s.now <= at
    requires session.missed == DataOf(Inbox(s.history))[m.seen..]
    ensures Inv(AfterRestore(s, session, at), clean, m')
  {
    var inbox := DataOf(Inbox(s.history));
    m' := Marks(m.seen, m.seen, |inbox|, |inbox|, m.stale);
    LinkRestored(inbox, AfterRestore(s, session, at).wire, s.client, m, m');
  }

  lemma LinkRestored(inbox: seq<Data>, wire: seq<Frame>, c: Client, m: Marks, m': Marks)
    requires Disconnected(inbox, false, [], c, m) && wire == Events(inbox[m.seen..]) + [Connect]
    requires m' == Marks(m.seen, m.seen, |inbox|, |inbox|, m.stale)
    ensures Link(inbox, true, true, wire, c, m')
  {
    assert inbox[m.seen..] == inbox[m.seen..|inbox|];
    assert Events(inbox[|inbox|..|inbox|]) == [];
  }

  // ---------- the replay is exactly what is missing ----------

  /** Ids are distinct and end the data, the log is a suffix, and the offset is that of the last packet seen. */
  ghost predicate CanReplay(history: seq<Entry>, log: seq<Packet>, offset: string, seen: nat) {
    && DistinctHistory(history) && DataEndsWithIds(history) && SuffixOf(log, Packets(history))
    && 0 < seen <= |Inbox(history)| && Inbox(history)[seen - 1].id == offset
  }

  /** The replay is exactly what is addressed to the client behind its offset, if and only if the rooms agree. */
  lemma ReplayIsTheRestIff(history: seq<Entry>, log: seq<Packet>, offset: string, rooms: set<Room>,
                           missed: seq<Data>, seen: nat)
    requires CanReplay(history, log, offset, seen) && Replays(log, offset, rooms, missed)
    ensures missed == DataOf(Inbox(history))[seen..] <==> Agrees(history, offset, rooms)
  {
    var j := LogPosition(history, log, IndexOf(log, offset));
    BehindPosition(history, j, offset, rooms, seen);
  }

  lemma BehindPosition(history: seq<Entry>, j: nat, offset: string, rooms: set<Room>, seen: nat)
    requires DistinctHistory(history) && DataEndsWithIds(history) && j < |history| && history[j].packet.id == offset
    requires 0 < seen <= |Inbox(history)| && Inbox(history)[seen - 1].id == offset
    ensures Missed(Packets(history)[j + 1..], rooms) == DataOf(Inbox(history))[seen..] <==>
            Agrees(history, offset, rooms)
  {
    AgreesBehind(history, offset, rooms, j);
    MissedIsTheRestIff(history, j + 1, rooms);
    RestOfInbox(history, j, seen);
  }

  lemma RestOfInbox(history: seq<Entry>, j: nat, seen: nat)
    requires DistinctHistory(history) && j < |history| && 0 < seen <= |Inbox(history)|
    requires Inbox(history)[seen - 1].id == history[j].packet.id
    ensures DataOf(Inbox(history))[seen..] == Rest(history, j + 1)
  {
    InboxPosition(history, j, seen - 1);
    InboxGrows(history, j + 1);
  }

  lemma AgreesBehind(history: seq<Entry>, offset: string, rooms: set<Room>, j: nat)
    requires DistinctHistory(history) && j < |history| && history[j].packet.id == offset
    ensures Agrees(history, offset, rooms) <==> AgreesFrom(history, j + 1, rooms)
  {
    if AgreesFrom(history, j + 1, rooms) {
      forall i, k | 0 <= i < k < |history| && history[i].packet.id == offset
        ensures Included(rooms, history[k].packet.opts) <==> Addressed(history[k])
      {
        assert i == j;
      }
    }
  }

  ghost predicate AgreesFrom(history: seq<Entry>, from: nat, rooms: set<Room>) {
    forall k | from <= k < |history| :: Included(rooms, history[k].packet.opts) <==> Addressed(history[k])
  }

  ghost predicate DataEndsWithIds(history: seq<Entry>) {
    forall k | 0 <= k < |history| :: EndsWithId(history[k].packet)
  }

  lemma LogPosition(history: seq<Entry>, log: seq<Packet>, i: nat) returns (j: nat)
    requires SuffixOf(log, Packets(history)) && i < |log|
    ensures j < |history| && log[i] == history[j].packet && log[i + 1..] == Packets(history)[j + 1..]
  {
    var cut := |history| - |log|;
    j := cut + i;
    DropDrop(Packets(history), cut, i + 1);
  }

  ghost predicate DistinctHistory(history: seq<Entry>) {
    forall i, j | 0 <= i < j < |history| :: history[i].packet.id != history[j].packet.id
  }

  lemma HistoryIdsDistinct(s: System)
    requires GoodLog(s)
    ensures DistinctHistory(s.history)
  {
    Yeast.MonotoneClockGivesDistinctIds(s.clock);
  }

  lemma InboxSnoc(history: seq<Entry>, e: Entry)
    ensures Inbox(history + [e]) == Inbox(history) + (if Addressed(e) then [e.packet] else [])
  {
    assert (history + [e])[..|history|] == history;
  }

  lemma {:induction false} InboxEmpty(history: seq<Entry>)
    requires forall e | e in history :: e.members == None
    ensures Inbox(history) == []
  {
    if history != [] {
      InboxEmpty(history[..|history| - 1]);
    }
  }

  lemma {:induction false} InboxMember(history: seq<Entry>, x: nat) returns (j: nat)
    requires x < |Inbox(history)|
    ensures j < |history| && Inbox(history)[x] == history[j].packet
  {
    var n := |history| - 1;
    if x < |Inbox(history[..n])| {
      j := InboxMember(history[..n], x);
    } else {
      j := n;
    }
  }

  lemma InboxDataEndsWithId(s: System, x: nat)
    requires GoodLog(s) && x < |Inbox(s.history)|
    ensures EndsWithId(Inbox(s.history)[x])
  {
    var j := InboxMember(s.history, x);
    assert s.history[j] in s.history;
  }

  /** The packet with a given id lies in the inbox where the entries up to its own put it. */
  lemma {:induction false} InboxPosition(history: seq<Entry>, j: nat, x: nat)
    requires DistinctHistory(history) && j < |history| && x < |Inbox(history)|
    requires Inbox(history)[x].id == history[j].packet.id
    ensures |Inbox(history[..j + 1])| == x + 1
  {
    var n := |history| - 1;
    if x < |Inbox(history[..n])| {
      var k := InboxMember(history[..n], x);
      assert j < n;
      InboxPosition(history[..n], j, x);
      assert history[..n][..j + 1] == history[..j + 1];
    } else {
      assert j == n && history[..j + 1] == history;
    }
  }

  /** What is addressed behind a position, in order. */
  function Rest(history: seq<Entry>, from: nat): seq<Data>
    requires from <= |history|
  {
    if from == |history| then []
    else
      var last := history[|history| - 1];
      Rest(history[..|history| - 1], from) + (if Addressed(last) then [last.packet.data] else [])
  }

  lemma {:induction false} InboxGrows(history: seq<Entry>, from: nat)
    requires from <= |history|
    ensures DataOf(Inbox(history)) == DataOf(Inbox(history[..from])) + Rest(history, from)
    ensures DataOf(Inbox(history))[|Inbox(history[..from])|..] == Rest(history, from)
  {
    if from == |history| {
      assert history[..from] == history;
    } else {
      var n := |history| - 1;
      InboxGrows(history[..n], from);
      assert history[..n][..from] == history[..from];
      var last := history[n];
      assert DataOf(Inbox(history)) ==
             DataOf(Inbox(history[..n])) + (if Addressed(last) then [last.packet.data] else []);
    }
  }

  /** Rooms select from the packets behind a position what is addressed there exactly when they agree on each. */
  lemma {:induction false} MissedIsTheRestIff(history: seq<Entry>, from: nat, rooms: set<Room>)
    requires DistinctHistory(history) && DataEndsWithIds(history) && from <= |history|
    ensures Missed(Packets(history)[from..], rooms) == Rest(history, from) <==> AgreesFrom(history, from, rooms)
  {
    if from < |history| {
      var n := |history| - 1;
      var front, last := history[..n], history[n];
      MissedIsTheRestIff(front, from, rooms);
      MissedSnoc(history, from, rooms);
      var a, b := Missed(Packets(front)[from..], rooms), Rest(front, from);
      MissedIsOlder(front, from, rooms, last.packet);
      RestIsOlder(front, from, last.packet);
      OneMoreEach(a, b, last.packet.data, Included(rooms, last.packet.opts), Addressed(last));
      AgreesOnLast(history, from, rooms);
    }
  }

  lemma AgreesOnLast(history: seq<Entry>, from: nat, rooms: set<Room>)
    requires from < |history|
    ensures var n, last := |history| - 1, history[|history| - 1];
            AgreesFrom(history, from, rooms) <==>
            AgreesFrom(history[..n], from, rooms) && (Included(rooms, last.packet.opts) <==> Addressed(last))
  {
    var front := history[..|history| - 1];
    assert forall k | from <= k < |front| :: front[k] == history[k];
  }

  /** Adding a new value to both, one or none of two lists that do not hold it. */
  lemma OneMoreEach(a: seq<Data>, b: seq<Data>, d: Data, inA: bool, inB: bool)
    requires d !in a && d !in b
    ensures a + (if inA then [d] else []) == b + (if inB then [d] else []) <==> a == b && inA == inB
  {
    var a', b' := a + (if inA then [d] else []), b + (if inB then [d] else []);
    assert if inA then d in a' && a'[..|a|] == a else a' == a;
    assert if inB then d in b' && b'[..|b|] == b else b' == b;
  }

  lemma MissedSnoc(history: seq<Entry>, from: nat, rooms: set<Room>)
    requires from < |history|
    ensures var n, p := |history| - 1, history[|history| - 1].packet;
            Missed(Packets(history)[from..], rooms) ==
            Missed(Packets(history[..n])[from..], rooms) + (if Included(rooms, p.opts) then [p.data] else [])
  {
    var rest := Packets(history)[from..];
    assert rest[..|rest| - 1] == Packets(history[..|history| - 1])[from..];
  }

  lemma {:induction false} MissedIsOlder(history: seq<Entry>, from: nat, rooms: set<Room>, p: Packet)
    requires from <= |history| && DataEndsWithIds(history) && EndsWithId(p)
    requires forall k | 0 <= k < |history| :: history[k].packet.id != p.id
    ensures p.data !in Missed(Packets(history)[from..], rooms)
  {
    if from < |history| {
      MissedSnoc(history, from, rooms);
      MissedIsOlder(history[..|history| - 1], from, rooms, p);
      DifferentData(history[|history| - 1].packet, p);
    }
  }

  lemma {:induction false} RestIsOlder(history: seq<Entry>, from: nat, p: Packet)
    requires from <= |history| && DataEndsWithIds(history) && EndsWithId(p)
    requires forall k | 0 <= k < |history| :: history[k].packet.id != p.id
    ensures p.data !in Rest(history, from)
  {
    if from < |history| {
      RestIsOlder(history[..|history| - 1], from, p);
      DifferentData(history[|history| - 1].packet, p);
    }
  }

  lemma DifferentData(p: Packet, q: Packet)
    requires EndsWithId(p) && EndsWithId(q) && p.id != q.id
    ensures p.data != q.data
  {
  }

  /** Rooms that have stayed the same since the offset agree: the case of a socket that was closed in time. */
  lemma StableRoomsAgree(history: seq<Entry>, offset: string, rooms: set<Room>)
    requires forall i, j | 0 <= i < j < |history| && history[i].packet.id == offset :: history[j].members == Some(rooms)
    ensures Agrees(history, offset, rooms)
  {
  }

  // ---------- ordinary recovery ----------

  /** Every packet behind the offset was broadcast while the client had the rooms it has now. */
  ghost predicate RoomsStableSinceOffset(s: System) {
    s.client.lastOffset.Some? ==>
      forall i, j | 0 <= i < j < |s.history| && s.history[i].packet.id == s.client.lastOffset.value ::
        s.history[j].members == Some(s.rooms)
  }

  /** Sessions are stored when sockets are closed, and the client comes back to a closed socket and to its old rooms. */
  ghost predicate Ordinary(s: System, step: Step) {
    match step
    case ServerCloses(recoverable, _) => recoverable
    case Reconnect(_) => !s.open && RoomsStableSinceOffset(s)
    case _ => true
  }

  ghost predicate OrdinaryRun(s: System, steps: seq<Step>)
    requires Run(s, steps).Some?
    decreases |steps|
  {
    steps != [] ==> Ordinary(s, steps[0]) && OrdinaryRun(Next(s, steps[0]).value, steps[1..])
  }

  /**
    The guarantee of recovery: the server notices each loss, any packets are broadcast while the client is away, and
    it comes back any number of times with unchanged rooms. It has then processed, without a loss during a replay,
    a prefix of what is addressed to it, and once settled exactly its packets.
   */
  lemma OrdinaryRecovery(s0: System, steps: seq<Step>)
    requires Start(s0) && Run(s0, steps).Some? && OrdinaryRun(s0, steps)
    ensures Undisturbed(s0, steps)
    ensures var s := Run(s0, steps).value;
            && (NoLossDuringReplay(s0, steps) ==> Logged(s.client.processed) <= DataOf(Inbox(s.history)))
            && (Settled(s) ==>
                  (Logged(s.client.processed) == DataOf(Inbox(s.history)) <==> NoLossDuringReplay(s0, steps)))
  {
    OrdinaryIsUndisturbed(s0, steps);
    ExactlyOnceIff(s0, steps);
  }

  /** No socket is overtaken, and the stored session of a closed one has the client's rooms. */
  ghost predicate InTime(s: System) {
    && s.overtaken == 0 && (s.open ==> s.index == Some(s.rooms))
    && (!s.open && s.pid in s.sessions ==> s.sessions[s.pid].rooms == s.rooms)
  }

  lemma {:induction false} OrdinaryIsUndisturbed(s: System, steps: seq<Step>)
    requires InTime(s) && Run(s, steps).Some? && OrdinaryRun(s, steps)
    ensures Undisturbed(s, steps)
    decreases |steps|
  {
    if steps != [] {
      OrdinaryKeepsTime(s, steps[0]);
      OrdinaryIsUndisturbed(Next(s, steps[0]).value, steps[1..]);
    }
  }

  lemma OrdinaryKeepsTime(s: System, step: Step)
    requires InTime(s) && Next(s, step).Some? && Ordinary(s, step)
    ensures InTime(Next(s, step).value) && !Disturbs(s, step)
  {
    if step.Reconnect? && s.pid in s.sessions {
      StableRoomsAgree(s.history, s.client.lastOffset.value, s.rooms);
    }
  }

  // ---------- coming back in time ----------

  /** The log is in order of time. */
  ghost predicate LogOrdered(s: System) {
    Sorted(s.log) && forall i | 0 <= i < |s.log| :: s.log[i].emittedAt <= s.now
  }

  /** The closing of a socket that stores the session. */
  predicate Stores(step: Step) {
    (step.ServerCloses? || step.OvertakenCloses?) && step.recoverable
  }

  /** What a step does to the sessions: closings store one, and a tick removes those that have expired. */
  ghost predicate SessionsMove(s: System, step: Step, s': System) {
    && (forall pid ::
          pid in s'.sessions <==>
          || (Stores(step) && pid == s.pid)
          || (pid in s.sessions && !(step.Tick? && step.at - s.sessions[pid].disconnectedAt > s.maxDuration)))
    && (Stores(step) ==> s'.sessions[s.pid] == StoredSession(Listed(s), step.at))
    && (forall pid | pid in s.sessions && pid in s'.sessions && !(Stores(step) && pid == s.pid) ::
          s'.sessions[pid] == s.sessions[pid])
  }

  /** What a step does to the log: a broadcast adds its packet, and a tick drops the oldest one if it has expired. */
  ghost predicate LogMoves(s: System, step: Step, s': System) {
    match step
    case Broadcast(args, opts, at) =>
      && s'.log != [] && s'.log[..|s'.log| - 1] == s.log
      && var p := s'.log[|s'.log| - 1];
         p.emittedAt == at && p.opts == opts && p.data == args + [Text(p.id)] &&
         s'.history == s.history + [Entry(p, Some(s.rooms))]
    case Tick(at) =>
      && s'.history == s.history
      && s'.log == if s.log != [] && at - s.log[0].emittedAt > s.maxDuration then s.log[1..] else s.log
    case _ => s'.log == s.log && s'.history == s.history
  }

  /** What a step does to the rooms of the client and to those listed for it. */
  ghost predicate RoomsMove(s: System, step: Step, s': System) {
    match step
    case Join(joining) => s'.rooms == s.rooms + joining && Listed(s') == Listed(s) + joining
    case Leave(room) => s'.rooms == s.rooms - {room} && Listed(s') == Listed(s) - {room}
    case ServerCloses(_, _) => s'.rooms == s.rooms && Listed(s') == {}
    case OvertakenCloses(_, _) => s'.rooms == s.rooms && Listed(s') == {}
    case Reconnect(_) =>
      s.pid in s.sessions && s'.rooms == Listed(s') == Listed(s) + s.sessions[s.pid].rooms + {s.sid}
    case _ => s'.rooms == s.rooms && Listed(s') == Listed(s)
  }

  /** In every run on a server whose log was in order, each step does to sessions, log and rooms what it should. */
  lemma ServerFollows(s0: System, steps: seq<Step>, step: Step)
    requires LogOrdered(s0) && Run(s0, steps).Some? && Next(Run(s0, steps).value, step).Some?
    ensures var s, s' := Run(s0, steps).value, Next(Run(s0, steps).value, step).value;
            SessionsMove(s, step, s') && LogMoves(s, step, s') && RoomsMove(s, step, s')
  {
    LogStaysOrdered(s0, steps);
    var s := Run(s0, steps).value;
    SessionsFollow(s, step);
    RoomsFollow(s, step);
    match step
    case Tick(at) => SweepDropsAtMostOne(s.log, at - s.maxDuration);
    case _ =>
  }

  lemma SessionsFollow(s: System, step: Step)
    requires Next(s, step).Some?
    ensures SessionsMove(s, step, Next(s, step).value)
  {
  }

  lemma RoomsFollow(s: System, step: Step)
    requires Next(s, step).Some?
    ensures RoomsMove(s, step, Next(s, step).value)
  {
  }

  /** What happens on the server while the client is away. */
  predicate IsAway(step: Step) {
    step.Broadcast? || step.Tick? || step.Signal?
  }

  /**
    A client whose socket was closed recoverably is restored, with the rooms it had then, if and only if it comes back
    within the maximal duration, as long as the packet of its offset is not older than that: whatever was broadcast
    and swept meanwhile.
   */
  lemma ComesBackIff(s0: System, steps: seq<Step>, t: nat, away: seq<Step>, at: nat, p: Packet)
    requires Start(s0) && LogOrdered(s0) && Run(s0, steps).Some?
    requires Next(Run(s0, steps).value, ServerCloses(true, t)).Some?
    requires var s := Run(s0, steps).value;
             !s.up && s.client.lastOffset == Some(p.id) && p in s.log && at - s.maxDuration <= p.emittedAt
    requires var s1 := AfterClose(Run(s0, steps).value, true, t);
             (forall i | 0 <= i < |away| :: IsAway(away[i])) && Run(s1, away).Some? && Run(s1, away).value.now <= at
    ensures var s, s' := Run(s0, steps).value, Run(AfterClose(Run(s0, steps).value, true, t), away).value;
            && (Next(s', Reconnect(at)).Some? <==> at <= t + s.maxDuration)
            && (at <= t + s.maxDuration ==>
                  var back := Next(s', Reconnect(at)).value;
                  back.up && back.open && back.placed && back.rooms == Listed(s) + {s.sid} == Listed(back))
  {
    LogStaysOrdered(s0, steps);
    var s := Run(s0, steps).value;
    var s1 := AfterClose(s, true, t);
    AwayKeeps(s1, away, Listed(s), t, at, p);
    RestoredInTime(Run(s1, away).value, Listed(s), t, at, p);
  }

  lemma {:induction false} LogStaysOrdered(s: System, steps: seq<Step>)
    requires LogOrdered(s) && Run(s, steps).Some?
    ensures LogOrdered(Run(s, steps).value)
    decreases |steps|
  {
    if steps != [] {
      StepKeepsOrder(s, steps[0]);
      LogStaysOrdered(Next(s, steps[0]).value, steps[1..]);
    }
  }

  lemma StepKeepsOrder(s: System, step: Step)
    requires LogOrdered(s) && Next(s, step).Some?
    ensures LogOrdered(Next(s, step).value)
  {
    match step
    case Broadcast(args, opts, at) => BroadcastKeepsOrder(s, args, opts, at);
    case Tick(at) => TickKeepsOrder(s, at);
    case _ => OthersKeepOrder(s, step);
  }

  lemma BroadcastKeepsOrder(s: System, args: Data, opts: Options, at: nat)
    requires LogOrdered(s) && s.now <= at
    ensures LogOrdered(AfterBroadcast(s, args, opts, at))
  {
  }

  lemma TickKeepsOrder(s: System, at: nat)
    requires LogOrdered(s) && s.now <= at
    ensures LogOrdered(AfterTick(s, at))
  {
    PrunedStaysOrdered(s.log, at - s.maxDuration, s.now);
  }

  lemma PrunedStaysOrdered(packets: seq<Packet>, threshold: int, now: nat)
    requires Sorted(packets) && forall i | 0 <= i < |packets| :: packets[i].emittedAt <= now
    ensures var kept := Pruned(packets, threshold);
            Sorted(kept) && forall i | 0 <= i < |kept| :: kept[i].emittedAt <= now
  {
    var i := FirstExpired(packets, threshold);
    if i < |packets| {
      var kept := packets[i + 1..];
      assert forall k | 0 <= k < |kept| :: kept[k] == packets[i + 1 + k];
    }
  }

  lemma OthersKeepOrder(s: System, step: Step)
    requires LogOrdered(s) && Next(s, step).Some? && !step.Broadcast? && !step.Tick?
    ensures LogOrdered(Next(s, step).value)
  {
  }

  /** The session was stored with these rooms at this time, and may be gone only when it has expired by then. */
  ghost predicate StoredUntil(s: System, rooms: set<Room>, t: nat, at: nat, p: Packet) {
    && !s.up && !s.open && s.index == None && s.client.lastOffset == Some(p.id)
    && (s.pid in s.sessions ==> s.sessions[s.pid] == StoredSession(rooms, t))
    && (at <= t + s.maxDuration ==> s.pid in s.sessions)
    && p in s.log && at - s.maxDuration <= p.emittedAt && LogOrdered(s)
  }

  lemma {:induction false} AwayKeeps(s: System, away: seq<Step>, rooms: set<Room>, t: nat, at: nat, p: Packet)
    requires StoredUntil(s, rooms, t, at, p) && (forall i | 0 <= i < |away| :: IsAway(away[i]))
    requires Run(s, away).Some? && Run(s, away).value.now <= at
    ensures StoredUntil(Run(s, away).value, rooms, t, at, p)
    ensures var s' := Run(s, away).value;
            s'.pid == s.pid && s'.sid == s.sid && s'.maxDuration == s.maxDuration && s.now <= s'.now
    decreases |away|
  {
    if away != [] {
      var s1 := Next(s, away[0]).value;
      TimeGoesOn(s1, away[1..]);
      AwayStepKeeps(s, away[0], rooms, t, at, p);
      AwayKeeps(s1, away[1..], rooms, t, at, p);
    }
  }

  lemma {:induction false} TimeGoesOn(s: System, steps: seq<Step>)
    requires Run(s, steps).Some?
    ensures s.now <= Run(s, steps).value.now
    decreases |steps|
  {
    if steps != [] {
      TimeGoesOn(Next(s, steps[0]).value, steps[1..]);
    }
  }

  lemma AwayStepKeeps(s: System, step: Step, rooms: set<Room>, t: nat, at: nat, p: Packet)
    requires StoredUntil(s, rooms, t, at, p) && IsAway(step) && Next(s, step).Some? && Next(s, step).value.now <= at
    ensures StoredUntil(Next(s, step).value, rooms, t, at, p)
  {
    StepKeepsOrder(s, step);
    if step.Tick? {
      FreshStays(s.log, step.at - s.maxDuration, p);
    }
  }

  /** A sweep of a log in order does not drop a packet that has not expired. */
  lemma FreshStays(packets: seq<Packet>, threshold: int, p: Packet)
    requires Sorted(packets) && p in packets && threshold <= p.emittedAt
    ensures p in Pruned(packets, threshold)
  {
    var j :| 0 <= j < |packets| && packets[j] == p;
    var i := FirstExpired(packets, threshold);
    if i < |packets| {
      assert i < j;
      assert packets[i + 1..][j - i - 1] == p;
    }
  }

  lemma RestoredInTime(s: System, rooms: set<Room>, t: nat, at: nat, p: Packet)
    requires StoredUntil(s, rooms, t, at, p) && s.now <= at
    ensures Next(s, Reconnect(at)).Some? <==> at <= t + s.maxDuration
    ensures at <= t + s.maxDuration ==>
              var back := Next(s, Reconnect(at)).value;
              back.up && back.open && back.placed && back.rooms == rooms + {s.sid} == Listed(back)
  {
    assert IndexOf(s.log, p.id) < |s.log| by {
      var j :| 0 <= j < |s.log| && s.log[j] == p;
    }
    assert {} + rooms == rooms;
  }

  // ---------- why the steps must not disturb ----------

  lemma InvStaysExact(s: System, m: Marks)
    requires Inv(Erased(s), true, m)
    ensures StaysExact(s)
  {
    forall more | Run(s, more).Some? && Undisturbed(s, more) && NoLossDuringReplay(s, more)
      ensures ExactIfSettled(s, more)
    {
      var m' := RunKeeps(s, more, true, m);
      InvMeans(Run(s, more).value, true, m');
    }
  }

  /** As many arrivals as there are frames on the way. */
  function Arrivals(n: nat): (steps: seq<Step>)
    ensures |steps| == n && forall i | 0 <= i < n :: steps[i] == FrameArrives
  {
    seq(n, _ => FrameArrives)
  }

  /** Letting everything arrive disturbs nothing and changes nothing but the client. */
  lemma {:induction false} EverythingArrives(s: System)
    ensures Run(s, Arrivals(|s.wire|)).Some?
    ensures Undisturbed(s, Arrivals(|s.wire|)) && NoLossDuringReplay(s, Arrivals(|s.wire|))
    ensures var s' := Run(s, Arrivals(|s.wire|)).value; s' == s.(wire := [], client := s'.client)
    ensures s.client.connected || Connect in s.wire ==> Run(s, Arrivals(|s.wire|)).value.client.connected
    decreases |s.wire|
  {
    var steps := Arrivals(|s.wire|);
    if s.wire != [] {
      var s1 := AfterFrame(s);
      assert steps[1..] == Arrivals(|s1.wire|);
      EverythingArrives(s1);
      assert Next(s, steps[0]) == Some(s1) && Run(s, steps) == Run(s1, steps[1..]);
      FrameConnects(s);
    }
  }

  lemma FrameConnects(s: System)
    requires s.wire != []
    ensures var s1 := AfterFrame(s);
            s.client.connected || Connect in s.wire ==> s1.client.connected || Connect in s1.wire
  {
    if s.wire[0].Connect? {
      EmittedAllKeepsBuffer(s.client.(pid := s.pid, connected := true), s.client.receiveBuffer);
    } else if Connect in s.wire {
      assert s.wire == [s.wire[0]] + s.wire[1..];
    }
  }

  /** A replay that arrives completely is processed behind what the buffer held. */
  lemma {:induction false} ReplayProcessed(s: System, missed: seq<Data>)
    requires s.wire == Events(missed) + [Connect] && !s.client.connected
    ensures Run(s, Arrivals(|s.wire|)).Some?
    ensures Run(s, Arrivals(|s.wire|)).value.client.processed == s.client.processed + s.client.receiveBuffer + missed
    decreases |missed|
  {
    var s1 := AfterFrame(s);
    assert Arrivals(|s.wire|)[1..] == Arrivals(|s.wire| - 1);
    if missed == [] {
      EmittedAllKeepsBuffer(s.client.(pid := s.pid, connected := true), s.client.receiveBuffer);
      assert Run(s1, Arrivals(0)) == Some(s1);
    } else {
      assert s1.wire == Events(missed[1..]) + [Connect];
      ReplayProcessed(s1, missed[1..]);
      assert missed == [missed[0]] + missed[1..];
    }
  }

  /** A session that does not agree: once its replay has arrived, the client has not processed what it should. */
  lemma StaleSessionMisses(s: System, at: nat, m: Marks)
    requires Inv(Erased(s), true, m) && Next(s, Reconnect(at)).Some? && Disturbs(s, Reconnect(at))
    ensures !StaysExact(Next(s, Reconnect(at)).value)
  {
    var session := ReconnectRestores(s, at);
    var s1 := AfterRestore(s, session, at);
    var inbox := DataOf(Inbox(s.history));
    RestoredMissedIff(Erased(s), true, m, session);
    assert Logged(s.client.receiveBuffer) == [] && Logged(s.client.processed) == inbox[..m.seen];
    WrongTail(inbox, m.seen, session.missed);
    ReplayIsLogged(s, session);
    WrongReplay(s1, session.missed);
  }

  lemma WrongTail(inbox: seq<Data>, seen: nat, missed: seq<Data>)
    requires seen <= |inbox| && missed != inbox[seen..]
    ensures inbox[..seen] + missed != inbox
  {
    assert (inbox[..seen] + missed)[seen..] == missed;
  }

  lemma ReplayIsLogged(s: System, session: Session)
    requires GoodLog(s) && s.client.lastOffset.Some?
    requires Replays(s.log, s.client.lastOffset.value, session.rooms, session.missed)
    ensures Logged(session.missed) == session.missed && forall d | d in session.missed :: EndsInText(d)
  {
    var rest := s.log[IndexOf(s.log, s.client.lastOffset.value) + 1..];
    forall p | p in rest ensures EndsInText(p.data) {
      assert p in s.log;
      LogEndsInText(s, p);
    }
    MissedIsLogged(rest, session.rooms);
    FilterAll(EndsInText, session.missed);
  }

  lemma WrongReplay(s: System, missed: seq<Data>)
    requires s.open && s.up && !s.client.connected && Logged(s.client.receiveBuffer) == [] && Logged(missed) == missed
    requires s.wire == Events(missed) + [Connect] && Logged(s.client.processed) + missed != DataOf(Inbox(s.history))
    ensures !StaysExact(s)
  {
    var more := Arrivals(|s.wire|);
    EverythingArrives(s);
    ReplayProcessed(s, missed);
    FilterConcat(EndsInText, s.client.processed + s.client.receiveBuffer, missed);
    FilterConcat(EndsInText, s.client.processed, s.client.receiveBuffer);
    assert s.wire[|missed|] == Connect;
    assert !ExactIfSettled(s, more);
  }

  /** An overtaken socket is closed under a newer one: the next broadcast to everybody does not reach the client. */
  lemma OvertakenCloseStrips(s: System, recoverable: bool, at: nat, m: Marks)
    requires Inv(Erased(s), true, m) && s.overtaken > 0 && s.now <= at && s.placed && s.up
    ensures !StaysExact(AfterOvertakenClose(s, recoverable, at))
  {
    var s1 := AfterOvertakenClose(s, recoverable, at);
    var a := Arrivals(|s1.wire|);
    AudibleAmong(s.wire);
    assert s.client.connected || Connect in Audible(s.wire) by { ConnectOnTheWay(Erased(s), m); }
    EverythingArrives(s1);
    var s2 := Run(s1, a).value;
    var b := [Broadcast([], EVERYONE, s2.now)];
    NobodyHears(s2);
    RunsConcat(s1, a, b);
    assert !(ExactIfSettled(s1, a) && ExactIfSettled(s1, a + b));
  }

  lemma ConnectOnTheWay(s: System, m: Marks)
    requires Inv(s, true, m) && s.up
    ensures s.client.connected || Connect in s.wire
  {
    if !s.client.connected {
      assert s.wire[m.replayed - m.buffered] == Connect;
    }
  }

  lemma {:induction false} AudibleAmong(wire: seq<Frame>)
    ensures Connect in Audible(wire) ==> Connect in wire
  {
    if wire != [] {
      AudibleAmong(wire[1..]);
    }
  }

  lemma NobodyHears(s: System)
    requires Settled(s) && !s.placed
    ensures var b := [Broadcast([], EVERYONE, s.now)];
            && Run(s, b).Some? && Undisturbed(s, b) && NoLossDuringReplay(s, b)
            && Settled(Run(s, b).value) && Run(s, b).value.client == s.client
            && |Inbox(Run(s, b).value.history)| == |Inbox(s.history)| + 1
  {
    var b := [Broadcast([], EVERYONE, s.now)];
    var s' := AfterBroadcast(s, [], EVERYONE, s.now);
    assert b[1..] == [] && Run(s', []) == Some(s');
    EveryoneIsAddressed(s.rooms);
    InboxSnoc(s.history, s'.history[|s.history|]);
  }

  lemma EveryoneIsAddressed(rooms: set<Room>)
    ensures Included(rooms, EVERYONE)
  {
    assert EVERYONE.except * rooms == {};
  }

  lemma {:induction false} RunsConcat(s: System, a: seq<Step>, b: seq<Step>)
    requires Run(s, a).Some? && Run(Run(s, a).value, b).Some?
    ensures Run(s, a + b) == Run(Run(s, a).value, b)
    ensures Undisturbed(s, a) && Undisturbed(Run(s, a).value, b) ==> Undisturbed(s, a + b)
    ensures NoLossDuringReplay(s, a) && NoLossDuringReplay(Run(s, a).value, b) ==> NoLossDuringReplay(s, a + b)
    decreases |a|
  {
    if a == [] {
      assert a + b == b;
    } else {
      assert (a + b)[1..] == a[1..] + b;
      RunsConcat(Next(s, a[0]).value, a[1..], b);
    }
  }

  // ---------- two runs that go wrong ----------

  ghost predicate IsChain(states: seq<System>, steps: seq<Step>) {
    |states| == |steps| + 1 && forall i | 0 <= i < |steps| :: Next(states[i], steps[i]) == Some(states[i + 1])
  }

  lemma ChainRuns(states: seq<System>, steps: seq<Step>)
    requires IsChain(states, steps)
    ensures Run(states[0], steps) == Some(states[|steps|])
    ensures (forall i | 0 <= i < |steps| :: !Disturbs(states[i], steps[i])) ==> Undisturbed(states[0], steps)
    ensures (forall i | 0 <= i < |steps| :: !LosesReplay(states[i], steps[i])) ==> NoLossDuringReplay(states[0], steps)
  {
    ChainRun(states, steps);
    if forall i | 0 <= i < |steps| :: !Disturbs(states[i], steps[i]) { ChainUndisturbed(states, steps); }
    if forall i | 0 <= i < |steps| :: !LosesReplay(states[i], steps[i]) { ChainWithoutLoss(states, steps); }
  }

  lemma {:induction false} ChainRun(states: seq<System>, steps: seq<Step>)
    requires IsChain(states, steps)
    ensures Run(states[0], steps) == Some(states[|steps|])
    decreases |steps|
  {
    if steps != [] {
      ChainRun(states[1..], steps[1..]);
    }
  }

  lemma {:induction false} ChainUndisturbed(states: seq<System>, steps: seq<Step>)
    requires IsChain(states, steps) && forall i | 0 <= i < |steps| :: !Disturbs(states[i], steps[i])
    ensures Run(states[0], steps).Some? && Undisturbed(states[0], steps)
    decreases |steps|
  {
    ChainRun(states, steps);
    if steps != [] {
      ChainUndisturbed(states[1..], steps[1..]);
    }
  }

  lemma {:induction false} ChainWithoutLoss(states: seq<System>, steps: seq<Step>)
    requires IsChain(states, steps) && forall i | 0 <= i < |steps| :: !LosesReplay(states[i], steps[i])
    ensures Run(states[0], steps).Some? && NoLossDuringReplay(states[0], steps)
    decreases |steps|
  {
    ChainRun(states, steps);
    if steps != [] {
      ChainWithoutLoss(states[1..], steps[1..]);
    }
  }

  /** No room given and none excepted. */
  const EVERYONE := Options({}, {})

  const ROOM_B := Options({"B"}, {})

  /** The room of the socket's own name, and that room with another. */
  const OWN: set<Room> := {"s"}

  const BOTH: set<Room> := {"s", "B"}

  function PacketAt(t: nat, id: string, opts: Options): Packet { Packet(id, t, [Text(id)], opts) }

  function ClientAt(connected: bool, offset: string, buffer: seq<Data>, processed: seq<Data>): Client {
    Client(connected, "p", Some(offset), buffer, processed)
  }

  const D0: Data := [Text("0")]

  const D1: Data := [Text("1")]

  const D2: Data := [Text("2")]

  const D3: Data := [Text("3")]

  /** A new client, alone in the room of its own name. */
  function Fresh(): System {
    System("p", "s", 1000, [], [], 0, [], map[], true, true, 0, Some(OWN), OWN, true, [Connect],
           Client(false, "", None, [], []))
  }

  const OPENING: seq<Step> :=
    [FrameArrives, Broadcast([], EVERYONE, 0), FrameArrives, ConnectionLost, ServerCloses(true, 0)]

  /** The client has processed one packet, and the server has closed its socket. */
  function Gone(): System {
    var p0 := PacketAt(0, "0", EVERYONE);
    System("p", "s", 1000, [Entry(p0, Some(OWN))], [0], 0, [p0], map["p" := StoredSession(OWN, 0)],
           false, false, 0, None, OWN, false, [], ClientAt(false, "0", [], [D0]))
  }

  lemma OpeningRun()
    ensures Start(Fresh()) && Run(Fresh(), OPENING) == Some(Gone())
    ensures Undisturbed(Fresh(), OPENING) && NoLossDuringReplay(Fresh(), OPENING)
  {
    var e0 := Gone().history[0];
    var s0 := Fresh();
    var s1 := s0.(wire := [], client := Client(true, "p", None, [], []));
    var s2 := s1.(history := [e0], clock := [0], log := [e0.packet], wire := [Event(D0)]);
    var s3 := s2.(wire := [], client := ClientAt(true, "0", [], [D0]));
    var s4 := s3.(up := false, client := ClientAt(false, "0", [], [D0]));
    EveryoneIsAddressed(OWN);
    ConnectStep(s0, s1);
    BroadcastStep(s1, s2, EVERYONE, 0, "0");
    EventStep(s2, s3, "0");
    assert Next(s4, OPENING[4]) == Some(Gone());
    ChainRuns([s0, s1, s2, s3, s4, Gone()], OPENING);
  }

  /** A broadcast without arguments, whose id is known. */
  lemma BroadcastStep(s: System, t: System, opts: Options, at: nat, id: string)
    requires s.now <= at && (s.clock, at, id) in [([], 0, "0"), ([0], 1, "1"), ([0, 1], 2, "2"), ([0, 1, 2], 3, "3")]
    requires var p := PacketAt(at, id, opts);
             && t == s.(now := at, clock := t.clock, log := t.log, history := t.history, wire := t.wire)
             && t.clock == s.clock + [at] && t.log == s.log + [p] && t.history == s.history + [Entry(p, Some(s.rooms))]
             && t.wire == if Hears(s, opts) then s.wire + [Event(p.data)] else s.wire
    ensures Next(s, Broadcast([], opts, at)) == Some(t)
  {
    assert [] + [Text(id)] == [Text(id)];
    FirstIds();
  }

  lemma ConnectStep(s: System, t: System)
    requires s.wire == [Connect] && s.client.receiveBuffer == []
    requires t == s.(wire := [], client := s.client.(connected := true, pid := s.pid))
    ensures Next(s, FrameArrives) == Some(t)
  {
    assert s.wire[1..] == [];
  }

  lemma EventStep(s: System, t: System, id: string)
    requires s.wire == [Event([Text(id)])] && s.client.connected && s.client.pid != ""
    requires t == s.(wire := [], client := s.client.(processed := t.client.processed, lastOffset := Some(id)))
    requires t.client.processed == s.client.processed + [[Text(id)]]
    ensures Next(s, FrameArrives) == Some(t)
  {
    assert s.wire[1..] == [];
  }

  /** A frame that arrives before the Connect frame goes into the buffer. */
  lemma BufferStep(s: System, t: System, data: Data)
    requires s.wire == [Event(data), Connect] && !s.client.connected
    requires t == s.(wire := [Connect], client := s.client.(receiveBuffer := t.client.receiveBuffer))
    requires t.client.receiveBuffer == s.client.receiveBuffer + [data]
    ensures Next(s, FrameArrives) == Some(t)
  {
    assert s.wire[1..] == [Connect];
  }

  lemma ReconnectStep(s: System, t: System, missed: seq<Data>, at: nat)
    requires !s.up && s.now <= at && s.client.lastOffset.Some?
    requires Restored(s.sessions, s.log, s.maxDuration, s.pid, s.client.lastOffset.value, at) ==
             Some(Session(OWN, missed))
    requires t == s.(now := at, overtaken := if s.open then s.overtaken + 1 else s.overtaken, open := true,
                     placed := true, index := t.index, rooms := t.rooms, up := true, wire := t.wire)
    requires t.index == Some(t.rooms) && t.rooms == Listed(s) + OWN + {s.sid} && t.wire == Events(missed) + [Connect]
    ensures Next(s, Reconnect(at)) == Some(t)
  {
  }

  lemma FirstIds()
    ensures Yeast.Advance(Yeast.Run([]).0, 0).1 == "0"
    ensures Yeast.Advance(Yeast.Run([0]).0, 1).1 == "1"
    ensures Yeast.Advance(Yeast.Run([0, 1]).0, 2).1 == "2"
    ensures Yeast.Advance(Yeast.Run([0, 1, 2]).0, 3).1 == "3"
  {
    assert [0][..0] == [] && [0, 1][..1] == [0] && [0, 1, 2][..2] == [0, 1];
    assert Yeast.Run([0]).0 == Yeast.State(0, Yeast.Last("0"));
    assert Yeast.Run([0, 1]).0 == Yeast.State(0, Yeast.Last("1"));
    assert Yeast.Run([0, 1, 2]).0 == Yeast.State(0, Yeast.Last("2"));
  }

  // ---------- a loss during a replay ----------

  const BROKEN_REPLAY: seq<Step> :=
    [Broadcast([], EVERYONE, 1), Reconnect(1), FrameArrives, ConnectionLost, ServerCloses(true, 1)]

  const FULL_REPLAY: seq<Step> := [Reconnect(1), FrameArrives, FrameArrives]

  /** The client has missed the second packet; the buffer may still hold it from a replay that broke off. */
  function Away(buffer: seq<Data>): System {
    var p1 := PacketAt(1, "1", EVERYONE);
    Gone().(history := Gone().history + [Entry(p1, Some(OWN))], clock := [0, 1], now := 1, log := Gone().log + [p1],
            sessions := map["p" := StoredSession(OWN, if buffer == [] then 0 else 1)],
            client := ClientAt(false, "0", buffer, [D0]))
  }

  /**
    The connection is lost between a replayed packet and the Connect frame, after which the client comes back:
    the packet is processed twice.
   */
  lemma LossDuringReplayDuplicates()
    ensures var steps := OPENING + BROKEN_REPLAY + FULL_REPLAY;
            && Start(Fresh()) && Run(Fresh(), steps).Some? && Undisturbed(Fresh(), steps)
            && !NoLossDuringReplay(Fresh(), steps)
            && var s := Run(Fresh(), steps).value;
               && Settled(s) && DataOf(Inbox(s.history)) == [D0, D1]
               && s.client.processed == [D0, D1, D1]
  {
    var steps := OPENING + BROKEN_REPLAY + FULL_REPLAY;
    OpeningRun();
    BrokenReplayRun();
    FullReplayRun();
    var s := Replaying([D1]).(wire := [], client := ClientAt(true, "1", [], [D0, D1, D1]));
    ThreeLegs(Fresh(), OPENING, Gone(), BROKEN_REPLAY, Away([D1]), FULL_REPLAY, s);
    TwiceProcessed(s);
    WrongMeansLost(Fresh(), steps, s);
  }

  lemma TwiceProcessed(s: System)
    requires s == Replaying([D1]).(wire := [], client := ClientAt(true, "1", [], [D0, D1, D1]))
    ensures Settled(s) && DataOf(Inbox(s.history)) == [D0, D1] && s.client.processed == [D0, D1, D1]
    ensures Logged(s.client.processed) != DataOf(Inbox(s.history))
  {
    InboxOfAway();
    TextsAreLogged(s.client.processed);
    assert |[D0, D1, D1]| != |[D0, D1]|;
  }

  lemma WrongMeansLost(s0: System, steps: seq<Step>, s: System)
    requires Start(s0) && Run(s0, steps) == Some(s) && Undisturbed(s0, steps)
    requires Settled(s) && Logged(s.client.processed) != DataOf(Inbox(s.history))
    ensures !NoLossDuringReplay(s0, steps)
  {
    if NoLossDuringReplay(s0, steps) {
      ExactlyOnceIff(s0, steps);
    }
  }

  lemma InboxOfAway()
    ensures DataOf(Inbox(Away([]).history)) == [D0, D1]
  {
    var history := Away([]).history;
    EveryoneIsAddressed(OWN);
    InboxSnoc([], history[0]);
    InboxSnoc([history[0]], history[1]);
    assert history == [history[0]] + [history[1]] && [] + [history[0]] == [history[0]];
  }

  lemma BrokenReplayRun()
    ensures Run(Gone(), BROKEN_REPLAY) == Some(Away([D1])) && Undisturbed(Gone(), BROKEN_REPLAY)
  {
    ReplayBegins();
    ReplayBreaksOff();
    RunsConcat(Gone(), BROKEN_REPLAY[..2], BROKEN_REPLAY[2..]);
    assert BROKEN_REPLAY == BROKEN_REPLAY[..2] + BROKEN_REPLAY[2..];
  }

  lemma ReplayBegins()
    ensures Run(Gone(), BROKEN_REPLAY[..2]) == Some(Replaying([])) && Undisturbed(Gone(), BROKEN_REPLAY[..2])
  {
    BroadcastStep(Gone(), Away([]), EVERYONE, 1, "1");
    ReplayOfSecond([]);
    ChainRuns([Gone(), Away([]), Replaying([])], BROKEN_REPLAY[..2]);
  }

  lemma ReplayBreaksOff()
    ensures Run(Replaying([]), BROKEN_REPLAY[2..]) == Some(Away([D1])) && Undisturbed(Replaying([]), BROKEN_REPLAY[2..])
  {
    var s0 := Replaying([]);
    var s1 := s0.(wire := [Connect], client := ClientAt(false, "0", [D1], [D0]));
    var s2 := s1.(up := false, wire := []);
    BufferStep(s0, s1, D1);
    assert AfterClose(s2, true, 1).sessions == Away([D1]).sessions;
    ChainRuns([s0, s1, s2, Away([D1])], BROKEN_REPLAY[2..]);
  }

  /** The second packet is on its way again. */
  function Replaying(buffer: seq<Data>): System {
    Away(buffer).(open := true, placed := true, index := Some(OWN), up := true, wire := [Event(D1), Connect])
  }

  lemma FullReplayRun()
    ensures Run(Away([D1]), FULL_REPLAY) ==
            Some(Replaying([D1]).(wire := [], client := ClientAt(true, "1", [], [D0, D1, D1])))
    ensures Undisturbed(Away([D1]), FULL_REPLAY)
  {
    var s1 := Replaying([D1]);
    var s2 := s1.(wire := [Connect], client := ClientAt(false, "0", [D1, D1], [D0]));
    var s3 := s2.(wire := [], client := ClientAt(true, "1", [], [D0, D1, D1]));
    ReplayOfSecond([D1]);
    BufferStep(s1, s2, D1);
    assert Next(s2, FULL_REPLAY[2]) == Some(s3) by {
      TwoBuffered(s2.client);
      assert s2.wire[1..] == [];
    }
    ChainRuns([Away([D1]), s1, s2, s3], FULL_REPLAY);
  }

  lemma ReplayOfSecond(buffer: seq<Data>)
    ensures Next(Away(buffer), Reconnect(1)) == Some(Replaying(buffer)) && !Disturbs(Away(buffer), Reconnect(1))
  {
    var s := Away(buffer);
    EveryoneIsAddressed(OWN);
    assert s.log[0].id == "0" && IndexOf(s.log, "0") == 0;
    var rest := s.log[1..];
    assert rest == [s.log[1]] && rest[..0] == [];
    assert Missed(rest, OWN) == [D1];
    assert {} + OWN + {"s"} == OWN;
    ReconnectStep(s, Replaying(buffer), [D1], 1);
    StableRoomsAgree(s.history, "0", OWN);
  }

  lemma TwoBuffered(c: Client)
    requires c == ClientAt(false, "0", [D1, D1], [D0])
    ensures OnConnect(c, "p") == ClientAt(true, "1", [], [D0, D1, D1])
  {
    EmittedAllKeepsBuffer(c.(pid := "p", connected := true), c.receiveBuffer);
    assert [D0] + [D1, D1] == [D0, D1, D1];
  }

  // ---------- a stale session ----------

  const RECOVERING: seq<Step> :=
    [Reconnect(0), FrameArrives, Step.Join({"B"}), Broadcast([], ROOM_B, 1), FrameArrives, ConnectionLost]

  const OVERTAKING: seq<Step> :=
    [Broadcast([], ROOM_B, 2), Reconnect(2), FrameArrives, Broadcast([], ROOM_B, 3), FrameArrives]

  /** After a recovery the client has joined a room and lost its connection, which the server has not noticed. */
  function Unnoticed(): System {
    var p1 := PacketAt(1, "1", ROOM_B);
    Gone().(history := Gone().history + [Entry(p1, Some(BOTH))], clock := [0, 1], now := 1, log := Gone().log + [p1],
            open := true, placed := true, index := Some(BOTH), rooms := BOTH,
            client := ClientAt(false, "1", [], [D0, D1]))
  }

  function Overtaken(): System {
    var p2, p3 := PacketAt(2, "2", ROOM_B), PacketAt(3, "3", ROOM_B);
    Unnoticed().(history := Unnoticed().history + [Entry(p2, Some(BOTH))] + [Entry(p3, Some(BOTH))],
                 clock := [0, 1, 2, 3], now := 3, log := Unnoticed().log + [p2] + [p3], overtaken := 1, up := true,
                 client := ClientAt(true, "3", [], [D0, D1, D3]))
  }

  /**
    The client comes back before the server has noticed the loss of its connection. The session that an earlier
    recovery left behind lacks the room it has joined since, so the replay is empty; the next live packet moves
    the offset past the packet it missed, although its rooms never changed after the offset.
   */
  lemma StaleSessionLosesPacket()
    ensures var steps := OPENING + RECOVERING + OVERTAKING;
            && Start(Fresh()) && Run(Fresh(), steps).Some? && NoLossDuringReplay(Fresh(), steps)
            && !Undisturbed(Fresh(), steps)
            && var s := Run(Fresh(), steps).value;
               && Settled(s) && (forall i | 1 <= i < |s.history| :: s.history[i].members == Some(s.rooms))
               && DataOf(Inbox(s.history)) == [D0, D1, D2, D3]
               && s.client.processed == [D0, D1, D3]
  {
    OpeningRun();
    RecoveringRun();
    OvertakingRun();
    ThreeLegs(Fresh(), OPENING, Gone(), RECOVERING, Unnoticed(), OVERTAKING, Overtaken());
    OvertakenLacksPacket();
    WrongMeansDisturbed(Fresh(), OPENING + RECOVERING + OVERTAKING, Overtaken());
  }

  lemma TextsAreLogged(events: seq<Data>)
    requires forall d | d in events :: d in {D0, D1, D2, D3}
    ensures Logged(events) == events
  {
    FilterAll(EndsInText, events);
  }

  lemma ThreeLegs(s0: System, a: seq<Step>, s1: System, b: seq<Step>, s2: System, c: seq<Step>, s3: System)
    requires Run(s0, a) == Some(s1) && Run(s1, b) == Some(s2) && Run(s2, c) == Some(s3)
    ensures Run(s0, a + b + c) == Some(s3)
    ensures NoLossDuringReplay(s0, a) && NoLossDuringReplay(s1, b) && NoLossDuringReplay(s2, c) ==>
              NoLossDuringReplay(s0, a + b + c)
    ensures Undisturbed(s0, a) && Undisturbed(s1, b) && Undisturbed(s2, c) ==> Undisturbed(s0, a + b + c)
  {
    RunsConcat(s0, a, b);
    RunsConcat(s0, a + b, c);
  }

  lemma WrongMeansDisturbed(s0: System, steps: seq<Step>, s: System)
    requires Start(s0) && Run(s0, steps) == Some(s) && NoLossDuringReplay(s0, steps)
    requires Settled(s) && Logged(s.client.processed) != DataOf(Inbox(s.history))
    ensures !Undisturbed(s0, steps)
  {
    if Undisturbed(s0, steps) {
      ExactlyOnceIff(s0, steps);
    }
  }

  lemma OvertakenLacksPacket()
    ensures var s := Overtaken();
            && Settled(s) && (forall i | 1 <= i < |s.history| :: s.history[i].members == Some(s.rooms))
            && DataOf(Inbox(s.history)) == [D0, D1, D2, D3] && s.client.processed == [D0, D1, D3]
            && Logged(s.client.processed) != [D0, D1, D2, D3]
  {
    InboxOfOvertaken();
    TextsAreLogged(Overtaken().client.processed);
    assert |[D0, D1, D2, D3]| != |[D0, D1, D3]|;
  }

  lemma InboxOfOvertaken()
    ensures DataOf(Inbox(Overtaken().history)) == [D0, D1, D2, D3]
  {
    var h := Overtaken().history;
    EveryoneIsAddressed(OWN);
    RoomBIsAddressed();
    InboxSnoc([], h[0]);
    InboxSnoc([h[0]], h[1]);
    InboxSnoc([h[0], h[1]], h[2]);
    InboxSnoc([h[0], h[1], h[2]], h[3]);
    assert [] + [h[0]] == [h[0]] && [h[0]] + [h[1]] == [h[0], h[1]] && [h[0], h[1]] + [h[2]] == [h[0], h[1], h[2]];
    assert h == [h[0], h[1], h[2]] + [h[3]];
  }

  lemma RoomBIsAddressed()
    ensures Included(BOTH, ROOM_B) && !Included(OWN, ROOM_B)
  {
    assert "B" in ROOM_B.rooms * BOTH && ROOM_B.except * BOTH == {};
  }

  lemma RecoveringRun()
    ensures Run(Gone(), RECOVERING) == Some(Unnoticed()) && NoLossDuringReplay(Gone(), RECOVERING)
  {
    RecoversAndJoins();
    HearsAndLeaves();
    RunsConcat(Gone(), RECOVERING[..3], RECOVERING[3..]);
    assert RECOVERING == RECOVERING[..3] + RECOVERING[3..];
  }

  /** Recovered, and in one room more than the stored session says. */
  function Joined(): System {
    Gone().(open := true, placed := true, index := Some(BOTH), rooms := BOTH, up := true,
            client := ClientAt(true, "0", [], [D0]))
  }

  lemma RecoversAndJoins()
    ensures Run(Gone(), RECOVERING[..3]) == Some(Joined()) && NoLossDuringReplay(Gone(), RECOVERING[..3])
  {
    var s2 := Joined().(index := Some(OWN), rooms := OWN);
    var s1 := s2.(wire := [Connect], client := Gone().client);
    NothingToReplay(Gone(), 0, "0");
    ReconnectStep(Gone(), s1, [], 0);
    ConnectStep(s1, s2);
    assert OWN + {"B"} == BOTH;
    ChainRuns([Gone(), s1, s2, Joined()], RECOVERING[..3]);
  }

  lemma HearsAndLeaves()
    ensures Run(Joined(), RECOVERING[3..]) == Some(Unnoticed()) && NoLossDuringReplay(Joined(), RECOVERING[3..])
  {
    var s1 := Unnoticed().(up := true, wire := [Event(D1)], client := Joined().client);
    var s2 := s1.(wire := [], client := ClientAt(true, "1", [], [D0, D1]));
    RoomBIsAddressed();
    BroadcastStep(Joined(), s1, ROOM_B, 1, "1");
    EventStep(s1, s2, "1");
    ChainRuns([Joined(), s1, s2, Unnoticed()], RECOVERING[3..]);
  }

  /** The client is back with an empty replay, and an older socket of the session is still open. */
  function BackTooSoon(): System {
    var p2 := PacketAt(2, "2", ROOM_B);
    Unnoticed().(history := Unnoticed().history + [Entry(p2, Some(BOTH))], clock := [0, 1, 2], now := 2,
                 log := Unnoticed().log + [p2], overtaken := 1, up := true, wire := [Connect])
  }

  lemma OvertakingRun()
    ensures Run(Unnoticed(), OVERTAKING) == Some(Overtaken()) && NoLossDuringReplay(Unnoticed(), OVERTAKING)
  {
    ReconnectsTooSoon();
    NextPacketArrives();
    RunsConcat(Unnoticed(), OVERTAKING[..2], OVERTAKING[2..]);
    assert OVERTAKING == OVERTAKING[..2] + OVERTAKING[2..];
  }

  lemma ReconnectsTooSoon()
    ensures Run(Unnoticed(), OVERTAKING[..2]) == Some(BackTooSoon())
    ensures NoLossDuringReplay(Unnoticed(), OVERTAKING[..2])
  {
    var s1 := BackTooSoon().(overtaken := 0, up := false, wire := []);
    BroadcastStep(Unnoticed(), s1, ROOM_B, 2, "2");
    StaleSessionRestored(s1);
    ChainRuns([Unnoticed(), s1, BackTooSoon()], OVERTAKING[..2]);
  }

  lemma StaleSessionRestored(s: System)
    requires s == BackTooSoon().(overtaken := 0, up := false, wire := [])
    ensures Next(s, Reconnect(2)) == Some(BackTooSoon())
  {
    NothingToReplay(s, 2, "1");
    assert BOTH + OWN + {"s"} == BOTH;
    ReconnectStep(s, BackTooSoon(), [], 2);
  }

  lemma NextPacketArrives()
    ensures Run(BackTooSoon(), OVERTAKING[2..]) == Some(Overtaken())
    ensures NoLossDuringReplay(BackTooSoon(), OVERTAKING[2..])
  {
    var s0 := BackTooSoon();
    var s1 := s0.(wire := [], client := ClientAt(true, "1", [], [D0, D1]));
    var s2 := Overtaken().(wire := [Event(D3)], client := s1.client);
    RoomBIsAddressed();
    ConnectStep(s0, s1);
    BroadcastStep(s1, s2, ROOM_B, 3, "3");
    EventStep(s2, Overtaken(), "3");
    ChainRuns([s0, s1, s2, Overtaken()], OVERTAKING[2..]);
  }

  /** The stored session selects nothing behind the offset. */
  lemma NothingToReplay(s: System, at: nat, offset: string)
    requires s.pid == "p" && s.sessions == map["p" := StoredSession(OWN, 0)] && s.maxDuration == 1000 && at < 1000
    requires var i := IndexOf(s.log, offset); i < |s.log| && forall p | p in s.log[i + 1..] :: p.opts == ROOM_B
    ensures Restored(s.sessions, s.log, s.maxDuration, s.pid, offset, at) == Some(Session(OWN, []))
    ensures Events([]) + [Connect] == [Connect]
  {
    NothingMissed(s.log[IndexOf(s.log, offset) + 1..]);
  }

  lemma {:induction false} NothingMissed(packets: seq<Packet>)
    requires forall p | p in packets :: p.opts == ROOM_B
    ensures Missed(packets, OWN) == []
  {
    RoomBIsAddressed();
    if packets != [] {
      NothingMissed(packets[..|packets| - 1]);
    }
  }
}
