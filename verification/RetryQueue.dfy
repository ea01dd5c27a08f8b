/**
  The client's retry queue: packets are sent one at a time, each until it is acknowledged or given up, over any
  number of connections. Every attempt has its own acknowledgement id and its own timer.
 */
module RetryQueue {
  import opened Common

  /** A packet in the queue, known by its place in the order of emission. */
  datatype Packet = Packet(id: nat, tryCount: nat, pending: bool)

  /** An attempt; `after` is how many packets were finished by then. */
  datatype Attempt = Attempt(packet: nat, ackId: nat, after: nat)

  /** A packet leaves the queue: its callback runs, with or without an error. */
  datatype Finish = Finish(packet: nat, ok: bool, tries: nat)

  datatype State = State(
    connected: bool,
    queue: seq<Packet>,
    queueSeq: nat,
    ids: nat,
    /** The attempts that wait for an acknowledgement, with a timer running. */
    acks: map<nat, nat>,
    sent: seq<Attempt>,
    finished: seq<Finish>)

  function Initial(): State {
    State(false, [], 0, 0, map[], [], [])
  }

  /** The first packet of the queue is sent, unless it is under way already. */
  function Drained(s: State, force: bool): State {
    if !s.connected || s.queue == [] || (s.queue[0].pending && !force) then s
    else
      var p := s.queue[0];
      s.(queue := [Packet(p.id, p.tryCount + 1, true)] + s.queue[1..],
         ids := s.ids + 1,
         acks := s.acks[s.ids := p.id],
         sent := s.sent + [Attempt(p.id, s.ids, |s.finished|)])
  }

  function Emitted(s: State): State {
    Drained(s.(queue := s.queue + [Packet(s.queueSeq, 0, false)], queueSeq := s.queueSeq + 1), false)
  }

  function Shifted(s: State, ok: bool): State
    requires s.queue != []
  {
    s.(queue := s.queue[1..], finished := s.finished + [Finish(s.queue[0].id, ok, s.queue[0].tryCount)])
  }

  /** The callback of a packet; it counts only while the packet is the first of the queue. */
  function CalledBack(s: State, packet: nat, ok: bool, retries: nat): State {
    if s.queue == [] || s.queue[0].id != packet then s
    else if ok || s.queue[0].tryCount > retries then Drained(Shifted(s, ok), false)
    else Drained(s.(queue := [s.queue[0].(pending := false)] + s.queue[1..]), false)
  }

  function Acknowledged(s: State, id: nat, retries: nat): State {
    if id !in s.acks then s
    else
      var s' := CalledBack(s, s.acks[id], true, retries);
      s'.(acks := s'.acks - {id})
  }

  function TimedOut(s: State, id: nat, retries: nat): State
    requires id in s.acks
  {
    CalledBack(s.(acks := s.acks - {id}), s.acks[id], false, retries)
  }

  function Connected(s: State): State {
    Drained(s.(connected := true), true)
  }

  class ClientQueue {
    const retries: nat
    var connected: bool
    var queue: seq<Packet>
    var queueSeq: nat
    var ids: nat
    var acks: map<nat, nat>
    ghost var sent: seq<Attempt>
    ghost var finished: seq<Finish>

    ghost function Abs(): State
      reads this
    {
      State(connected, queue, queueSeq, ids, acks, sent, finished)
    }

    constructor (retries: nat)
      ensures Abs() == Initial() && this.retries == retries
    {
      this.retries := retries;
      connected, queue, queueSeq, ids, acks := false, [], 0, 0, map[];
      sent, finished := [], [];
    }

    method AddToQueue()
      modifies this
      ensures Abs() == Emitted(old(Abs()))
    {
      queue := queue + [Packet(queueSeq, 0, false)];
      queueSeq := queueSeq + 1;
      DrainQueue(false);
    }

    method DrainQueue(force: bool)
      modifies this
      ensures Abs() == Drained(old(Abs()), force)
    {
      if !connected || queue == [] {
        return;
      }
      var packet := queue[0];
      if packet.pending && !force {
        return;
      }
      queue := [packet.(pending := true, tryCount := packet.tryCount + 1)] + queue[1..];
      acks := acks[ids := packet.id];
      sent := sent + [Attempt(packet.id, ids, |finished|)];
      ids := ids + 1;
    }

    method Callback(packet: nat, hasError: bool)
      modifies this
      ensures Abs() == CalledBack(old(Abs()), packet, !hasError, retries)
    {
      if queue == [] || queue[0].id != packet {
        return;
      }
      if hasError {
        if queue[0].tryCount > retries {
          Shift(false);
        } else {
          queue := [queue[0].(pending := false)] + queue[1..];
        }
      } else {
        Shift(true);
      }
      DrainQueue(false);
    }

    method Shift(ok: bool)
      requires queue != []
      modifies this
      ensures Abs() == Shifted(old(Abs()), ok)
    {
      finished := finished + [Finish(queue[0].id, ok, queue[0].tryCount)];
      queue := queue[1..];
    }

    method OnAck(id: nat)
      modifies this
      ensures Abs() == Acknowledged(old(Abs()), id, retries)
    {
      if id in acks {
        Callback(acks[id], false);
        acks := acks - {id};
      }
    }

    method OnTimer(id: nat)
      requires id in acks
      modifies this
      ensures Abs() == TimedOut(old(Abs()), id, retries)
    {
      var packet := acks[id];
      acks := acks - {id};
      Callback(packet, true);
    }

    method OnConnect()
      modifies this
      ensures Abs() == Connected(old(Abs()))
    {
      connected := true;
      DrainQueue(true);
    }

    method OnClose()
      modifies this
      ensures Abs() == old(Abs()).(connected := false)
    {
      connected := false;
    }
  }

  // ---------- runs ----------

  datatype Event = Emit | Ack(id: nat) | Timer(id: nat) | Connect | Close

  function Next(s: State, e: Event, retries: nat): Option<State> {
    match e
    case Emit => Some(Emitted(s))
    case Ack(id) => Some(Acknowledged(s, id, retries))
    case Timer(id) => if id in s.acks then Some(TimedOut(s, id, retries)) else None
    case Connect => if s.connected then None else Some(Connected(s))
    case Close => Some(s.(connected := false))
  }

  function Run(events: seq<Event>, retries: nat): Option<State> {
    if events == [] then Some(Initial())
    else
      match Run(events[..|events| - 1], retries)
      case None => None
      case Some(s) => Next(s, events[|events| - 1], retries)
  }

  function Emissions(events: seq<Event>): nat {
    if events == [] then 0
    else Emissions(events[..|events| - 1]) + if events[|events| - 1].Emit? then 1 else 0
  }

  /** How often a packet has been sent. */
  function Attempts(sent: seq<Attempt>, packet: nat): nat {
    if sent == [] then 0
    else Attempts(sent[..|sent| - 1], packet) + if sent[|sent| - 1].packet == packet then 1 else 0
  }

  /**
    Over any run of emissions, acknowledgements, timeouts and reconnections: the callbacks run once each and in the
    order of emission; a packet is sent only when all before it are finished; one is given up only after more
    attempts than retries; every packet is either finished or still in the queue; and as long as the client is
    connected and the queue is not empty its first packet is under way, so that the queue cannot get stuck.
   */
  lemma QueueIsOrdered(events: seq<Event>, retries: nat)
    requires Run(events, retries).Some?
    ensures var s := Run(events, retries).value;
            && (forall k | 0 <= k < |s.finished| :: s.finished[k].packet == k)
            && (forall k | 0 <= k < |s.queue| :: s.queue[k].id == |s.finished| + k)
            && |s.finished| + |s.queue| == Emissions(events)
            && (forall i | 0 <= i < |s.sent| :: s.sent[i].packet == s.sent[i].after)
            && (forall i, j | 0 <= i < j < |s.sent| :: s.sent[i].packet <= s.sent[j].packet)
            && (forall k | 0 <= k < |s.finished| :: s.finished[k].tries == Attempts(s.sent, k))
            && (forall k | 0 <= k < |s.finished| && !s.finished[k].ok :: s.finished[k].tries > retries)
            && (s.connected && s.queue != [] ==>
                  s.queue[0].pending && exists id :: id in s.acks && s.acks[id] == s.queue[0].id)
  {
    Invariant(events, retries);
  }

  /** A packet finishes without an error only because the server acknowledged one of the attempts to send it. */
  lemma {:induction false} SuccessWasAcknowledged(events: seq<Event>, retries: nat, k: nat) returns (i: nat)
    requires Run(events, retries).Some?
    requires k < |Run(events, retries).value.finished| && Run(events, retries).value.finished[k].ok
    ensures i < |events| && events[i].Ack?
    ensures Attempt(Run(events, retries).value.finished[k].packet, events[i].id, k) in Run(events, retries).value.sent
  {
    var front, e := events[..|events| - 1], events[|events| - 1];
    var s := Run(front, retries).value;
    Invariant(front, retries);
    Labels(front, retries);
    Extends(s, e, retries);
    if k < |s.finished| {
      i := SuccessWasAcknowledged(front, retries, k);
    } else {
      i := |front|;
      assert s.sent[e.id] == Attempt(s.acks[e.id], e.id, k);
    }
  }

  /** Attempts carry the ids 0, 1, 2, ... and the waiting ones are known by them. */
  ghost predicate Labelled(s: State) {
    && s.ids == |s.sent| && (forall i | 0 <= i < |s.sent| :: s.sent[i].ackId == i)
    && (forall id | id in s.acks :: id < |s.sent| && s.acks[id] == s.sent[id].packet)
  }

  lemma {:induction false} Labels(events: seq<Event>, retries: nat)
    requires Run(events, retries).Some?
    ensures Labelled(Run(events, retries).value)
  {
    if events != [] {
      var front, e := events[..|events| - 1], events[|events| - 1];
      Labels(front, retries);
      var s := Run(front, retries).value;
      match e
      case Emit =>
        DrainLabels(s.(queue := s.queue + [Packet(s.queueSeq, 0, false)], queueSeq := s.queueSeq + 1), false);
      case Ack(id) => if id in s.acks { CallbackLabels(s, s.acks[id], true, retries); }
      case Timer(id) => CallbackLabels(s.(acks := s.acks - {id}), s.acks[id], false, retries);
      case Connect => DrainLabels(s.(connected := true), true);
      case Close =>
    }
  }

  lemma DrainLabels(s: State, force: bool)
    requires Labelled(s)
    ensures Labelled(Drained(s, force))
  {
  }

  lemma CallbackLabels(s: State, packet: nat, ok: bool, retries: nat)
    requires Labelled(s)
    ensures Labelled(CalledBack(s, packet, ok, retries))
  {
    if s.queue != [] && s.queue[0].id == packet {
      DrainLabels(Shifted(s, ok), false);
      DrainLabels(s.(queue := [s.queue[0].(pending := false)] + s.queue[1..]), false);
    }
  }

  /** A step only adds attempts, and a packet finishes without an error only on an acknowledgement of its own. */
  lemma Extends(s: State, e: Event, retries: nat)
    requires Inv(s, retries) && Next(s, e, retries).Some?
    ensures var s' := Next(s, e, retries).value;
            && s.sent <= s'.sent && s.finished <= s'.finished
            && |s'.finished| <= |s.finished| + 1
            && (s'.finished != s.finished && s'.finished[|s.finished|].ok ==>
                  && e.Ack? && e.id in s.acks && s.queue != []
                  && s.acks[e.id] == s.queue[0].id == |s.finished| == s'.finished[|s.finished|].packet)
  {
  }

  /** How often the client connected. */
  function Connections(events: seq<Event>): nat {
    if events == [] then 0
    else Connections(events[..|events| - 1]) + if events[|events| - 1].Connect? then 1 else 0
  }

  /** No packet is sent more often than the retries allow, but for one more attempt at every new connection. */
  lemma AttemptsAreBounded(events: seq<Event>, retries: nat)
    requires Run(events, retries).Some?
    ensures forall packet: nat :: Attempts(Run(events, retries).value.sent, packet) <= retries + 1 + Connections(events)
  {
    var s := Run(events, retries).value;
    BoundKept(events, retries);
    Invariant(events, retries);
    forall packet: nat ensures Attempts(s.sent, packet) <= retries + 1 + Connections(events) {
      if packet < |s.finished| {
        assert s.finished[packet].tries == Attempts(s.sent, packet);
      } else if packet > |s.finished| {
        NoneBehind(s.sent, |s.finished|, packet);
      }
    }
  }

  lemma {:induction false} NoneBehind(sent: seq<Attempt>, finished: nat, packet: nat)
    requires (forall i | 0 <= i < |sent| :: sent[i].packet <= finished) && packet > finished
    ensures Attempts(sent, packet) == 0
  {
    if sent != [] {
      NoneBehind(sent[..|sent| - 1], finished, packet);
    }
  }

  /** The tries of every packet, and of the first one if it may be sent again without a new connection. */
  ghost predicate Bounded(s: State, retries: nat, extra: nat) {
    && (forall k | 0 <= k < |s.finished| :: s.finished[k].tries <= retries + 1 + extra)
    && (forall k | 0 <= k < |s.queue| :: s.queue[k].tryCount <= retries + 1 + extra)
    && (forall k | 0 <= k < |s.queue| && !s.queue[k].pending :: s.queue[k].tryCount <= retries)
  }

  lemma {:induction false} BoundKept(events: seq<Event>, retries: nat)
    requires Run(events, retries).Some?
    ensures Bounded(Run(events, retries).value, retries, Connections(events))
  {
    if events != [] {
      var front := events[..|events| - 1];
      BoundKept(front, retries);
      BoundStep(Run(front, retries).value, events[|events| - 1], retries, Connections(front));
    }
  }

  lemma BoundStep(s: State, e: Event, retries: nat, extra: nat)
    requires Bounded(s, retries, extra) && Next(s, e, retries).Some?
    ensures Bounded(Next(s, e, retries).value, retries, extra + if e.Connect? then 1 else 0)
  {
    match e
    case Emit =>
      UnforcedBound(s.(queue := s.queue + [Packet(s.queueSeq, 0, false)], queueSeq := s.queueSeq + 1), retries, extra);
    case Ack(id) => if id in s.acks { CallbackBound(s, s.acks[id], true, retries, extra); }
    case Timer(id) => CallbackBound(s.(acks := s.acks - {id}), s.acks[id], false, retries, extra);
    case Connect =>
    case Close =>
  }

  lemma UnforcedBound(s: State, retries: nat, extra: nat)
    requires Bounded(s, retries, extra)
    ensures Bounded(Drained(s, false), retries, extra)
  {
  }

  lemma CallbackBound(s: State, packet: nat, ok: bool, retries: nat, extra: nat)
    requires Bounded(s, retries, extra)
    ensures Bounded(CalledBack(s, packet, ok, retries), retries, extra)
  {
    if s.queue != [] && s.queue[0].id == packet {
      if ok || s.queue[0].tryCount > retries {
        UnforcedBound(Shifted(s, ok), retries, extra);
      } else {
        UnforcedBound(s.(queue := [s.queue[0].(pending := false)] + s.queue[1..]), retries, extra);
      }
    }
  }

  /**
    When an attempt to send the first packet of the queue is acknowledged, the packet is finished without an error,
    and on a live connection the next one, if there is any, is under way.
   */
  lemma AckFinishes(events: seq<Event>, retries: nat, id: nat)
    requires Run(events, retries).Some?
    requires var s := Run(events, retries).value; id in s.acks && s.queue != [] && s.acks[id] == s.queue[0].id
    ensures var s, s' := Run(events, retries).value, Run(events + [Ack(id)], retries);
            && s'.Some? && s'.value.finished == s.finished + [Finish(|s.finished|, true, s.queue[0].tryCount)]
            && (s.connected && |s.queue| > 1 ==>
                  s'.value.queue[0].id == |s.finished| + 1 && UnderWay(s'.value.acks, |s.finished| + 1))
  {
    assert (events + [Ack(id)])[..|events|] == events;
    Invariant(events, retries);
    Invariant(events + [Ack(id)], retries);
  }

  /** The attempt with the given acknowledgement id was one to send the first packet of the queue. */
  predicate OfFirst(s: State, id: nat) {
    id in s.acks && s.queue != [] && s.acks[id] == |s.finished|
  }

  /** The events that lead to another attempt. */
  predicate Sends(s: State, e: Event, retries: nat) {
    match e
    case Connect => s.queue != []
    case Close => false
    case Emit => s.connected && s.queue == []
    case Ack(id) => s.connected && OfFirst(s, id) && |s.queue| > 1
    case Timer(id) =>
      s.connected && OfFirst(s, id) && (Attempts(s.sent, |s.finished|) <= retries || |s.queue| > 1)
  }

  /** The events that finish a packet. */
  predicate Finishes(s: State, e: Event, retries: nat) {
    match e
    case Ack(id) => OfFirst(s, id)
    case Timer(id) => OfFirst(s, id) && Attempts(s.sent, |s.finished|) > retries
    case _ => false
  }

  /**
    What the queue does, in every run: the first packet that is not finished is sent once more exactly at the events
    above, under a fresh acknowledgement id, and it is finished exactly by an acknowledgement of one of its attempts
    or by a timer after more attempts than retries.
   */
  lemma EveryEventActs(events: seq<Event>, e: Event, retries: nat)
    requires Run(events, retries).Some? && Run(events + [e], retries).Some?
    ensures var s, s' := Run(events, retries).value, Run(events + [e], retries).value; StepActed(s, e, s', retries)
  {
    assert (events + [e])[..|events|] == events;
    Invariant(events, retries);
    Labels(events, retries);
    StepActs(Run(events, retries).value, e, retries);
  }

  ghost predicate StepActed(s: State, e: Event, s': State, retries: nat) {
    && s'.finished == s.finished + (if Finishes(s, e, retries)
                      then [Finish(|s.finished|, e.Ack?, Attempts(s.sent, |s.finished|))] else [])
    && s'.sent == s.sent + (if Sends(s, e, retries) then [Attempt(|s'.finished|, |s.sent|, |s'.finished|)] else [])
    && (Sends(s, e, retries) ==> |s.sent| !in s.acks && |s.sent| in s'.acks && s'.acks[|s.sent|] == |s'.finished|)
  }

  lemma StepActs(s: State, e: Event, retries: nat)
    requires Inv(s, retries) && Live(s) && Labelled(s) && Next(s, e, retries).Some?
    ensures StepActed(s, e, Next(s, e, retries).value, retries)
  {
    match e
    case Ack(id) => AckActs(s, id, retries);
    case Timer(id) => TimerActs(s, id, retries);
    case _ =>
  }

  lemma AckActs(s: State, id: nat, retries: nat)
    requires Inv(s, retries) && Live(s) && Labelled(s)
    ensures StepActed(s, Ack(id), Acknowledged(s, id, retries), retries)
  {
  }

  lemma TimerActs(s: State, id: nat, retries: nat)
    requires Inv(s, retries) && Live(s) && Labelled(s) && id in s.acks
    ensures StepActed(s, Timer(id), TimedOut(s, id, retries), retries)
  {
  }

  /** The attempts that are waited for: acknowledgement and timer end the wait of theirs, and nothing else does. */
  lemma EveryAttemptWaits(events: seq<Event>, e: Event, retries: nat)
    requires Run(events, retries).Some? && Run(events + [e], retries).Some?
    ensures var s, s' := Run(events, retries).value, Run(events + [e], retries).value; StepWaited(s, e, s', retries)
  {
    assert (events + [e])[..|events|] == events;
    Invariant(events, retries);
    Labels(events, retries);
    StepWaits(Run(events, retries).value, e, retries);
  }

  lemma StepWaits(s: State, e: Event, retries: nat)
    requires Inv(s, retries) && Live(s) && Labelled(s) && Next(s, e, retries).Some?
    ensures StepWaited(s, e, Next(s, e, retries).value, retries)
  {
    match e
    case Ack(id) => AckWaits(s, id, retries);
    case Timer(id) => TimerWaits(s, id, retries);
    case _ =>
  }

  ghost predicate StepWaited(s: State, e: Event, s': State, retries: nat) {
    && s'.connected == (e.Connect? || (s.connected && !e.Close?))
    && s'.acks.Keys == s.acks.Keys - (if e.Ack? || e.Timer? then {e.id} else {})
                       + (if Sends(s, e, retries) then {|s.sent|} else {})
    && (forall id | id in s.acks && id in s'.acks :: s'.acks[id] == s.acks[id])
  }

  lemma AckWaits(s: State, id: nat, retries: nat)
    requires Inv(s, retries) && Live(s) && Labelled(s)
    ensures StepWaited(s, Ack(id), Acknowledged(s, id, retries), retries)
  {
  }

  lemma TimerWaits(s: State, id: nat, retries: nat)
    requires Inv(s, retries) && Live(s) && Labelled(s) && id in s.acks
    ensures StepWaited(s, Timer(id), TimedOut(s, id, retries), retries)
  {
  }

  /** A new connection sends the first packet again, whether or not an attempt is still under way. */
  lemma ConnectResends(events: seq<Event>, retries: nat)
    requires Run(events, retries).Some? && Run(events + [Connect], retries).Some?
    ensures var s, s' := Run(events, retries).value, Run(events + [Connect], retries).value;
            if s.queue == [] then s'.sent == s.sent
            else
              && s'.sent == s.sent + [Attempt(|s.finished|, |s.sent|, |s.finished|)]
              && s'.queue[0].pending && |s.sent| !in s.acks
  {
    EveryEventActs(events, Connect, retries);
    QueueIsOrdered(events + [Connect], retries);
    assert (events + [Connect])[..|events|] == events;
  }

  // ---------- the invariant ----------

  /** Finished packets and queue are the packets emitted so far, in order. */
  ghost predicate Ordered(s: State) {
    && (forall k | 0 <= k < |s.finished| :: s.finished[k].packet == k)
    && (forall k | 0 <= k < |s.queue| :: s.queue[k].id == |s.finished| + k)
    && s.queueSeq == |s.finished| + |s.queue|
  }

  /** Only the first packet has been tried. */
  ghost predicate OnlyFirst(queue: seq<Packet>) {
    forall k | 1 <= k < |queue| :: queue[k].tryCount == 0 && !queue[k].pending
  }

  /** Attempts were made in order, none for a packet behind the first. */
  ghost predicate SentInOrder(sent: seq<Attempt>, finished: nat) {
    && (forall i | 0 <= i < |sent| :: sent[i].packet == sent[i].after <= finished)
    && (forall i, j | 0 <= i < j < |sent| :: sent[i].packet <= sent[j].packet)
  }

  ghost predicate Tried(s: State, retries: nat) {
    && (forall k | 0 <= k < |s.finished| :: s.finished[k].tries == Attempts(s.sent, k))
    && (forall k | 0 <= k < |s.finished| && !s.finished[k].ok :: s.finished[k].tries > retries)
    && (if s.queue == [] then Attempts(s.sent, |s.finished|) == 0
        else s.queue[0].tryCount == Attempts(s.sent, |s.finished|))
  }

  ghost predicate UnderWay(acks: map<nat, nat>, packet: nat) {
    exists id :: id in acks && acks[id] == packet
  }

  /** A pending packet has an attempt that will be acknowledged or time out. */
  ghost predicate Awaited(s: State) {
    && (forall id | id in s.acks :: id < s.ids)
    && (s.queue != [] && s.queue[0].pending ==> UnderWay(s.acks, s.queue[0].id))
  }

  ghost predicate Inv(s: State, retries: nat) {
    Ordered(s) && OnlyFirst(s.queue) && SentInOrder(s.sent, |s.finished|) && Tried(s, retries) && Awaited(s)
  }

  ghost predicate Live(s: State) {
    s.connected && s.queue != [] ==> s.queue[0].pending
  }

  lemma {:induction false} Invariant(events: seq<Event>, retries: nat)
    requires Run(events, retries).Some?
    ensures var s := Run(events, retries).value; Inv(s, retries) && Live(s) && s.queueSeq == Emissions(events)
  {
    if events != [] {
      var front, e := events[..|events| - 1], events[|events| - 1];
      Invariant(front, retries);
      var s := Run(front, retries).value;
      match e
      case Emit => EmitKeeps(s, retries);
      case Ack(id) => AckKeeps(s, id, retries);
      case Timer(id) => TimerKeeps(s, id, retries);
      case Connect => DrainKeeps(s.(connected := true), true, retries);
      case Close =>
    }
  }

  lemma DrainKeeps(s: State, force: bool, retries: nat)
    requires Inv(s, retries)
    ensures Inv(Drained(s, force), retries) && Live(Drained(s, force))
    ensures Drained(s, force).queueSeq == s.queueSeq
  {
    var s' := Drained(s, force);
    if s' != s {
      var p := s.queue[0];
      assert s'.acks[s.ids] == p.id;
      AttemptsSnoc(s.sent, s'.sent[|s.sent|]);
    }
  }

  lemma AttemptsSnoc(sent: seq<Attempt>, a: Attempt)
    ensures forall packet ::
              Attempts(sent + [a], packet) == Attempts(sent, packet) + if a.packet == packet then 1 else 0
  {
    assert (sent + [a])[..|sent|] == sent;
  }

  lemma EmitKeeps(s: State, retries: nat)
    requires Inv(s, retries)
    ensures Inv(Emitted(s), retries) && Live(Emitted(s)) && Emitted(s).queueSeq == s.queueSeq + 1
  {
    var s' := s.(queue := s.queue + [Packet(s.queueSeq, 0, false)], queueSeq := s.queueSeq + 1);
    AppendKeeps(s, s', retries);
    DrainKeeps(s', false, retries);
  }

  lemma AppendKeeps(s: State, s': State, retries: nat)
    requires Inv(s, retries)
    requires s' == s.(queue := s.queue + [Packet(s.queueSeq, 0, false)], queueSeq := s.queueSeq + 1)
    ensures Inv(s', retries)
  {
    if s.queue == [] {
      NoneAhead(s.sent, |s.finished|);
    }
  }

  /** The callback of some packet, when none of its attempts need be under way any more. */
  lemma CallbackKeeps(s: State, packet: nat, ok: bool, retries: nat)
    requires Ordered(s) && OnlyFirst(s.queue) && SentInOrder(s.sent, |s.finished|) && Tried(s, retries)
    requires forall id | id in s.acks :: id < s.ids
    requires s.queue != [] && s.queue[0].pending && s.queue[0].id != packet ==> UnderWay(s.acks, s.queue[0].id)
    requires Live(s)
    ensures var s' := CalledBack(s, packet, ok, retries);
            Inv(s', retries) && Live(s') && s'.queueSeq == s.queueSeq
  {
    if s.queue != [] && s.queue[0].id == packet {
      if ok || s.queue[0].tryCount > retries {
        ShiftKeeps(s, ok, retries);
        DrainKeeps(Shifted(s, ok), false, retries);
      } else {
        DrainKeeps(s.(queue := [s.queue[0].(pending := false)] + s.queue[1..]), false, retries);
      }
    }
  }

  lemma ShiftKeeps(s: State, ok: bool, retries: nat)
    requires Ordered(s) && OnlyFirst(s.queue) && SentInOrder(s.sent, |s.finished|) && Tried(s, retries)
    requires s.queue != [] && (ok || s.queue[0].tryCount > retries) && forall id | id in s.acks :: id < s.ids
    ensures Inv(Shifted(s, ok), retries)
  {
    NoneAhead(s.sent, |s.finished|);
  }

  lemma {:induction false} NoneAhead(sent: seq<Attempt>, finished: nat)
    requires forall i | 0 <= i < |sent| :: sent[i].packet <= finished
    ensures Attempts(sent, finished + 1) == 0
  {
    if sent != [] {
      NoneAhead(sent[..|sent| - 1], finished);
    }
  }

  lemma AckKeeps(s: State, id: nat, retries: nat)
    requires Inv(s, retries) && Live(s)
    ensures var s' := Acknowledged(s, id, retries); Inv(s', retries) && Live(s') && s'.queueSeq == s.queueSeq
  {
    if id in s.acks {
      var packet := s.acks[id];
      var s1, s' := CalledBack(s, packet, true, retries), Acknowledged(s, id, retries);
      CallbackKeeps(s, packet, true, retries);
      SuccessMovesOn(s, id, retries);
      if s1.queue != [] && s1.queue[0].pending {
        var other :| other in s1.acks && s1.acks[other] == s1.queue[0].id;
        assert other in s'.acks && s'.acks[other] == s'.queue[0].id;
      }
    }
  }

  /** After a success the packet is not the first of the queue, so the others do not depend on its attempts. */
  lemma SuccessMovesOn(s: State, id: nat, retries: nat)
    requires Inv(s, retries) && id in s.acks
    ensures var s' := CalledBack(s, s.acks[id], true, retries);
            && id in s'.acks && s'.acks[id] == s.acks[id]
            && (s'.queue != [] ==> s'.queue[0].id != s.acks[id])
  {
    if s.queue != [] && |s.queue| > 1 {
      assert s.queue[1].id == |s.finished| + 1;
    }
  }

  lemma TimerKeeps(s: State, id: nat, retries: nat)
    requires Inv(s, retries) && Live(s) && id in s.acks
    ensures var s' := TimedOut(s, id, retries); Inv(s', retries) && Live(s') && s'.queueSeq == s.queueSeq
  {
    var s1 := s.(acks := s.acks - {id});
    if s.queue != [] && s.queue[0].pending && s.queue[0].id != s.acks[id] {
      var other :| other in s.acks && s.acks[other] == s.queue[0].id;
      assert other in s1.acks && s1.acks[other] == s.queue[0].id;
    }
    CallbackKeeps(s1, s.acks[id], false, retries);
  }
}
