/**
  The adapter behind connection-state recovery: a log of persisted packets, the sessions of clients
  that went away, a periodic sweep over both, and the replay of what a returning client missed.
 */
module SessionAwareAdapter {
  import opened Common
  import opened RoomIndex
  import opened Adapter
  import Yeast

  type Pid = string

  /** An argument of an event, as far as recovery is concerned. */
  datatype Arg = Text(text: string) | Other(value: int)

  /** A persisted packet. The id is also the last argument of its data. */
  datatype Packet = Packet(id: string, emittedAt: int, data: seq<Arg>, opts: Options)

  datatype StoredSession = StoredSession(rooms: set<Room>, disconnectedAt: int)

  datatype Session = Session(rooms: set<Room>, missed: seq<seq<Arg>>)

  type Sessions = map<Pid, StoredSession>

  // ---------- specification ----------

  function AliveSessions(sessions: Sessions, threshold: int): Sessions {
    map pid | pid in sessions && threshold <= sessions[pid].disconnectedAt :: sessions[pid]
  }

  /** The first packet emitted before the threshold; the length of the log when there is none. */
  function FirstExpired(packets: seq<Packet>, threshold: int): (i: nat)
    ensures i <= |packets|
    ensures forall j | 0 <= j < i :: threshold <= packets[j].emittedAt
    ensures i < |packets| ==> packets[i].emittedAt < threshold
  {
    if packets == [] || packets[0].emittedAt < threshold then 0
    else 1 + FirstExpired(packets[1..], threshold)
  }

  /** The log after one sweep: cut up to the first expired packet. */
  function Pruned(packets: seq<Packet>, threshold: int): seq<Packet> {
    var i := FirstExpired(packets, threshold);
    if i == |packets| then packets else packets[i + 1..]
  }

  /** The first packet with the given id; the length of the log when there is none. */
  function IndexOf(packets: seq<Packet>, id: string): (i: nat)
    ensures i <= |packets|
    ensures forall j | 0 <= j < i :: packets[j].id != id
    ensures i < |packets| ==> packets[i].id == id
  {
    if packets == [] || packets[0].id == id then 0 else 1 + IndexOf(packets[1..], id)
  }

  /** The data of the packets addressed to a client with the given rooms, in log order. */
  function Missed(packets: seq<Packet>, rooms: set<Room>): seq<seq<Arg>> {
    if packets == [] then []
    else
      var last := packets[|packets| - 1];
      Missed(packets[..|packets| - 1], rooms) + (if Included(rooms, last.opts) then [last.data] else [])
  }

  function HasExpired(session: StoredSession, maxDuration: int, now: int): bool {
    session.disconnectedAt + maxDuration < now
  }

  /** What a returning client gets. */
  function Restored(sessions: Sessions, packets: seq<Packet>, maxDuration: int,
                    pid: Pid, offset: string, now: int): Option<Session> {
    if pid !in sessions || HasExpired(sessions[pid], maxDuration, now) then None
    else
      var index := IndexOf(packets, offset);
      if index == |packets| then None
      else Some(Session(sessions[pid].rooms, Missed(packets[index + 1..], sessions[pid].rooms)))
  }

  // ---------- the adapter ----------

  class RecoveringAdapter {
    const base: InMemoryAdapter
    const ids: Yeast.Generator
    const maxDisconnectionDuration: int
    var sessions: Sessions
    var packets: seq<Packet>

    constructor (base: InMemoryAdapter, ids: Yeast.Generator, maxDisconnectionDuration: int)
      ensures this.base == base && this.ids == ids
      ensures this.maxDisconnectionDuration == maxDisconnectionDuration
      ensures sessions == map[] && packets == []
    {
      this.base, this.ids, this.maxDisconnectionDuration := base, ids, maxDisconnectionDuration;
      sessions, packets := map[], [];
    }

    /** One tick of the sweep timer. */
    method Sweep(now: int)
      modifies this
      ensures sessions == AliveSessions(old(sessions), now - maxDisconnectionDuration)
      ensures packets == Pruned(old(packets), now - maxDisconnectionDuration)
    {
      var threshold := now - maxDisconnectionDuration;
      SweepSessions(threshold);
      SweepPackets(threshold);
    }

    /** Walks the live session map, deleting as it goes. */
    method SweepSessions(threshold: int)
      modifies this`sessions
      ensures sessions == AliveSessions(old(sessions), threshold)
    {
      var ranged: set<Pid> := {};
      while sessions.Keys - ranged != {}
        invariant ranged <= old(sessions).Keys
        invariant sessions == map pid | pid in old(sessions) &&
                                        (pid !in ranged || threshold <= old(sessions)[pid].disconnectedAt)
                                      :: old(sessions)[pid]
        decreases old(sessions).Keys - ranged
      {
        var pid :| pid in sessions.Keys - ranged;
        ranged := ranged + {pid};
        if sessions[pid].disconnectedAt < threshold {
          sessions := sessions - {pid};
        }
      }
    }

    /** Cuts the log after the first expired packet found. */
    method SweepPackets(threshold: int)
      modifies this`packets
      ensures packets == Pruned(old(packets), threshold)
    {
      var i := 0;
      while i < |packets|
        invariant i <= FirstExpired(packets, threshold) && packets == old(packets)
      {
        if packets[i].emittedAt < threshold {
          packets := packets[i + 1..];
          return;
        }
        i := i + 1;
      }
    }

    /** Saves the session of a client that may come back. */
    method PersistSession(pid: Pid, rooms: set<Room>, now: int)
      modifies this`sessions
      ensures sessions == old(sessions)[pid := StoredSession(rooms, now)]
    {
      sessions := sessions[pid := StoredSession(rooms, now)];
    }

    /** Finds the session of a returning client and the packets it missed. */
    method RestoreSession(pid: Pid, offset: string, now: int) returns (session: Option<Session>)
      modifies this`sessions
      ensures session == Restored(old(sessions), packets, maxDisconnectionDuration, pid, offset, now)
      ensures sessions == if pid in old(sessions) && HasExpired(old(sessions)[pid], maxDisconnectionDuration, now)
                          then old(sessions) - {pid} else old(sessions)
    {
      if pid !in sessions {
        return None;
      }
      var stored := sessions[pid];
      if stored.disconnectedAt + maxDisconnectionDuration < now {
        sessions := sessions - {pid};
        return None;
      }
      var index := -1;
      for i := 0 to |packets|
        invariant index == -1 && i <= IndexOf(packets, offset) && sessions == old(sessions)
      {
        if packets[i].id == offset {
          index := i;
          break;
        }
      }
      if index == -1 {
        return None;
      }
      var missed: seq<seq<Arg>> := [];
      ghost var rest := packets[index + 1..];
      assert rest[..0] == [];
      for i := index + 1 to |packets|
        invariant missed == Missed(rest[..i - index - 1], stored.rooms) && sessions == old(sessions)
      {
        var included := ShouldIncludePacket(stored.rooms, packets[i].opts);
        assert rest[..i - index][..i - index - 1] == rest[..i - index - 1];
        if included {
          missed := missed + [packets[i].data];
        }
      }
      assert rest[..|rest|] == rest;
      return Some(Session(stored.rooms, missed));
    }

    /**
      Sends an event to the live sockets. Events without acknowledgement that are not volatile are given
      an id, which becomes their last argument, and are logged for clients that are away.
     */
    method Broadcast(isEvent: bool, withAck: bool, isVolatile: bool, args: seq<Arg>, opts: Options, now: nat)
      returns (data: seq<Arg>, written: seq<SocketId>)
      requires base.Valid()
      modifies this`packets, ids, base
      ensures base.Valid() && base.sids == old(base.sids) && base.registered == old(base.registered)
      ensures Distinct(written) && (set id | id in written) == Targets(base.sids, base.registered, opts)
      ensures isEvent && !withAck && !isVolatile ==>
                var id := Yeast.Advance(Yeast.State(old(ids.seed), old(ids.prev)), now).1;
                data == args + [Text(id)] && packets == old(packets) + [Packet(id, now, data, opts)]
      ensures !(isEvent && !withAck && !isVolatile) ==> data == args && packets == old(packets)
    {
      data := args;
      if isEvent && !withAck && !isVolatile {
        var id := ids.Next(now);
        data := data + [Text(id)];
        packets := packets + [Packet(id, now, data, opts)];
      }
      written := base.Broadcast(opts);
    }
  }

  /** The pull side of targeting: walks the rooms of a session in any order, stopping early. */
  method ShouldIncludePacket(sessionRooms: set<Room>, opts: Options) returns (r: bool)
    ensures r == Included(sessionRooms, opts)
  {
    var included := opts.rooms == {};
    var notExcluded := true;
    var todo := sessionRooms;
    ghost var done: set<Room> := {};
    while todo != {}
      invariant done + todo == sessionRooms
      invariant included <==> opts.rooms == {} || opts.rooms * done != {}
      invariant notExcluded <==> opts.except * done == {}
      decreases todo
    {
      var room :| room in todo;
      if included && !notExcluded {
        assert opts.except * done <= opts.except * sessionRooms;
        break;
      }
      todo := todo - {room};
      assert opts.rooms * (done + {room}) == opts.rooms * done + (if room in opts.rooms then {room} else {});
      assert opts.except * (done + {room}) == opts.except * done + (if room in opts.except then {room} else {});
      done := done + {room};
      if !included && room in opts.rooms {
        included := true;
      }
      if notExcluded && room in opts.except {
        notExcluded := false;
      }
    }
    return included && notExcluded;
  }

  // ---------- what sweeping does to the log and to restores ----------

  ghost predicate Sorted(packets: seq<Packet>) {
    forall i, j | 0 <= i < j < |packets| :: packets[i].emittedAt <= packets[j].emittedAt
  }

  ghost predicate DistinctIds(packets: seq<Packet>) {
    forall i, j | 0 <= i < j < |packets| :: packets[i].id != packets[j].id
  }

  ghost predicate SuffixOf<T>(a: seq<T>, b: seq<T>) {
    |a| <= |b| && a == b[|b| - |a|..]
  }

  ghost predicate Holds(packets: seq<Packet>, id: string) {
    exists i | 0 <= i < |packets| :: packets[i].id == id
  }

  /** The packets after the one with the given id, if that one was kept, are the same. */
  ghost predicate SameTail(packets: seq<Packet>, kept: seq<Packet>, id: string) {
    var i, j := IndexOf(packets, id), IndexOf(kept, id);
    j < |kept| ==> i < |packets| && packets[i + 1..] == kept[j + 1..]
  }

  /** A restore after a sweep against the same restore without it. */
  ghost predicate NothingOrSame(swept: Option<Session>, unswept: Option<Session>, offsetKept: bool) {
    && (swept == None || swept == unswept)
    && (swept.Some? <==> unswept.Some? && offsetKept)
  }

  /** With timestamps in order a sweep drops the oldest packet if it has expired, and nothing else. */
  lemma SweepDropsAtMostOne(packets: seq<Packet>, threshold: int)
    requires Sorted(packets)
    ensures Pruned(packets, threshold) ==
            if packets != [] && packets[0].emittedAt < threshold then packets[1..] else packets
  {
    assert FirstExpired(packets, threshold) in {0, |packets|};
  }

  /** A sweep keeps every packet that has not expired exactly when none of them precedes an expired one. */
  lemma SweepKeepsUnexpiredIff(packets: seq<Packet>, threshold: int)
    ensures (forall j | 0 <= j < |packets| && threshold <= packets[j].emittedAt ::
               |packets| - |Pruned(packets, threshold)| <= j)
            <==> (FirstExpired(packets, threshold) in {0, |packets|})
    ensures SuffixOf(Pruned(packets, threshold), packets)
  {
    var i := FirstExpired(packets, threshold);
    if 0 < i < |packets| {
      assert threshold <= packets[0].emittedAt;
    }
  }

  /** A sweep does not catch up: expired packets stay whenever the second packet has expired as well. */
  lemma SweepLeavesExpiredIff(packets: seq<Packet>, threshold: int)
    requires Sorted(packets)
    ensures (forall p | p in Pruned(packets, threshold) :: threshold <= p.emittedAt)
            <==> |packets| < 2 || threshold <= packets[1].emittedAt
  {
    SweepDropsAtMostOne(packets, threshold);
    if |packets| >= 2 {
      assert packets[1] in packets[1..];
    }
  }

  /**
    Sweeping at any earlier or equal instant can only turn a restore into nothing, and does so exactly when it
    cut the offset packet from the log; it never changes what a successful restore returns. In particular the
    sweep never removes a session that the restore itself would not refuse.
   */
  lemma SweepIsObservationallySafe(sessions: Sessions, packets: seq<Packet>, maxDuration: int,
                                   alive: Sessions, kept: seq<Packet>,
                                   pid: Pid, offset: string, tick: int, now: int)
    requires alive == AliveSessions(sessions, tick - maxDuration) && kept == Pruned(packets, tick - maxDuration)
    requires tick <= now && DistinctIds(packets)
    ensures NothingOrSame(Restored(alive, kept, maxDuration, pid, offset, now),
                          Restored(sessions, packets, maxDuration, pid, offset, now), Holds(kept, offset))
  {
    SweepKeepsUnexpiredIff(packets, tick - maxDuration);
    SuffixKeepsReplay(packets, kept, offset);
    RestoredFromLess(sessions, alive, packets, kept, maxDuration, pid, offset, now);
  }

  /** The sessions after ticks at the given instants. */
  function SweptSessions(sessions: Sessions, maxDuration: int, ticks: seq<int>): Sessions {
    if ticks == [] then sessions
    else
      AliveSessions(SweptSessions(sessions, maxDuration, ticks[..|ticks| - 1]), ticks[|ticks| - 1] - maxDuration)
  }

  /** The log after ticks at the given instants. */
  function SweptLog(packets: seq<Packet>, maxDuration: int, ticks: seq<int>): seq<Packet> {
    if ticks == [] then packets
    else Pruned(SweptLog(packets, maxDuration, ticks[..|ticks| - 1]), ticks[|ticks| - 1] - maxDuration)
  }

  /** What is left is the end of the log, and a restore from it gives nothing or the same. */
  ghost predicate SafelySwept(sessions: Sessions, packets: seq<Packet>, alive: Sessions, kept: seq<Packet>,
                              maxDuration: int, pid: Pid, offset: string, now: int) {
    && SuffixOf(kept, packets) && DistinctIds(kept)
    && NothingOrSame(Restored(alive, kept, maxDuration, pid, offset, now),
                     Restored(sessions, packets, maxDuration, pid, offset, now), Holds(kept, offset))
  }

  /** The same for any number of ticks before the restore, in any order. */
  lemma {:induction false} SweepsAreObservationallySafe(sessions: Sessions, packets: seq<Packet>, maxDuration: int,
                                                        ticks: seq<int>, pid: Pid, offset: string, now: int)
    requires DistinctIds(packets) && forall i | 0 <= i < |ticks| :: ticks[i] <= now
    ensures SafelySwept(sessions, packets, SweptSessions(sessions, maxDuration, ticks),
                        SweptLog(packets, maxDuration, ticks), maxDuration, pid, offset, now)
  {
    if ticks == [] {
      NothingSwept(sessions, packets, maxDuration, pid, offset, now);
    } else {
      SweepsAreObservationallySafe(sessions, packets, maxDuration, ticks[..|ticks| - 1], pid, offset, now);
      LastSweep(sessions, packets, maxDuration, ticks, pid, offset, now);
    }
  }

  /** A stored session outlives the ticks exactly as long as none of them is more than the maximal duration later. */
  lemma {:induction false} SweptIff(sessions: Sessions, maxDuration: int, ticks: seq<int>, pid: Pid)
    ensures var swept := SweptSessions(sessions, maxDuration, ticks);
            && (pid in swept <==>
                && pid in sessions
                && forall i | 0 <= i < |ticks| :: ticks[i] - sessions[pid].disconnectedAt <= maxDuration)
            && (pid in swept ==> swept[pid] == sessions[pid])
  {
    if ticks != [] {
      var front := ticks[..|ticks| - 1];
      SweptIff(sessions, maxDuration, front, pid);
      assert forall i | 0 <= i < |front| :: front[i] == ticks[i];
    }
  }

  /**
    A session that was stored at some time, in whatever table, can be restored after any ticks if and only if no more
    than the maximal duration has passed since and the offset packet is in the log; its rooms are the stored ones.
   */
  lemma RestoredIff(sessions: Sessions, packets: seq<Packet>, maxDuration: int, pid: Pid, rooms: set<Room>, stored: int,
                    ticks: seq<int>, offset: string, now: int)
    requires forall i | 0 <= i < |ticks| :: ticks[i] <= now
    ensures var swept := SweptSessions(sessions[pid := StoredSession(rooms, stored)], maxDuration, ticks);
            var r := Restored(swept, packets, maxDuration, pid, offset, now);
            && (r.Some? <==> now - stored <= maxDuration && exists i | 0 <= i < |packets| :: packets[i].id == offset)
            && (r.Some? ==> r.value.rooms == rooms)
  {
    SweptIff(sessions[pid := StoredSession(rooms, stored)], maxDuration, ticks, pid);
    HoldsIffFound(packets, offset);
  }

  lemma LastSweep(sessions: Sessions, packets: seq<Packet>, maxDuration: int, ticks: seq<int>, pid: Pid,
                  offset: string, now: int)
    requires ticks != [] && ticks[|ticks| - 1] <= now
    requires var front := ticks[..|ticks| - 1];
             SafelySwept(sessions, packets, SweptSessions(sessions, maxDuration, front),
                         SweptLog(packets, maxDuration, front), maxDuration, pid, offset, now)
    ensures SafelySwept(sessions, packets, SweptSessions(sessions, maxDuration, ticks),
                        SweptLog(packets, maxDuration, ticks), maxDuration, pid, offset, now)
  {
    var front, tick := ticks[..|ticks| - 1], ticks[|ticks| - 1];
    var alive, kept := SweptSessions(sessions, maxDuration, front), SweptLog(packets, maxDuration, front);
    assert SweptSessions(sessions, maxDuration, ticks) == AliveSessions(alive, tick - maxDuration);
    assert SweptLog(packets, maxDuration, ticks) == Pruned(kept, tick - maxDuration);
    OneMoreSweep(sessions, packets, alive, kept, maxDuration, tick, pid, offset, now);
  }

  lemma OneMoreSweep(sessions: Sessions, packets: seq<Packet>, alive: Sessions, kept: seq<Packet>, maxDuration: int,
                     tick: int, pid: Pid, offset: string, now: int)
    requires SafelySwept(sessions, packets, alive, kept, maxDuration, pid, offset, now) && tick <= now
    ensures SafelySwept(sessions, packets, AliveSessions(alive, tick - maxDuration), Pruned(kept, tick - maxDuration),
                        maxDuration, pid, offset, now)
  {
    var alive', kept' := AliveSessions(alive, tick - maxDuration), Pruned(kept, tick - maxDuration);
    SweepIsObservationallySafe(alive, kept, maxDuration, alive', kept', pid, offset, tick, now);
    SweepKeepsUnexpiredIff(kept, tick - maxDuration);
    SuffixFacts(packets, kept, kept', offset);
  }

  lemma NothingSwept(sessions: Sessions, packets: seq<Packet>, maxDuration: int, pid: Pid, offset: string, now: int)
    requires DistinctIds(packets)
    ensures SafelySwept(sessions, packets, sessions, packets, maxDuration, pid, offset, now)
  {
    assert packets[0..] == packets;
    HoldsIffFound(packets, offset);
  }

  lemma SuffixFacts(packets: seq<Packet>, kept: seq<Packet>, kept': seq<Packet>, offset: string)
    requires SuffixOf(kept, packets) && SuffixOf(kept', kept) && DistinctIds(kept)
    ensures SuffixOf(kept', packets) && DistinctIds(kept') && (Holds(kept', offset) ==> Holds(kept, offset))
  {
    DropDrop(packets, |packets| - |kept|, |kept| - |kept'|);
    var cut := |kept| - |kept'|;
    assert forall i | 0 <= i < |kept'| :: kept'[i] == kept[cut + i];
  }

  lemma RestoredFromLess(sessions: Sessions, alive: Sessions, packets: seq<Packet>, kept: seq<Packet>,
                         maxDuration: int, pid: Pid, offset: string, now: int)
    requires pid in alive ==> pid in sessions && alive[pid] == sessions[pid]
    requires pid in sessions && !HasExpired(sessions[pid], maxDuration, now) ==> pid in alive
    requires SameTail(packets, kept, offset)
    ensures NothingOrSame(Restored(alive, kept, maxDuration, pid, offset, now),
                          Restored(sessions, packets, maxDuration, pid, offset, now), Holds(kept, offset))
  {
    HoldsIffFound(kept, offset);
  }

  /**
    A restore does not use the session up: until it expires the same session can be restored again, whether or not
    the socket of the first restore is still connected, for any offset that is still in the log.
   */
  lemma RestoredAgain(sessions: Sessions, packets: seq<Packet>, later: seq<Packet>, maxDuration: int, pid: Pid,
                      offset: string, offset': string, now: int, now': int)
    requires Restored(sessions, packets, maxDuration, pid, offset, now).Some?
    requires pid in sessions && now <= now' && !HasExpired(sessions[pid], maxDuration, now')
    ensures var first := Restored(sessions, packets, maxDuration, pid, offset, now);
            var second := Restored(sessions, later, maxDuration, pid, offset', now');
            && (second.Some? <==> Holds(later, offset'))
            && (second.Some? ==> second.value.rooms == first.value.rooms)
  {
    HoldsIffFound(later, offset');
  }

  lemma HoldsIffFound(packets: seq<Packet>, id: string)
    ensures Holds(packets, id) <==> IndexOf(packets, id) < |packets|
  {
  }

  lemma SuffixKeepsReplay(packets: seq<Packet>, kept: seq<Packet>, offset: string)
    requires DistinctIds(packets) && SuffixOf(kept, packets)
    ensures SameTail(packets, kept, offset)
  {
    var j := IndexOf(kept, offset);
    if j < |kept| {
      FoundInSuffix(packets, kept, offset, j);
      SameTailAt(packets, kept, offset, |packets| - |kept|, j);
    }
  }

  lemma SameTailAt(packets: seq<Packet>, kept: seq<Packet>, id: string, cut: nat, j: nat)
    requires cut <= |packets| && kept == packets[cut..] && j < |kept|
    requires IndexOf(packets, id) == cut + j && IndexOf(kept, id) == j
    ensures SameTail(packets, kept, id)
  {
    DropDrop(packets, cut, j + 1);
  }

  lemma FoundInSuffix(packets: seq<Packet>, kept: seq<Packet>, id: string, j: nat)
    requires DistinctIds(packets) && SuffixOf(kept, packets) && j < |kept| && kept[j].id == id
    ensures IndexOf(packets, id) == |packets| - |kept| + j
  {
    assert packets[|packets| - |kept| + j] == kept[j];
  }
}
