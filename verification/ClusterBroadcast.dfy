/**
  Broadcasts in a cluster whose sockets and rooms stay as they are: messages arrive at each server in any order.
 */
module ClusterBroadcast {
  import opened Common
  import opened RoomIndex
  import opened RedisBus
  import opened Cluster

  /** One copy of a packet for one socket. */
  datatype Copy = Copy(id: SocketId, data: Data)

  datatype Envelope = Envelope(to: nat, message: Message)

  /** A broadcast made by one of the servers; `key` is the room it names the channel after. */
  datatype Send = Send(from: nat, data: Data, opts: Options, local: bool, key: Room)

  datatype Transfer = Sending(send: Send) | Delivering(position: nat)

  datatype Net = Net(pending: seq<Envelope>, received: multiset<Copy>)

  ghost predicate Possible(ls: seq<Local>, s: Send) {
    s.from < |ls| && (s.opts.rooms != {} ==> s.key in s.opts.rooms)
  }

  function MessageOf(ls: seq<Local>, s: Send): Message
    requires s.from < |ls|
  {
    Message(ls[s.from].uid, SuffixOf(s.opts, s.key), s.data, s.opts)
  }

  /** One envelope for every subscriber, the publisher included. */
  function Envelopes(n: nat, m: Message): seq<Envelope> {
    if n == 0 then [] else Envelopes(n - 1, m) + [Envelope(n - 1, m)]
  }

  function CopiesFor(ids: set<SocketId>, data: Data): multiset<Copy> {
    multiset(set id | id in ids :: Copy(id, data))
  }

  /** How often a copy is among those for the given sockets. */
  function One(ids: set<SocketId>, data: Data, c: Copy): nat {
    if c.data == data && c.id in ids then 1 else 0
  }

  lemma CopiesForCount(ids: set<SocketId>, data: Data, c: Copy)
    ensures CopiesFor(ids, data)[c] == One(ids, data, c)
  {
    assert c in (set id | id in ids :: Copy(id, data)) <==> c.data == data && c.id in ids;
  }

  ghost function After(ls: seq<Local>, net: Net, t: Transfer): Option<Net> {
    match t
    case Sending(s) =>
      if !Possible(ls, s) then None
      else
        var posted := if s.local then [] else Envelopes(|ls|, MessageOf(ls, s));
        Some(Net(net.pending + posted, net.received + CopiesFor(LocalTargets(ls[s.from], s.opts), s.data)))
    case Delivering(i) =>
      if i >= |net.pending| || net.pending[i].to >= |ls| then None
      else
        var e := net.pending[i];
        Some(Net(net.pending[..i] + net.pending[i + 1..],
                 net.received + CopiesFor(Written(ls[e.to], e.message), e.message.data)))
  }

  ghost function Transferred(ls: seq<Local>, ts: seq<Transfer>): Option<Net> {
    if ts == [] then Some(Net([], multiset{}))
    else
      match Transferred(ls, ts[..|ts| - 1])
      case None => None
      case Some(net) => After(ls, net, ts[|ts| - 1])
  }

  // ---------- what a run should come to ----------

  /** All sockets of the cluster a broadcast is addressed to: those of one server if it is local. */
  ghost function Addressees(ls: seq<Local>, s: Send): set<SocketId>
    requires s.from < |ls|
  {
    if s.local then LocalTargets(ls[s.from], s.opts) else LocalTargets(Merged(ls), s.opts)
  }

  /** The other server writes the packet to its sockets. */
  ghost predicate Hears(l: Local, s: Send) {
    s.opts.rooms != {} && (s.key == "" || RoomExists(l.sids, s.key))
  }

  /** The sockets of the first `n` servers that get the packet. */
  ghost function Reached(ls: seq<Local>, n: nat, s: Send): set<SocketId>
    requires n <= |ls| && s.from < |ls|
  {
    if n == 0 then {}
    else
      var l := ls[n - 1];
      Reached(ls, n - 1, s) +
      (if n - 1 == s.from || (!s.local && Hears(l, s)) then LocalTargets(l, s.opts) else {})
  }

  /** How many of some copy a transfer makes due. */
  ghost function Gain(ls: seq<Local>, t: Transfer, c: Copy): nat {
    if t.Sending? && t.send.from < |ls| then One(Reached(ls, |ls|, t.send), t.send.data, c) else 0
  }

  ghost function Due(ls: seq<Local>, ts: seq<Transfer>, c: Copy): nat {
    if ts == [] then 0 else Due(ls, ts[..|ts| - 1], c) + Gain(ls, ts[|ts| - 1], c)
  }

  /**
    At every moment of any run what the sockets have received is part of what is due to them, and it is all of it
    when no message is under way: one copy of every packet for each socket it reaches.
   */
  lemma DeliversWhatIsDue(ls: seq<Local>, ts: seq<Transfer>)
    requires Separate(ls) && Transferred(ls, ts).Some?
    ensures var net := Transferred(ls, ts).value;
            forall c :: net.received[c] <= Due(ls, ts, c) && (net.pending == [] ==> net.received[c] == Due(ls, ts, c))
  {
    var net := Transferred(ls, ts).value;
    forall c ensures net.received[c] <= Due(ls, ts, c) && (net.pending == [] ==> net.received[c] == Due(ls, ts, c)) {
      Balance(ls, ts, c);
    }
  }

  /** A broadcast reaches everybody it is addressed to exactly when all other servers concerned hear it. */
  lemma ReachesAllIff(ls: seq<Local>, s: Send)
    requires Separate(ls) && Possible(ls, s) && !s.local
    ensures Reached(ls, |ls|, s) == Addressees(ls, s) <==>
            forall i | 0 <= i < |ls| && i != s.from :: LocalTargets(ls[i], s.opts) == {} || Hears(ls[i], s)
  {
    MergedTargets(ls, s.opts);
    forall i | 0 <= i < |ls| && i != s.from
      ensures LocalTargets(ls[i], s.opts) != {} && !Hears(ls[i], s) ==> Reached(ls, |ls|, s) != Addressees(ls, s)
    {
      if LocalTargets(ls[i], s.opts) != {} && !Hears(ls[i], s) {
        var id :| id in LocalTargets(ls[i], s.opts);
        ReachedMember(ls, |ls|, s, id);
        TargetOfOne(ls, s.opts, i, id);
      }
    }
    if forall i | 0 <= i < |ls| && i != s.from :: LocalTargets(ls[i], s.opts) == {} || Hears(ls[i], s) {
      forall id ensures id in Reached(ls, |ls|, s) <==> id in Addressees(ls, s) {
        ReachedMember(ls, |ls|, s, id);
      }
    }
  }

  ghost predicate ReachesAll(ls: seq<Local>, s: Send) {
    Separate(ls) && Possible(ls, s) ==> Reached(ls, |ls|, s) == Addressees(ls, s)
  }

  ghost predicate AlwaysReachesAll(opts: Options, local: bool, key: Room) {
    forall ls, from, data :: ReachesAll(ls, Send(from, data, opts, local, key))
  }

  /**
    What a sender can tell beforehand: the broadcast reaches everybody in every cluster if and only if it is local,
    or names a room and no room that is not excepted lies outside the one its channel is named after.
   */
  lemma AlwaysReachesAllIff(opts: Options, local: bool, key: Room)
    requires opts.rooms != {} ==> key in opts.rooms
    ensures AlwaysReachesAll(opts, local, key) <==>
            local || (opts.rooms != {} && (key == "" || opts.rooms - opts.except <= {key}))
  {
    if local || (opts.rooms != {} && (key == "" || opts.rooms - opts.except <= {key})) {
      forall ls, from, data ensures ReachesAll(ls, Send(from, data, opts, local, key)) {
        EnoughToReachAll(ls, Send(from, data, opts, local, key));
      }
    } else {
      var joined: set<Room> := {};
      if opts.rooms != {} {
        var other :| other in opts.rooms - opts.except && other != key;
        joined := {other};
        assert other in opts.rooms * joined;
      }
      assert opts.except * joined == {};
      MissesSocket(opts, key, joined);
    }
  }

  lemma EnoughToReachAll(ls: seq<Local>, s: Send)
    requires s.local || (s.opts.rooms != {} && (s.key == "" || s.opts.rooms - s.opts.except <= {s.key}))
    ensures ReachesAll(ls, s)
  {
    if Separate(ls) && Possible(ls, s) {
      if s.local {
        LocalReachesAll(ls, s);
      } else {
        forall i | 0 <= i < |ls| ensures LocalTargets(ls[i], s.opts) == {} || Hears(ls[i], s) {
          if id :| id in LocalTargets(ls[i], s.opts) {
            var room :| room in s.opts.rooms * ls[i].sids[id];
            assert room !in s.opts.except * ls[i].sids[id];
            assert room in s.opts.rooms - s.opts.except;
            assert Joined(ls[i].sids, id, room);
          }
        }
        ReachesAllIff(ls, s);
      }
    }
  }

  /** One other server with one socket in rooms that are addressed, but not the one of the channel. */
  lemma MissesSocket(opts: Options, key: Room, joined: set<Room>)
    requires opts.rooms != {} ==> key in opts.rooms && key != ""
    requires Included(joined, opts) && key !in joined
    ensures !AlwaysReachesAll(opts, false, key)
  {
    var ls := [Local("a", map[], {}), Local("b", map["s" := joined], {"s"})];
    var s := Send(0, "", opts, false, key);
    assert "s" in LocalTargets(ls[1], opts);
    assert !RoomExists(ls[1].sids, key);
    ReachesAllIff(ls, s);
    assert !ReachesAll(ls, s);
  }

  lemma LocalReachesAll(ls: seq<Local>, s: Send)
    requires Separate(ls) && Possible(ls, s) && s.local
    ensures Reached(ls, |ls|, s) == Addressees(ls, s)
  {
    forall id ensures id in Reached(ls, |ls|, s) <==> id in LocalTargets(ls[s.from], s.opts) {
      ReachedMember(ls, |ls|, s, id);
    }
  }

  /** A broadcast to two rooms that is announced under the one the other server does not have. */
  lemma TwoRoomsCanMiss()
    ensures var ls := [Local("a", map[], {}), Local("b", map["s" := {"y"}], {"s"})];
            var s := Send(0, "hello", Options({"x", "y"}, {}), false, "x");
            Separate(ls) && Possible(ls, s) && Reached(ls, 2, s) != Addressees(ls, s)
  {
    var ls := [Local("a", map[], {}), Local("b", map["s" := {"y"}], {"s"})];
    var s := Send(0, "hello", Options({"x", "y"}, {}), false, "x");
    assert "y" in s.opts.rooms * ls[1].sids["s"];
    assert "s" in LocalTargets(ls[1], s.opts);
    ReachesAllIff(ls, s);
  }

  /** A broadcast to one room reaches every socket it is addressed to, and a local one all on its server. */
  lemma OneRoomReachesAll(ls: seq<Local>, s: Send)
    requires Separate(ls) && Possible(ls, s) && (s.local || |s.opts.rooms| == 1)
    ensures Reached(ls, |ls|, s) == Addressees(ls, s)
  {
    if !s.local {
      OnlyRoom(s.opts.rooms, s.key);
    }
    EnoughToReachAll(ls, s);
  }

  /** Broadcasts to one room each, by any servers and arriving in any order: exactly one copy for each addressee. */
  lemma OneRoomExactlyOnce(ls: seq<Local>, ts: seq<Transfer>)
    requires Separate(ls) && Transferred(ls, ts).Some? && Transferred(ls, ts).value.pending == []
    requires forall i | 0 <= i < |ts| && ts[i].Sending? :: ts[i].send.local || |ts[i].send.opts.rooms| == 1
    ensures forall c :: Transferred(ls, ts).value.received[c] == AllAddressed(ls, ts, c)
  {
    DeliversWhatIsDue(ls, ts);
    forall c ensures Due(ls, ts, c) == AllAddressed(ls, ts, c) {
      DueIsAddressed(ls, ts, c);
    }
  }

  ghost function AllAddressed(ls: seq<Local>, ts: seq<Transfer>, c: Copy): nat {
    if ts == [] then 0
    else
      var t := ts[|ts| - 1];
      AllAddressed(ls, ts[..|ts| - 1], c) +
      (if t.Sending? && t.send.from < |ls| then One(Addressees(ls, t.send), t.send.data, c) else 0)
  }

  // ---------- proofs ----------

  lemma {:induction false} DueIsAddressed(ls: seq<Local>, ts: seq<Transfer>, c: Copy)
    requires Separate(ls) && Transferred(ls, ts).Some?
    requires forall i | 0 <= i < |ts| && ts[i].Sending? :: ts[i].send.local || |ts[i].send.opts.rooms| == 1
    ensures Due(ls, ts, c) == AllAddressed(ls, ts, c)
  {
    if ts != [] {
      var t := ts[|ts| - 1];
      DueIsAddressed(ls, ts[..|ts| - 1], c);
      if t.Sending? {
        OneRoomReachesAll(ls, t.send);
      }
    }
  }

  lemma OnlyRoom(rooms: set<Room>, key: Room)
    requires |rooms| == 1 && key in rooms
    ensures rooms == {key}
  {
    assert |rooms - {key}| == 0;
  }

  /** How many of some copy the messages under way will still bring. */
  ghost function Coming(ls: seq<Local>, pending: seq<Envelope>, c: Copy): nat {
    if pending == [] then 0
    else
      var e := pending[|pending| - 1];
      Coming(ls, pending[..|pending| - 1], c) +
      (if e.to < |ls| then One(Written(ls[e.to], e.message), e.message.data, c) else 0)
  }

  lemma {:induction false} Balance(ls: seq<Local>, ts: seq<Transfer>, c: Copy)
    requires Separate(ls) && Transferred(ls, ts).Some?
    ensures var net := Transferred(ls, ts).value;
            net.received[c] + Coming(ls, net.pending, c) == Due(ls, ts, c)
  {
    if ts != [] {
      var front, t := ts[..|ts| - 1], ts[|ts| - 1];
      Balance(ls, front, c);
      TransferKeepsBalance(ls, Transferred(ls, front).value, t, c);
    }
  }

  lemma TransferKeepsBalance(ls: seq<Local>, net: Net, t: Transfer, c: Copy)
    requires Separate(ls) && After(ls, net, t).Some?
    ensures var net' := After(ls, net, t).value;
            net'.received[c] + Coming(ls, net'.pending, c) ==
            net.received[c] + Coming(ls, net.pending, c) + Gain(ls, t, c)
  {
    match t
    case Sending(s) =>
      SendKeepsBalance(ls, net.pending, s, c);
      CopiesForCount(LocalTargets(ls[s.from], s.opts), s.data, c);
    case Delivering(i) =>
      var e := net.pending[i];
      ComingWithout(ls, net.pending, i, c);
      CopiesForCount(Written(ls[e.to], e.message), e.message.data, c);
  }

  lemma {:induction false} ComingConcat(ls: seq<Local>, a: seq<Envelope>, b: seq<Envelope>, c: Copy)
    ensures Coming(ls, a + b, c) == Coming(ls, a, c) + Coming(ls, b, c)
  {
    if b == [] {
      assert a + b == a;
    } else {
      assert (a + b)[..|a + b| - 1] == a + b[..|b| - 1];
      ComingConcat(ls, a, b[..|b| - 1], c);
    }
  }

  lemma ComingWithout(ls: seq<Local>, pending: seq<Envelope>, i: nat, c: Copy)
    requires i < |pending| && pending[i].to < |ls|
    ensures var e := pending[i];
            Coming(ls, pending, c) ==
            One(Written(ls[e.to], e.message), e.message.data, c) + Coming(ls, pending[..i] + pending[i + 1..], c)
  {
    var e := pending[i];
    assert pending == pending[..i] + [e] + pending[i + 1..];
    ComingConcat(ls, pending[..i] + [e], pending[i + 1..], c);
    ComingSnoc(ls, pending[..i], e, c);
    ComingConcat(ls, pending[..i], pending[i + 1..], c);
  }

  lemma ComingSnoc(ls: seq<Local>, es: seq<Envelope>, e: Envelope, c: Copy)
    requires e.to < |ls|
    ensures Coming(ls, es + [e], c) == Coming(ls, es, c) + One(Written(ls[e.to], e.message), e.message.data, c)
  {
    assert (es + [e])[..|es|] == es;
  }

  lemma SendKeepsBalance(ls: seq<Local>, pending: seq<Envelope>, s: Send, c: Copy)
    requires Separate(ls) && Possible(ls, s)
    ensures var posted := if s.local then [] else Envelopes(|ls|, MessageOf(ls, s));
            One(LocalTargets(ls[s.from], s.opts), s.data, c) + Coming(ls, pending + posted, c) ==
            Coming(ls, pending, c) + One(Reached(ls, |ls|, s), s.data, c)
  {
    if s.local {
      assert pending + [] == pending;
      OneRoomReachesAll(ls, s);
    } else {
      ComingConcat(ls, pending, Envelopes(|ls|, MessageOf(ls, s)), c);
      forall i | 0 <= i < |ls| ensures One(Written(ls[i], MessageOf(ls, s)), s.data, c) == Remote(ls, i, s, c) {
        WrittenToRemote(ls, i, s, c);
      }
      EnvelopesBring(ls, |ls|, s, MessageOf(ls, s), c);
      ReachedIsSum(ls, |ls|, s, c);
    }
  }

  /** What a server other than the sender adds to the copies of a packet. */
  ghost function Remote(ls: seq<Local>, i: nat, s: Send, c: Copy): nat
    requires i < |ls|
  {
    if i != s.from && Hears(ls[i], s) then One(LocalTargets(ls[i], s.opts), s.data, c) else 0
  }

  /** The sum over the first `n` servers; the recursion over them is shared by what is sent and what is reached. */
  ghost function Remotes(ls: seq<Local>, n: nat, s: Send, c: Copy): nat
    requires n <= |ls|
  {
    if n == 0 then 0 else Remotes(ls, n - 1, s, c) + Remote(ls, n - 1, s, c)
  }

  /** The envelopes bring the packet to the sockets of the servers that hear it, but not to the sender's own. */
  lemma {:induction false} EnvelopesBring(ls: seq<Local>, n: nat, s: Send, m: Message, c: Copy)
    requires n <= |ls| && m.data == s.data
    requires forall i | 0 <= i < |ls| :: One(Written(ls[i], m), s.data, c) == Remote(ls, i, s, c)
    ensures Coming(ls, Envelopes(n, m), c) == Remotes(ls, n, s, c)
  {
    if n > 0 {
      EnvelopesBring(ls, n - 1, s, m, c);
      ComingSnoc(ls, Envelopes(n - 1, m), Envelope(n - 1, m), c);
    }
  }

  lemma {:induction false} ReachedIsSum(ls: seq<Local>, n: nat, s: Send, c: Copy)
    requires Separate(ls) && Possible(ls, s) && !s.local && n <= |ls|
    ensures One(Reached(ls, n, s), s.data, c) ==
            Remotes(ls, n, s, c) + if s.from < n then One(LocalTargets(ls[s.from], s.opts), s.data, c) else 0
  {
    if n > 0 {
      ReachedIsSum(ls, n - 1, s, c);
      ReachedMore(ls, n, s, c);
    }
  }

  lemma WrittenToRemote(ls: seq<Local>, i: nat, s: Send, c: Copy)
    requires Separate(ls) && Possible(ls, s) && i < |ls|
    ensures One(Written(ls[i], MessageOf(ls, s)), s.data, c) == Remote(ls, i, s, c)
  {
    AcceptsIffHears(ls, i, s);
  }

  lemma ReachedMore(ls: seq<Local>, n: nat, s: Send, c: Copy)
    requires Separate(ls) && Possible(ls, s) && !s.local && 0 < n <= |ls|
    ensures One(Reached(ls, n, s), s.data, c) ==
            One(Reached(ls, n - 1, s), s.data, c) + Remote(ls, n - 1, s, c) +
            if n - 1 == s.from then One(LocalTargets(ls[n - 1], s.opts), s.data, c) else 0
  {
    ReachedApart(ls, n - 1, s, n - 1);
  }

  lemma AcceptsIffHears(ls: seq<Local>, i: nat, s: Send)
    requires Separate(ls) && Possible(ls, s) && i < |ls|
    ensures Accepts(ls[i], MessageOf(ls, s)) <==> i != s.from && Hears(ls[i], s)
  {
    if s.opts.rooms != {} {
      assert (s.key + "#")[..|s.key|] == s.key;
    }
  }

  lemma {:induction false} ReachedApart(ls: seq<Local>, n: nat, s: Send, i: nat)
    requires Separate(ls) && s.from < |ls| && n <= i < |ls|
    ensures Reached(ls, n, s) !! LocalTargets(ls[i], s.opts)
  {
    if n > 0 {
      ReachedApart(ls, n - 1, s, i);
      assert Owned(ls[n - 1]) !! Owned(ls[i]);
    }
  }

  lemma {:induction false} ReachedMember(ls: seq<Local>, n: nat, s: Send, id: SocketId)
    requires n <= |ls| && s.from < |ls|
    ensures id in Reached(ls, n, s) <==>
            exists i ::
              0 <= i < n && (i == s.from || (!s.local && Hears(ls[i], s))) && id in LocalTargets(ls[i], s.opts)
  {
    if n > 0 {
      ReachedMember(ls, n - 1, s, id);
    }
  }

  /** The targets of one adapter with all sockets are those of the servers. */
  lemma {:induction false} MergedTargets(ls: seq<Local>, opts: Options)
    requires Separate(ls)
    ensures forall id :: id in LocalTargets(Merged(ls), opts) <==>
                         exists i :: 0 <= i < |ls| && id in LocalTargets(ls[i], opts)
  {
    if ls != [] {
      var front, l := ls[..|ls| - 1], ls[|ls| - 1];
      MergedTargets(front, opts);
      OwnedOfMerged(front, Owned(l));
      assert LocalTargets(Merged(ls), opts) == LocalTargets(Merged(front), opts) + LocalTargets(l, opts);
    }
  }

  lemma TargetOfOne(ls: seq<Local>, opts: Options, i: nat, id: SocketId)
    requires Separate(ls) && i < |ls| && id in LocalTargets(ls[i], opts)
    ensures forall j | 0 <= j < |ls| && j != i :: id !in LocalTargets(ls[j], opts)
  {
    forall j | 0 <= j < |ls| && j != i ensures id !in LocalTargets(ls[j], opts) {
      assert Owned(ls[i]) !! Owned(ls[j]);
    }
  }
}
