/**
  A cluster of servers, each with its own sockets, that serve bulk requests in the order of the request channel:
  once all messages are handled, together they have done what one adapter holding all the sockets would have done.
 */
module Cluster {
  import opened Common
  import opened RoomIndex
  import opened RedisBus

  datatype Node = Node(local: Local, inbox: seq<Request>)

  datatype Step =
    | Ask(node: nat, kind: Kind, opts: Options, rooms: seq<Room>)
    | Receive(node: nat, all: seq<Room>, order: seq<SocketId>)

  /** The channel delivers to every subscriber, the publisher included, and keeps the order of publication. */
  function Posted(c: seq<Node>, ms: seq<Request>): seq<Node> {
    seq(|c|, i requires 0 <= i < |c| => c[i].(inbox := c[i].inbox + ms))
  }

  function Asking(l: Local, step: Step): Request
    requires step.Ask?
  {
    Request(step.kind, l.uid, NO_SOCKET, step.opts, step.rooms)
  }

  /** One server takes the first message from its inbox. */
  function Received(c: seq<Node>, n: nat, all: seq<Room>, order: seq<SocketId>): seq<Node>
    requires n < |c| && c[n].inbox != []
  {
    var l, m := c[n].local, c[n].inbox[0];
    Posted(c[n := Node(AfterMessage(l, m, all), c[n].inbox[1..])], Published(l, m, all, order))
  }

  ghost function Next(c: seq<Node>, step: Step): Option<seq<Node>> {
    if step.node >= |c| then None
    else
      match step
      case Ask(n, _, _, _) => Some(Posted(c, [Asking(c[n].local, step)]))
      case Receive(n, all, order) =>
        if c[n].inbox != [] && Visits(c[n].local, c[n].inbox[0], all, order) then Some(Received(c, n, all, order))
        else None
  }

  ghost function Stepping(): (seq<Node>, Step) -> Option<seq<Node>> {
    (c, step) => Next(c, step)
  }

  ghost function Run(c: seq<Node>, steps: seq<Step>): Option<seq<Node>> {
    Fold(Stepping(), c, steps)
  }

  /** The sockets a server has anything to do with. */
  function Owned(l: Local): set<SocketId> {
    l.sids.Keys + l.registered
  }

  /** Servers have different ids and no socket in common. */
  ghost predicate Separate(ls: seq<Local>) {
    && (forall i, j | 0 <= i < j < |ls| :: ls[i].uid != ls[j].uid && Owned(ls[i]) !! Owned(ls[j]))
    && (forall i | 0 <= i < |ls| :: NO_SOCKET !in Owned(ls[i]))
  }

  function Locals(c: seq<Node>): seq<Local> {
    seq(|c|, i requires 0 <= i < |c| => c[i].local)
  }

  ghost predicate Start(c: seq<Node>) {
    Separate(Locals(c)) && Quiet(c)
  }

  /** All messages have been handled. */
  ghost predicate Quiet(c: seq<Node>) {
    forall i | 0 <= i < |c| :: c[i].inbox == []
  }

  /** The requests made in a run, in order. */
  function Asked(ls: seq<Local>, steps: seq<Step>): seq<Request> {
    if steps == [] then []
    else
      var step := steps[|steps| - 1];
      Asked(ls, steps[..|steps| - 1]) +
      (if step.Ask? && step.node < |ls| then [Asking(ls[step.node], step)] else [])
  }

  // ---------- one adapter with all sockets ----------

  /** The operation as one adapter performs it. */
  function Performed(l: Local, m: Request): Local {
    ActedOn(l, LocalTargets(l, m.opts), ActionOf(m.kind, m.rooms))
  }

  function PerformedAll(l: Local, ms: seq<Request>): Local {
    if ms == [] then l else Performed(PerformedAll(l, ms[..|ms| - 1]), ms[|ms| - 1])
  }

  /** The requests that name a room to act on or to spare. */
  function Named(ms: seq<Request>): seq<Request> {
    if ms == [] then []
    else
      var m := ms[|ms| - 1];
      Named(ms[..|ms| - 1]) + (if CheckOpt(m.opts) then [m] else [])
  }

  /** A server has performed some first part of the requests. */
  ghost predicate PerformedFirst(l0: Local, l: Local, asked: seq<Request>) {
    exists k: nat :: k <= |asked| && l == PerformedAll(l0, Named(asked[..k]))
  }

  function Merge(a: Local, b: Local): Local {
    Local("", a.sids + b.sids, a.registered + b.registered)
  }

  /** All sockets of all servers. */
  function Merged(ls: seq<Local>): Local {
    if ls == [] then Local("", map[], {}) else Merge(Merged(ls[..|ls| - 1]), ls[|ls| - 1])
  }

  /**
    Any number of requests, made by any servers and handled at any pace: at every moment each server has performed
    the first of them, in order, on its own sockets, and when nothing is left to handle the sockets of all
    servers are where one adapter would have put them. Requests that name no room have no effect.
   */
  lemma ClusterActsAsOne(c0: seq<Node>, steps: seq<Step>)
    requires Start(c0) && Run(c0, steps).Some?
    ensures var c, asked := Run(c0, steps).value, Asked(Locals(c0), steps);
            && |c| == |c0|
            && (forall i | 0 <= i < |c| :: PerformedFirst(c0[i].local, c[i].local, asked))
            && (Quiet(c) ==> Merged(Locals(c)) == PerformedAll(Merged(Locals(c0)), Named(asked)))
  {
    RunKeeps(c0, steps);
    InvMeans(Locals(c0), Asked(Locals(c0), steps), Run(c0, steps).value);
  }

  lemma InvMeans(ls: seq<Local>, asked: seq<Request>, c: seq<Node>)
    requires Separate(ls) && Inv(ls, asked, c)
    ensures forall i | 0 <= i < |c| :: PerformedFirst(ls[i], c[i].local, asked)
    ensures Quiet(c) ==> Merged(Locals(c)) == PerformedAll(Merged(ls), Named(asked))
  {
    forall i | 0 <= i < |c| ensures PerformedFirst(ls[i], c[i].local, asked) {
      assert NodeInv(ls, asked, i, c[i]);
      UpToFirst(asked, Bulks(c[i].inbox), ls[i], c[i].local);
    }
    if Quiet(c) {
      AllPerformed(ls, asked, c);
      MergedPerforms(ls, Locals(c), Named(asked));
    }
  }

  lemma AllPerformed(ls: seq<Local>, asked: seq<Request>, c: seq<Node>)
    requires Inv(ls, asked, c) && Quiet(c)
    ensures forall i | 0 <= i < |c| :: Locals(c)[i] == PerformedAll(ls[i], Named(asked))
  {
    forall i | 0 <= i < |c| ensures Locals(c)[i] == PerformedAll(ls[i], Named(asked)) {
      assert NodeInv(ls, asked, i, c[i]) && Bulks(c[i].inbox) == [];
      assert asked[..|asked|] == asked;
    }
  }

  lemma UpToFirst(asked: seq<Request>, left: seq<Request>, l0: Local, l: Local)
    requires UpTo(asked, left, l0, l)
    ensures PerformedFirst(l0, l, asked)
  {
    assert l == PerformedAll(l0, Named(asked[..|asked| - |left|]));
  }

  // ---------- the invariant of a run ----------

  /** The bulk requests among some messages. */
  function Bulks(ms: seq<Request>): seq<Request> {
    if ms == [] then []
    else Bulks(ms[..|ms| - 1]) + (if ms[|ms| - 1].sid == NO_SOCKET then [ms[|ms| - 1]] else [])
  }

  /** A message about a socket of the server that sent it. */
  ghost predicate AboutOwnSocket(ls: seq<Local>, m: Request) {
    && m.opts == NO_OPTIONS && m.kind != RemoteDisconnect
    && exists j :: 0 <= j < |ls| && ls[j].uid == m.uid && m.sid in Owned(ls[j])
  }

  ghost predicate Expected(ls: seq<Local>, ms: seq<Request>) {
    forall x | 0 <= x < |ms| :: ms[x].sid == NO_SOCKET || AboutOwnSocket(ls, ms[x])
  }

  /** What is left in the inbox is a suffix of the requests, and the server has performed the ones before. */
  ghost predicate NodeInv(ls: seq<Local>, asked: seq<Request>, i: nat, node: Node)
    requires i < |ls|
  {
    Expected(ls, node.inbox) && UpTo(asked, Bulks(node.inbox), ls[i], node.local)
  }

  /** All requests but those that are left have been performed. */
  ghost predicate UpTo(asked: seq<Request>, left: seq<Request>, l0: Local, l: Local) {
    && |left| <= |asked| && left == asked[|asked| - |left|..]
    && l == PerformedAll(l0, Named(asked[..|asked| - |left|]))
  }

  ghost predicate Inv(ls: seq<Local>, asked: seq<Request>, c: seq<Node>) {
    |c| == |ls| && forall i | 0 <= i < |c| :: NodeInv(ls, asked, i, c[i])
  }

  lemma {:induction false} RunKeeps(c0: seq<Node>, steps: seq<Step>)
    requires Start(c0) && Run(c0, steps).Some?
    ensures Inv(Locals(c0), Asked(Locals(c0), steps), Run(c0, steps).value)
  {
    var ls := Locals(c0);
    if steps == [] {
      forall i | 0 <= i < |c0| ensures NodeInv(ls, [], i, c0[i]) {
        assert c0[i].inbox == [];
      }
    } else {
      var front, step := steps[..|steps| - 1], steps[|steps| - 1];
      assert steps == front + [step];
      RunSnoc(c0, front, step);
      RunKeeps(c0, front);
      var c := Run(c0, front).value;
      if step.Ask? {
        AskKeeps(ls, Asked(ls, front), c, step);
      } else {
        ReceiveKeeps(ls, Asked(ls, front), c, step);
        assert Asked(ls, front) + [] == Asked(ls, front);
      }
    }
  }

  lemma AskKeeps(ls: seq<Local>, asked: seq<Request>, c: seq<Node>, step: Step)
    requires Inv(ls, asked, c) && step.Ask? && step.node < |c|
    ensures Asking(c[step.node].local, step) == Asking(ls[step.node], step)
    ensures Inv(ls, asked + [Asking(ls[step.node], step)], Posted(c, [Asking(ls[step.node], step)]))
  {
    var m := Asking(ls[step.node], step);
    assert NodeInv(ls, asked, step.node, c[step.node]);
    UpToOwner(asked, Bulks(c[step.node].inbox), ls[step.node], c[step.node].local);
    forall i | 0 <= i < |c| ensures NodeInv(ls, asked + [m], i, Node(c[i].local, c[i].inbox + [m])) {
      assert NodeInv(ls, asked, i, c[i]);
      AskedLater(ls, asked, i, c[i], m);
    }
  }

  lemma AskedLater(ls: seq<Local>, asked: seq<Request>, i: nat, node: Node, m: Request)
    requires i < |ls| && NodeInv(ls, asked, i, node) && m.sid == NO_SOCKET
    ensures NodeInv(ls, asked + [m], i, Node(node.local, node.inbox + [m]))
  {
    var k := |asked| - |Bulks(node.inbox)|;
    assert (node.inbox + [m])[..|node.inbox|] == node.inbox;
    assert (asked + [m])[..k] == asked[..k] && (asked + [m])[k..] == asked[k..] + [m];
  }

  lemma ReceiveKeeps(ls: seq<Local>, asked: seq<Request>, c: seq<Node>, step: Step)
    requires Inv(ls, asked, c) && Separate(ls) && step.Receive? && Next(c, step).Some?
    ensures Inv(ls, asked, Next(c, step).value)
  {
    var n := step.node;
    var l, m := c[n].local, c[n].inbox[0];
    var out := Published(l, m, step.all, step.order);
    assert NodeInv(ls, asked, n, c[n]);
    HandledOne(ls, asked, n, c[n], step.all, step.order);
    var c1 := c[n := Node(AfterMessage(l, m, step.all), c[n].inbox[1..])];
    forall i | 0 <= i < |c| ensures NodeInv(ls, asked, i, Node(c1[i].local, c1[i].inbox + out)) {
      assert NodeInv(ls, asked, i, c[i]);
      assert NodeInv(ls, asked, i, c1[i]);
      MoreAnnouncements(ls, asked, i, c1[i], out);
    }
  }

  lemma MoreAnnouncements(ls: seq<Local>, asked: seq<Request>, i: nat, node: Node, out: seq<Request>)
    requires i < |ls| && NodeInv(ls, asked, i, node) && Announcements(ls, out)
    ensures NodeInv(ls, asked, i, Node(node.local, node.inbox + out))
  {
    BulksConcat(node.inbox, out);
    BulksOfAnnouncements(ls, out);
    assert Bulks(node.inbox) + [] == Bulks(node.inbox);
  }

  /** Messages about sockets, none of them a bulk request. */
  ghost predicate Announcements(ls: seq<Local>, ms: seq<Request>) {
    forall x | 0 <= x < |ms| :: ms[x].sid != NO_SOCKET && AboutOwnSocket(ls, ms[x])
  }

  lemma {:induction false} BulksConcat(a: seq<Request>, b: seq<Request>)
    ensures Bulks(a + b) == Bulks(a) + Bulks(b)
  {
    if b == [] {
      assert a + b == a && Bulks(a) + [] == Bulks(a);
    } else {
      var front := b[..|b| - 1];
      assert (a + b)[..|a + b| - 1] == a + front;
      BulksConcat(a, front);
    }
  }

  lemma {:induction false} BulksOfAnnouncements(ls: seq<Local>, ms: seq<Request>)
    requires Announcements(ls, ms)
    ensures Bulks(ms) == []
  {
    if ms != [] {
      BulksOfAnnouncements(ls, ms[..|ms| - 1]);
    }
  }

  /** The server that takes a message: a bulk request is performed, everything else is ignored. */
  lemma HandledOne(ls: seq<Local>, asked: seq<Request>, i: nat, node: Node, all: seq<Room>, order: seq<SocketId>)
    requires Separate(ls) && i < |ls| && NodeInv(ls, asked, i, node) && node.inbox != []
    requires Visits(node.local, node.inbox[0], all, order)
    ensures var l, m := node.local, node.inbox[0];
            && NodeInv(ls, asked, i, Node(AfterMessage(l, m, all), node.inbox[1..]))
            && Announcements(ls, Published(l, m, all, order))
  {
    var l, m := node.local, node.inbox[0];
    BulksFirst(node.inbox);
    UpToOwner(asked, Bulks(node.inbox), ls[i], l);
    if m.sid == NO_SOCKET {
      MessageHandled(ls, i, l, m, all, order);
      NextRequest(asked, Bulks(node.inbox), ls[i], l);
    } else {
      assert AboutOwnSocket(ls, m);
      Ignored(ls, i, l, m, all);
    }
  }

  lemma UpToOwner(asked: seq<Request>, left: seq<Request>, l0: Local, l: Local)
    requires UpTo(asked, left, l0, l)
    ensures l.uid == l0.uid && Owned(l) <= Owned(l0)
  {
    PerformedKeepsOwner(l0, Named(asked[..|asked| - |left|]));
  }

  /** The first request that is left is the one to perform next. */
  lemma NextRequest(asked: seq<Request>, left: seq<Request>, l0: Local, l: Local)
    requires left != [] && UpTo(asked, left, l0, l)
    ensures UpTo(asked, left[1..], l0, if CheckOpt(left[0].opts) then Performed(l, left[0]) else l)
  {
    var k := |asked| - |left|;
    assert asked[..k + 1] == asked[..k] + [left[0]];
    NamedSnoc(asked[..k], left[0]);
    if CheckOpt(left[0].opts) {
      PerformedSnoc(l0, Named(asked[..k]), left[0]);
    } else {
      assert Named(asked[..k]) + [] == Named(asked[..k]);
    }
  }

  lemma BulksFirst(ms: seq<Request>)
    requires ms != []
    ensures Bulks(ms) == (if ms[0].sid == NO_SOCKET then [ms[0]] else []) + Bulks(ms[1..])
  {
    assert ms == [ms[0]] + ms[1..] && [ms[0]][..0] == [];
    BulksConcat([ms[0]], ms[1..]);
  }

  lemma MessageHandled(ls: seq<Local>, i: nat, l: Local, m: Request, all: seq<Room>, order: seq<SocketId>)
    requires Separate(ls) && i < |ls| && m.sid == NO_SOCKET && Visits(l, m, all, order)
    requires l.uid == ls[i].uid && Owned(l) <= Owned(ls[i])
    ensures AfterMessage(l, m, all) == if CheckOpt(m.opts) then Performed(l, m) else l
    ensures Announcements(ls, Published(l, m, all, order))
  {
    if CheckOpt(m.opts) {
      BulkPerformed(ls, i, l, m, all, order);
    } else {
      assert m.sid !in l.registered;
    }
  }

  lemma NamedSnoc(ms: seq<Request>, m: Request)
    ensures Named(ms + [m]) == Named(ms) + (if CheckOpt(m.opts) then [m] else [])
  {
    assert (ms + [m])[..|ms|] == ms;
  }

  lemma PerformedSnoc(l: Local, ms: seq<Request>, m: Request)
    ensures PerformedAll(l, ms + [m]) == Performed(PerformedAll(l, ms), m)
  {
    assert (ms + [m])[..|ms|] == ms;
  }

  lemma {:induction false} PerformedKeepsOwner(l: Local, ms: seq<Request>)
    ensures PerformedAll(l, ms).uid == l.uid && Owned(PerformedAll(l, ms)) <= Owned(l)
  {
    if ms != [] {
      PerformedKeepsOwner(l, ms[..|ms| - 1]);
      OwnedShrinks(PerformedAll(l, ms[..|ms| - 1]), ms[|ms| - 1]);
    }
  }

  lemma OwnedShrinks(l: Local, m: Request)
    ensures Performed(l, m).uid == l.uid && Owned(Performed(l, m)) <= Owned(l)
  {
  }

  /** No server acts on a message about a socket: it belongs to the sender, or to somebody else. */
  lemma Ignored(ls: seq<Local>, i: nat, l: Local, m: Request, all: seq<Room>)
    requires Separate(ls) && i < |ls| && AboutOwnSocket(ls, m)
    requires l.uid == ls[i].uid && Owned(l) <= Owned(ls[i])
    ensures WorkFor(l, m, all) == None
  {
    var j :| 0 <= j < |ls| && ls[j].uid == m.uid && m.sid in Owned(ls[j]);
    if i != j {
      assert Owned(ls[i]) !! Owned(ls[j]);
      assert m.sid !in Owned(l);
    }
  }

  lemma BulkPerformed(ls: seq<Local>, i: nat, l: Local, m: Request, all: seq<Room>, order: seq<SocketId>)
    requires Separate(ls) && i < |ls| && CheckOpt(m.opts) && Visits(l, m, all, order)
    requires l.uid == ls[i].uid && Owned(l) <= Owned(ls[i])
    ensures AfterMessage(l, m, all) == Performed(l, m)
    ensures Announcements(ls, Published(l, m, all, order))
  {
    forall x | 0 <= x < |order| ensures order[x] in Owned(ls[i]) {
      assert order[x] in (set id | id in order) && order[x] in LocalTargets(l, m.opts);
      assert order[x] in Owned(l);
    }
    AnnouncedByOwner(ls, i, m.kind, m.rooms, order);
  }

  lemma {:induction false} AnnouncedByOwner(ls: seq<Local>, i: nat, kind: Kind, rooms: seq<Room>, order: seq<SocketId>)
    requires Separate(ls) && i < |ls| && forall x | 0 <= x < |order| :: order[x] in Owned(ls[i])
    ensures Announcements(ls, AllAnnounced(ls[i].uid, kind, rooms, order))
  {
    if order != [] {
      var last := |order| - 1;
      AnnouncedByOwner(ls, i, kind, rooms, order[..last]);
      AnnouncedOnce(ls, i, kind, rooms, order[last]);
    }
  }

  lemma AnnouncedOnce(ls: seq<Local>, i: nat, kind: Kind, rooms: seq<Room>, id: SocketId)
    requires Separate(ls) && i < |ls| && id in Owned(ls[i])
    ensures Announcements(ls, Announced(ls[i].uid, kind, rooms, id))
  {
    var ms := Announced(ls[i].uid, kind, rooms, id);
    assert NO_SOCKET !in Owned(ls[i]) && id != NO_SOCKET;
    forall x | 0 <= x < |ms| ensures ms[x].sid != NO_SOCKET && AboutOwnSocket(ls, ms[x]) {
      assert ms[x].sid == id;
      assert ls[i].uid == ms[x].uid && ms[x].sid in Owned(ls[i]);
    }
  }

  // ---------- an operation distributes over the servers ----------

  lemma MergePerforms(a: Local, b: Local, m: Request)
    requires Owned(a) !! Owned(b)
    ensures Performed(Merge(a, b), m) == Merge(Performed(a, m), Performed(b, m))
  {
    var ta, tb, action := LocalTargets(a, m.opts), LocalTargets(b, m.opts), ActionOf(m.kind, m.rooms);
    assert LocalTargets(Merge(a, b), m.opts) == ta + tb;
    ActedApart(a.sids, b.sids, ta, tb, action);
  }

  lemma ActedApart(a: Sids, b: Sids, ta: set<SocketId>, tb: set<SocketId>, action: Action)
    requires a.Keys !! b.Keys && ta <= a.Keys && tb <= b.Keys
    ensures ActedSids(a + b, ta + tb, action) == ActedSids(a, ta, action) + ActedSids(b, tb, action)
  {
  }

  lemma {:induction false} MergePerformsAll(a: Local, b: Local, ms: seq<Request>)
    requires Owned(a) !! Owned(b)
    ensures Merge(PerformedAll(a, ms), PerformedAll(b, ms)) == PerformedAll(Merge(a, b), ms)
  {
    if ms != [] {
      var front := ms[..|ms| - 1];
      MergePerformsAll(a, b, front);
      PerformedKeepsOwner(a, front);
      PerformedKeepsOwner(b, front);
      MergePerforms(PerformedAll(a, front), PerformedAll(b, front), ms[|ms| - 1]);
    }
  }

  lemma {:induction false} OwnedOfMerged(ls: seq<Local>, other: set<SocketId>)
    requires forall i | 0 <= i < |ls| :: Owned(ls[i]) !! other
    ensures Owned(Merged(ls)) !! other
  {
    if ls != [] {
      OwnedOfMerged(ls[..|ls| - 1], other);
      assert Owned(ls[|ls| - 1]) !! other;
    }
  }

  lemma {:induction false} MergedPerforms(ls: seq<Local>, ls': seq<Local>, ms: seq<Request>)
    requires |ls| == |ls'| && forall i | 0 <= i < |ls| :: ls'[i] == PerformedAll(ls[i], ms)
    requires forall i, j | 0 <= i < j < |ls| :: Owned(ls[i]) !! Owned(ls[j])
    ensures Merged(ls') == PerformedAll(Merged(ls), ms)
  {
    if ls == [] {
      NothingToPerform(ms);
    } else {
      var last := |ls| - 1;
      MergedPerforms(ls[..last], ls'[..last], ms);
      OwnedOfMerged(ls[..last], Owned(ls[last]));
      MergePerformsAll(Merged(ls[..last]), ls[last], ms);
    }
  }

  lemma {:induction false} NothingToPerform(ms: seq<Request>)
    ensures PerformedAll(Local("", map[], {}), ms) == Local("", map[], {})
  {
    if ms != [] {
      NothingToPerform(ms[..|ms| - 1]);
    }
  }

  // ---------- the messages die out ----------

  /** The bulk requests still to be handled, over all inboxes. */
  function BulksLeft(c: seq<Node>): nat {
    if c == [] then 0 else BulksLeft(c[..|c| - 1]) + |Bulks(c[|c| - 1].inbox)|
  }

  /** All messages still to be handled, over all inboxes. */
  function MessagesLeft(c: seq<Node>): nat {
    if c == [] then 0 else MessagesLeft(c[..|c| - 1]) + |c[|c| - 1].inbox|
  }

  /**
    A handled bulk request is gone for good, whatever it publishes; a handled message about a socket is gone and
    publishes nothing. So no run of receptions is infinite, in whatever order the servers take their messages.
   */
  lemma ReceptionDecreases(ls: seq<Local>, asked: seq<Request>, c: seq<Node>, step: Step)
    requires Inv(ls, asked, c) && Separate(ls) && step.Receive? && Next(c, step).Some?
    ensures var c' := Next(c, step).value;
            || BulksLeft(c') < BulksLeft(c)
            || (BulksLeft(c') == BulksLeft(c) && MessagesLeft(c') < MessagesLeft(c))
  {
    var n := step.node;
    var l, m := c[n].local, c[n].inbox[0];
    var taken := c[n := Node(AfterMessage(l, m, step.all), c[n].inbox[1..])];
    var out := Published(l, m, step.all, step.order);
    assert NodeInv(ls, asked, n, c[n]);
    HandledOne(ls, asked, n, c[n], step.all, step.order);
    BulksOfAnnouncements(ls, out);
    if m.sid != NO_SOCKET {
      OnlyBulksPublish(ls, asked, n, c[n], step.all, step.order);
    }
    BulksFirst(c[n].inbox);
    LeftAfterTaking(c, n, taken[n]);
    LeftAfterPosting(taken, out);
  }

  lemma OnlyBulksPublish(ls: seq<Local>, asked: seq<Request>, i: nat, node: Node, all: seq<Room>, order: seq<SocketId>)
    requires Separate(ls) && i < |ls| && NodeInv(ls, asked, i, node) && node.inbox != []
    requires node.inbox[0].sid != NO_SOCKET
    ensures Published(node.local, node.inbox[0], all, order) == []
  {
    UpToOwner(asked, Bulks(node.inbox), ls[i], node.local);
    assert AboutOwnSocket(ls, node.inbox[0]);
    Ignored(ls, i, node.local, node.inbox[0], all);
  }

  lemma {:induction false} LeftAfterTaking(c: seq<Node>, n: nat, node: Node)
    requires n < |c|
    ensures BulksLeft(c[n := node]) == BulksLeft(c) - |Bulks(c[n].inbox)| + |Bulks(node.inbox)|
    ensures MessagesLeft(c[n := node]) == MessagesLeft(c) - |c[n].inbox| + |node.inbox|
  {
    var last := |c| - 1;
    if n == last {
      assert c[n := node][..last] == c[..last];
    } else {
      assert c[n := node][..last] == c[..last][n := node];
      LeftAfterTaking(c[..last], n, node);
    }
  }

  lemma {:induction false} LeftAfterPosting(c: seq<Node>, ms: seq<Request>)
    requires Bulks(ms) == []
    ensures BulksLeft(Posted(c, ms)) == BulksLeft(c)
    ensures ms == [] ==> MessagesLeft(Posted(c, ms)) == MessagesLeft(c)
  {
    if c != [] {
      var last := |c| - 1;
      assert Posted(c, ms)[..last] == Posted(c[..last], ms);
      LeftAfterPosting(c[..last], ms);
      BulksConcat(c[last].inbox, ms);
    }
  }

  /** As long as a message is waiting, its server can take it: a cluster that cannot go on is quiet. */
  lemma WaitingMessageIsTaken(c: seq<Node>, n: nat, all: seq<Room>) returns (order: seq<SocketId>)
    requires n < |c| && c[n].inbox != []
    ensures Next(c, Receive(n, all, order)).Some?
  {
    var w := WorkFor(c[n].local, c[n].inbox[0], all);
    if w.Some? {
      order := Enumeration(w.value.ids);
    } else {
      order := [];
    }
  }

  lemma {:induction false} Enumeration(ids: set<SocketId>) returns (order: seq<SocketId>)
    ensures Enumerates(order, ids)
  {
    if ids == {} {
      order := [];
    } else {
      var id :| id in ids;
      var front := Enumeration(ids - {id});
      EnumeratesSnoc(front, ids - {id}, id);
      order := front + [id];
      assert ids - {id} + {id} == ids;
    }
  }

  /** Handling the waiting messages comes to an end, and then the cluster has acted as one adapter. */
  lemma ClusterSettles(c0: seq<Node>, steps: seq<Step>) returns (more: seq<Step>)
    requires Start(c0) && Run(c0, steps).Some?
    ensures OnlyReceptions(more) && Run(c0, steps + more).Some? && Quiet(Run(c0, steps + more).value)
    ensures Merged(Locals(Run(c0, steps + more).value)) ==
            PerformedAll(Merged(Locals(c0)), Named(Asked(Locals(c0), steps)))
  {
    var c := Run(c0, steps).value;
    RunKeeps(c0, steps);
    more := Drain(Locals(c0), Asked(Locals(c0), steps), c);
    FoldConcat(Stepping(), c0, steps, more);
    AskedConcat(Locals(c0), steps, more);
    ClusterActsAsOne(c0, steps + more);
  }

  ghost predicate OnlyReceptions(steps: seq<Step>) {
    forall i | 0 <= i < |steps| :: steps[i].Receive?
  }

  /** The run ends with all messages handled. */
  ghost predicate Settles(c: seq<Node>, steps: seq<Step>) {
    OnlyReceptions(steps) && Run(c, steps).Some? && Quiet(Run(c, steps).value)
  }

  lemma {:induction false} Drain(ls: seq<Local>, asked: seq<Request>, c: seq<Node>) returns (steps: seq<Step>)
    requires Inv(ls, asked, c) && Separate(ls)
    ensures Settles(c, steps)
    decreases BulksLeft(c), MessagesLeft(c)
  {
    if Quiet(c) {
      steps := [];
    } else {
      var step, c' := OneReception(ls, asked, c);
      var rest := Drain(ls, asked, c');
      steps := [step] + rest;
      SettlesCons(c, step, c', rest);
    }
  }

  lemma SettlesCons(c: seq<Node>, step: Step, c': seq<Node>, rest: seq<Step>)
    requires step.Receive? && Next(c, step) == Some(c') && Settles(c', rest)
    ensures Settles(c, [step] + rest)
  {
    RunCons(c, step, rest);
  }

  lemma RunCons(c: seq<Node>, step: Step, rest: seq<Step>)
    requires Next(c, step).Some?
    ensures Run(c, [step] + rest) == Run(Next(c, step).value, rest)
  {
    assert ([step] + rest)[1..] == rest;
  }

  lemma {:induction false} AskedConcat(ls: seq<Local>, a: seq<Step>, b: seq<Step>)
    requires OnlyReceptions(b)
    ensures Asked(ls, a + b) == Asked(ls, a)
  {
    if b == [] {
      assert a + b == a;
    } else {
      var front, step := b[..|b| - 1], b[|b| - 1];
      AskedConcat(ls, a, front);
      assert a + b == a + front + [step];
      AskedSnoc(ls, a + front, step);
    }
  }

  lemma OneReception(ls: seq<Local>, asked: seq<Request>, c: seq<Node>) returns (step: Step, c': seq<Node>)
    requires Inv(ls, asked, c) && Separate(ls) && !Quiet(c)
    ensures step.Receive? && Next(c, step) == Some(c') && Inv(ls, asked, c')
    ensures BulksLeft(c') < BulksLeft(c) || (BulksLeft(c') == BulksLeft(c) && MessagesLeft(c') < MessagesLeft(c))
  {
    var n :| 0 <= n < |c| && c[n].inbox != [];
    var all: seq<Room> := *;
    var order := WaitingMessageIsTaken(c, n, all);
    step := Receive(n, all, order);
    c' := Next(c, step).value;
    ReceptionDecreases(ls, asked, c, step);
    ReceiveKeeps(ls, asked, c, step);
  }

  lemma RunSnoc(c0: seq<Node>, steps: seq<Step>, step: Step)
    ensures Run(c0, steps + [step]) == match Run(c0, steps) { case None => None case Some(c) => Next(c, step) }
  {
    FoldConcat(Stepping(), c0, steps, [step]);
  }

  lemma AskedSnoc(ls: seq<Local>, steps: seq<Step>, step: Step)
    requires step.Receive?
    ensures Asked(ls, steps + [step]) == Asked(ls, steps)
  {
    assert (steps + [step])[..|steps|] == steps;
  }


  // ---------- requests without rooms ----------

  /** An operation that changes nothing anywhere. */
  predicate IsIdle(kind: Kind, rooms: seq<Room>) {
    kind != RemoteDisconnect && rooms == []
  }

  /** The request, made by some server of some cluster at rest and handled to the end, does what one adapter does. */
  ghost predicate ActsAsOne(c0: seq<Node>, ask: Step, more: seq<Step>) {
    Start(c0) && ask.Ask? && ask.node < |c0| && Run(c0, [ask] + more).Some? && Quiet(Run(c0, [ask] + more).value) ==>
      Merged(Locals(Run(c0, [ask] + more).value)) ==
      Performed(Merged(Locals(c0)), Asking(c0[ask.node].local, ask))
  }

  ghost predicate AlwaysActsAsOne(kind: Kind, opts: Options, rooms: seq<Room>) {
    forall c0, node, more | OnlyReceptions(more) :: ActsAsOne(c0, Ask(node, kind, opts, rooms), more)
  }

  /** A request means the same to every cluster as to one adapter exactly when it names a room, to act on or spare. */
  lemma RoomsNeededIff(kind: Kind, opts: Options, rooms: seq<Room>)
    ensures AlwaysActsAsOne(kind, opts, rooms) <==> CheckOpt(opts) || IsIdle(kind, rooms)
  {
    if CheckOpt(opts) || IsIdle(kind, rooms) {
      forall c0, node, more | OnlyReceptions(more) ensures ActsAsOne(c0, Ask(node, kind, opts, rooms), more) {
        OneRequest(c0, Ask(node, kind, opts, rooms), more);
      }
    } else {
      var c0, more := IgnoredByAll(kind, opts, rooms);
    }
  }

  lemma OneRequest(c0: seq<Node>, ask: Step, more: seq<Step>)
    requires ask.Ask? && (CheckOpt(ask.opts) || IsIdle(ask.kind, ask.rooms)) && OnlyReceptions(more)
    ensures ActsAsOne(c0, ask, more)
  {
    if Start(c0) && ask.node < |c0| && Run(c0, [ask] + more).Some? {
      var ls, m := Locals(c0), Asking(c0[ask.node].local, ask);
      AskedAlone(c0, ask, more);
      ClusterActsAsOne(c0, [ask] + more);
      NamedAlone(m, Merged(ls));
      if !CheckOpt(ask.opts) {
        IdleChangesNothing(Merged(ls), m);
      }
    }
  }

  lemma AskedAlone(c0: seq<Node>, ask: Step, more: seq<Step>)
    requires ask.Ask? && ask.node < |c0| && OnlyReceptions(more)
    ensures Asked(Locals(c0), [ask] + more) == [Asking(c0[ask.node].local, ask)]
  {
    var ls := Locals(c0);
    AskedConcat(ls, [ask], more);
    assert [ask][..0] == [];
    assert Asked(ls, [ask]) == [Asking(ls[ask.node], ask)];
  }

  lemma AskedRuns(c0: seq<Node>, ask: Step)
    requires ask.Ask? && ask.node < |c0|
    ensures Run(c0, [ask]).Some?
  {
    RunCons(c0, ask, []);
    assert [ask] + [] == [ask];
  }

  lemma NamedAlone(m: Request, l: Local)
    ensures PerformedAll(l, Named([m])) == if CheckOpt(m.opts) then Performed(l, m) else l
  {
    assert [m][..0] == [];
    assert Named([m]) == if CheckOpt(m.opts) then [m] else [];
  }

  lemma IdleChangesNothing(l: Local, m: Request)
    requires IsIdle(m.kind, m.rooms)
    ensures Performed(l, m) == l
  {
    var ids, action := LocalTargets(l, m.opts), ActionOf(m.kind, m.rooms);
    assert ToSet(m.rooms) == {};
    forall id | id in l.sids ensures Effect(l.sids[id], action) == l.sids[id] {}
    assert ActedSids(l.sids, ids, action) == l.sids;
  }

  /** One server with one socket is enough to see that the request is ignored. */
  lemma IgnoredByAll(kind: Kind, opts: Options, rooms: seq<Room>) returns (c0: seq<Node>, more: seq<Step>)
    requires !CheckOpt(opts) && !IsIdle(kind, rooms)
    ensures OnlyReceptions(more) && !ActsAsOne(c0, Ask(0, kind, opts, rooms), more)
  {
    var l := Local("server", map["socket" := if kind == RemoteLeave then {rooms[0]} else {}], {"socket"});
    c0 := [Node(l, [])];
    var ask := Ask(0, kind, opts, rooms);
    assert NO_SOCKET !in Owned(l);
    assert Locals(c0) == [l];
    MergedOne(l);
    ChangesOneSocket(Merged([l]), l, Asking(l, ask));
    more := IgnoredRequest(c0, ask);
  }

  lemma IgnoredRequest(c0: seq<Node>, ask: Step) returns (more: seq<Step>)
    requires Start(c0) && ask.Ask? && ask.node < |c0| && !CheckOpt(ask.opts)
    requires Performed(Merged(Locals(c0)), Asking(c0[ask.node].local, ask)) != Merged(Locals(c0))
    ensures OnlyReceptions(more) && !ActsAsOne(c0, ask, more)
  {
    AskedRuns(c0, ask);
    more := ClusterSettles(c0, [ask]);
    AskedAlone(c0, ask, []);
    assert [ask] + [] == [ask];
    NamedAlone(Asking(c0[ask.node].local, ask), Merged(Locals(c0)));
  }

  lemma MergedOne(l: Local)
    ensures Merged([l]) == Local("", l.sids, l.registered)
  {
    assert [l][..0] == [];
    assert Merged([]) == Local("", map[], {});
    assert map[] + l.sids == l.sids;
  }

  lemma ChangesOneSocket(merged: Local, l: Local, m: Request)
    requires !CheckOpt(m.opts) && !IsIdle(m.kind, m.rooms)
    requires l == Local("server", map["socket" := if m.kind == RemoteLeave then {m.rooms[0]} else {}], {"socket"})
    requires merged.sids == l.sids && merged.registered == l.registered
    ensures Performed(merged, m) != merged
  {
    var sids := merged.sids;
    assert Included(sids["socket"], m.opts);
    assert "socket" in LocalTargets(merged, m.opts);
    match m.kind
    case RemoteDisconnect =>
      assert "socket" !in Performed(merged, m).registered;
    case RemoteJoin =>
      assert m.rooms[0] in Performed(merged, m).sids["socket"];
    case RemoteLeave =>
      assert m.rooms[0] !in Performed(merged, m).sids["socket"];
  }
}
