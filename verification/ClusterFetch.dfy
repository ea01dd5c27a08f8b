/**
  Fetching the sockets of the whole cluster: one request, one reply from every other server, and a channel
  between the handlers of the replies, which run side by side, and the caller, who may run out of time.
 */
module ClusterFetch {
  import opened Common

  type Socket = string

  /** What the handler of one reply does next; Dropped when the request was gone before the reply came. */
  datatype Handler = Waiting | Pushing(rest: seq<Socket>) | Checking | Finished | Dropped

  datatype Caller = Collecting | Complete | TimedOut

  /** The request as the handlers and the caller share it; `sent` lists everything ever sent to the channel. */
  datatype Request = Request(
    msgCount: int,
    closeFlag: int,
    channel: seq<Socket>,
    sent: seq<Socket>,
    closed: bool,
    panicked: bool,
    caller: Caller,
    sockets: seq<Socket>)

  const CAPACITY := 1

  function Opened(local: seq<Socket>): Request {
    Request(1, 0, [], [], false, false, Collecting, local)
  }

  /** Sending to a closed channel panics. */
  function Sent(r: Request, socket: Socket): Request {
    if r.closed then r.(panicked := true) else r.(channel := r.channel + [socket], sent := r.sent + [socket])
  }

  function Counted(r: Request): Request {
    r.(msgCount := r.msgCount + 1)
  }

  /** The last reply closes the channel; closing it twice would panic. */
  function Checked(r: Request, serverCount: int): Request {
    if r.msgCount == serverCount && r.closeFlag == 0 then
      if r.closed then r.(closeFlag := 1, panicked := true) else r.(closeFlag := 1, closed := true)
    else r
  }

  function Taken(r: Request): Request {
    if r.channel != [] then r.(channel := r.channel[1..], sockets := r.sockets + [r.channel[0]])
    else if r.closed then r.(caller := Complete)
    else r
  }

  /** The steps of the handlers and of the caller, each of them atomic. */
  class FetchRequest {
    var msgCount: int
    var closeFlag: int
    var channel: seq<Socket>
    ghost var sent: seq<Socket>
    var closed: bool
    var panicked: bool
    var caller: Caller
    var sockets: seq<Socket>

    ghost function Abs(): Request
      reads this
    {
      Request(msgCount, closeFlag, channel, sent, closed, panicked, caller, sockets)
    }

    constructor (local: seq<Socket>)
      ensures Abs() == Opened(local)
    {
      msgCount, closeFlag, channel, sent := 1, 0, [], [];
      closed, panicked, caller, sockets := false, false, Collecting, local;
    }

    method Send(socket: Socket)
      requires |channel| < CAPACITY
      modifies this
      ensures Abs() == Sent(old(Abs()), socket)
    {
      if closed {
        panicked := true;
        return;
      }
      channel, sent := channel + [socket], sent + [socket];
    }

    method CountReply()
      modifies this
      ensures Abs() == Counted(old(Abs()))
    {
      msgCount := msgCount + 1;
    }

    method CloseIfLast(serverCount: int)
      modifies this
      ensures Abs() == Checked(old(Abs()), serverCount)
    {
      if msgCount == serverCount {
        if closeFlag == 0 {
          closeFlag := 1;
          if closed {
            panicked := true;
          }
          closed := true;
        }
      }
    }

    /** The caller takes a value from the channel, or sees that it is closed and empty. */
    method Receive()
      requires caller == Collecting && (channel != [] || closed)
      modifies this
      ensures Abs() == Taken(old(Abs()))
    {
      if channel != [] {
        sockets, channel := sockets + [channel[0]], channel[1..];
      } else {
        caller := Complete;
      }
    }
  }

  // ---------- runs ----------

  datatype State = State(handlers: seq<Handler>, request: Request)

  datatype Event = Reply(node: nat) | Push(node: nat) | Count(node: nat) | Check(node: nat) | Take | Timeout

  function Start(n: nat, local: seq<Socket>): State {
    State(seq(n, _ => Waiting), Opened(local))
  }

  /** One step, if it can be taken; `replies` are the answers of the other servers. */
  function Next(replies: seq<seq<Socket>>, s: State, e: Event): Option<State>
    requires |s.handlers| == |replies|
    ensures Next(replies, s, e).Some? ==> |Next(replies, s, e).value.handlers| == |replies|
  {
    var r := s.request;
    match e
    case Reply(i) =>
      if i < |replies| && s.handlers[i] == Waiting then
        Some(State(s.handlers[i := if r.caller == Collecting then Pushing(replies[i]) else Dropped], r))
      else None
    case Push(i) =>
      if i < |replies| && s.handlers[i].Pushing? && s.handlers[i].rest != [] && |r.channel| < CAPACITY then
        Some(State(s.handlers[i := Pushing(s.handlers[i].rest[1..])], Sent(r, s.handlers[i].rest[0])))
      else None
    case Count(i) =>
      if i < |replies| && s.handlers[i] == Pushing([]) then Some(State(s.handlers[i := Checking], Counted(r)))
      else None
    case Check(i) =>
      if i < |replies| && s.handlers[i] == Checking then
        Some(State(s.handlers[i := Finished], Checked(r, |replies| + 1)))
      else None
    case Take => if r.caller == Collecting && (r.channel != [] || r.closed) then Some(s.(request := Taken(r))) else None
    case Timeout => if r.caller == Collecting then Some(s.(request := r.(caller := TimedOut))) else None
  }

  function Run(replies: seq<seq<Socket>>, local: seq<Socket>, events: seq<Event>): (s: Option<State>)
    ensures s.Some? ==> |s.value.handlers| == |replies|
  {
    if events == [] then Some(Start(|replies|, local))
    else
      match Run(replies, local, events[..|events| - 1])
      case None => None
      case Some(s) => Next(replies, s, events[|events| - 1])
  }

  /**
    However the handlers and the caller take turns: nothing is sent to a closed channel and it is closed once. The
    caller has the local sockets and after them, in the order they were sent, sockets of the other servers, none
    more often than in the replies. Once all handlers are through, the channel is closed; a caller that was not
    overtaken by the timeout has then every socket of every server exactly once.
   */
  lemma FetchCollects(replies: seq<seq<Socket>>, local: seq<Socket>, events: seq<Event>)
    requires |replies| >= 1 && Run(replies, local, events).Some?
    ensures var State(handlers, r) := Run(replies, local, events).value;
            && !r.panicked
            && r.sockets + r.channel == local + r.sent
            && (forall x :: multiset(r.sent)[x] <= multiset(Concat(replies))[x])
            && (r.caller == Complete ==> multiset(r.sockets) == multiset(local + Concat(replies)))
            && ((forall i | 0 <= i < |handlers| :: handlers[i] == Finished) ==> r.closed)
  {
    Invariant(replies, local, events);
    var s := Run(replies, local, events).value;
    forall x ensures multiset(s.request.sent)[x] <= multiset(Concat(replies))[x] {
      BalanceMeans(replies, s, x);
    }
    if s.request.caller == Complete {
      EverythingCame(replies, local, s);
    }
    if forall i | 0 <= i < |replies| :: s.handlers[i] == Finished {
      PassedAll(s.handlers, |replies|);
    }
  }

  lemma BalanceMeans(replies: seq<seq<Socket>>, s: State, x: Socket)
    requires |s.handlers| == |replies| && Balanced(replies, s)
    ensures multiset(s.request.sent)[x] <= multiset(Concat(replies))[x]
    ensures Passed(s.handlers, |replies|) == |replies| ==> multiset(s.request.sent)[x] == multiset(Concat(replies))[x]
  {
    PassedAll(s.handlers, |replies|);
    NothingLeft(replies, s.handlers, |replies|, x);
    AllReplies(replies, |replies|, x);
    assert replies[..|replies|] == replies;
    assert multiset(s.request.sent)[x] + Left(replies, s.handlers, |replies|, x) == Total(replies, |replies|, x);
  }

  lemma EverythingCame(replies: seq<seq<Socket>>, local: seq<Socket>, s: State)
    requires Inv(replies, local, s) && s.request.caller == Complete
    ensures multiset(s.request.sockets) == multiset(local + Concat(replies))
  {
    var sent := s.request.sent;
    assert s.request.sockets == s.request.sockets + s.request.channel == local + sent;
    forall x ensures multiset(sent)[x] == multiset(Concat(replies))[x] {
      BalanceMeans(replies, s, x);
    }
    assert multiset(sent) == multiset(Concat(replies));
  }

  // ---------- the fetch ends ----------

  /** How many steps a handler can still take, where a value it sends is taken by another one. */
  function StepsLeft(h: Handler, reply: seq<Socket>): nat {
    match h
    case Waiting => 2 * |reply| + 3
    case Pushing(rest) => 2 * |rest| + 2
    case Checking => 1
    case Finished | Dropped => 0
  }

  function AllStepsLeft(replies: seq<seq<Socket>>, handlers: seq<Handler>): (counts: seq<nat>)
    requires |handlers| == |replies|
    ensures |counts| == |handlers|
  {
    seq(|handlers|, i requires 0 <= i < |handlers| => StepsLeft(handlers[i], replies[i]))
  }

  function Weight(replies: seq<seq<Socket>>, s: State): nat
    requires |s.handlers| == |replies|
  {
    Sum(AllStepsLeft(replies, s.handlers), |replies|) + |s.request.channel| +
    (if s.request.caller == Collecting then 1 else 0)
  }

  /** Replies are dropped only when the caller has given up. */
  ghost predicate NoneDropped(s: State) {
    s.request.caller == Collecting ==> forall i | 0 <= i < |s.handlers| :: s.handlers[i] != Dropped
  }

  /** No run is longer than the replies allow. */
  lemma {:induction false} RunsAreBounded(replies: seq<seq<Socket>>, local: seq<Socket>, events: seq<Event>)
    requires Run(replies, local, events).Some?
    ensures |events| + Weight(replies, Run(replies, local, events).value) <= Weight(replies, Start(|replies|, local))
    ensures NoneDropped(Run(replies, local, events).value)
  {
    if events != [] {
      var front := events[..|events| - 1];
      RunsAreBounded(replies, local, front);
      StepTakesWeight(replies, Run(replies, local, front).value, events[|events| - 1]);
    }
  }

  lemma StepTakesWeight(replies: seq<seq<Socket>>, s: State, e: Event)
    requires |s.handlers| == |replies| && Next(replies, s, e).Some?
    ensures Weight(replies, Next(replies, s, e).value) < Weight(replies, s)
    ensures NoneDropped(s) ==> NoneDropped(Next(replies, s, e).value)
  {
    var s' := Next(replies, s, e).value;
    if e.Take? || e.Timeout? {
    } else {
      var counts, i := AllStepsLeft(replies, s.handlers), e.node;
      var c := StepsLeft(s'.handlers[i], replies[i]);
      assert AllStepsLeft(replies, s'.handlers) == counts[i := c];
      SumUpdate(counts, i, c, |replies|);
    }
  }

  /** A reply is dropped exactly when it comes after the timeout. */
  lemma LateRepliesAreDropped(replies: seq<seq<Socket>>, local: seq<Socket>, events: seq<Event>, i: nat)
    requires |replies| >= 1 && Run(replies, local, events).Some? && Run(replies, local, events + [Reply(i)]).Some?
    ensures i < |replies|
    ensures Run(replies, local, events + [Reply(i)]).value.handlers[i] ==
            if Timeout in events then Dropped else Pushing(replies[i])
  {
    assert (events + [Reply(i)])[..|events|] == events;
    var s := Run(replies, local, events).value;
    Invariant(replies, local, events);
    TimesOutOnce(replies, local, events);
    PassedAll(s.handlers, |replies|);
    assert !Past(s.handlers[i]);
  }

  lemma {:induction false} TimesOutOnce(replies: seq<seq<Socket>>, local: seq<Socket>, events: seq<Event>)
    requires Run(replies, local, events).Some?
    ensures Run(replies, local, events).value.request.caller == TimedOut <==> Timeout in events
  {
    if events != [] {
      var front, e := events[..|events| - 1], events[|events| - 1];
      TimesOutOnce(replies, local, front);
      assert events == front + [e];
    }
  }

  /** As long as the caller is collecting somebody can take a step, without the timeout. */
  lemma SomebodyCanStep(replies: seq<seq<Socket>>, local: seq<Socket>, events: seq<Event>) returns (e: Event)
    requires |replies| >= 1 && Run(replies, local, events).Some?
    requires Run(replies, local, events).value.request.caller == Collecting
    ensures e != Timeout && Run(replies, local, events + [e]).Some?
    ensures var s, s' := Run(replies, local, events).value, Run(replies, local, events + [e]).value;
            Weight(replies, s') < Weight(replies, s)
  {
    var s := Run(replies, local, events).value;
    RunsAreBounded(replies, local, events);
    FetchCollects(replies, local, events);
    e := EnabledStep(replies, s);
    assert (events + [e])[..|events|] == events;
    StepTakesWeight(replies, s, e);
  }

  lemma EnabledStep(replies: seq<seq<Socket>>, s: State) returns (e: Event)
    requires |s.handlers| == |replies| && s.request.caller == Collecting && NoneDropped(s)
    requires (forall i | 0 <= i < |s.handlers| :: s.handlers[i] == Finished) ==> s.request.closed
    ensures e != Timeout && Next(replies, s, e).Some?
  {
    if s.request.channel != [] || s.request.closed {
      e := Take;
    } else {
      var i: nat :| i < |s.handlers| && s.handlers[i] != Finished;
      var h := s.handlers[i];
      e := if h == Waiting then Reply(i) else if h == Checking then Check(i)
           else if h == Pushing([]) then Count(i) else Push(i);
    }
  }

  /**
    The fetch ends: from wherever it is, steps other than the timeout lead to a caller that has the sockets of all
    servers. Since every run is bounded, they do so in whatever order they are taken.
   */
  lemma {:induction false} FetchCompletes(replies: seq<seq<Socket>>, local: seq<Socket>, events: seq<Event>)
    returns (more: seq<Event>)
    requires |replies| >= 1 && Run(replies, local, events).Some?
    requires Run(replies, local, events).value.request.caller == Collecting
    ensures Timeout !in more && Run(replies, local, events + more).Some?
    ensures var r := Run(replies, local, events + more).value.request;
            r.caller == Complete && multiset(r.sockets) == multiset(local + Concat(replies))
    decreases Weight(replies, Run(replies, local, events).value)
  {
    var e := SomebodyCanStep(replies, local, events);
    var next := events + [e];
    if Run(replies, local, next).value.request.caller == Collecting {
      var rest := FetchCompletes(replies, local, next);
      more := [e] + rest;
      assert events + more == next + rest;
    } else {
      more := [e];
      LeftByTaking(replies, local, events, e);
    }
  }

  lemma LeftByTaking(replies: seq<seq<Socket>>, local: seq<Socket>, events: seq<Event>, e: Event)
    requires |replies| >= 1 && Run(replies, local, events).Some? && Run(replies, local, events + [e]).Some?
    requires e != Timeout && Run(replies, local, events).value.request.caller == Collecting
    requires Run(replies, local, events + [e]).value.request.caller != Collecting
    ensures var r := Run(replies, local, events + [e]).value.request;
            r.caller == Complete && multiset(r.sockets) == multiset(local + Concat(replies))
  {
    assert (events + [e])[..|events|] == events;
    FetchCollects(replies, local, events + [e]);
  }

  /** A caller that finds the channel closed and empty is done, and has the sockets of all servers. */
  lemma ClosedAndEmptyEnds(replies: seq<seq<Socket>>, local: seq<Socket>, events: seq<Event>)
    requires |replies| >= 1 && Run(replies, local, events + [Take]).Some?
    requires Run(replies, local, events).Some? && Run(replies, local, events).value.request.channel == []
    ensures var r := Run(replies, local, events + [Take]).value.request;
            r.caller == Complete && multiset(r.sockets) == multiset(local + Concat(replies))
  {
    assert (events + [Take])[..|events|] == events;
    FetchCollects(replies, local, events + [Take]);
  }

  function Takes(n: nat): (es: seq<Event>)
    ensures |es| == n && forall i | 0 <= i < n :: es[i] == Take
  {
    seq(n, _ => Take)
  }

  lemma OneTake(replies: seq<seq<Socket>>, local: seq<Socket>, events: seq<Event>)
    requires |replies| >= 1 && Run(replies, local, events).Some?
    requires var s := Run(replies, local, events).value;
             s.request.caller == Collecting && forall i | 0 <= i < |s.handlers| :: s.handlers[i] == Finished
    ensures var s, s' := Run(replies, local, events).value, Run(replies, local, events + [Take]);
            && s'.Some? && s'.value.handlers == s.handlers
            && (s.request.channel != [] ==>
                  && s'.value.request.caller == Collecting
                  && |s'.value.request.channel| == |s.request.channel| - 1)
  {
    assert (events + [Take])[..|events|] == events;
    FetchCollects(replies, local, events);
  }

  /** Once all handlers are through, the caller completes by taking what is left and looking once more. */
  lemma {:induction false} CallerFinishes(replies: seq<seq<Socket>>, local: seq<Socket>, events: seq<Event>)
    requires |replies| >= 1 && Run(replies, local, events).Some?
    requires var s := Run(replies, local, events).value;
             s.request.caller == Collecting && forall i | 0 <= i < |s.handlers| :: s.handlers[i] == Finished
    ensures var n := |Run(replies, local, events).value.request.channel|;
            && Run(replies, local, events + Takes(n + 1)).Some?
            && var r := Run(replies, local, events + Takes(n + 1)).value.request;
               r.caller == Complete && multiset(r.sockets) == multiset(local + Concat(replies))
    decreases |Run(replies, local, events).value.request.channel|
  {
    var next := events + [Take];
    var n := |Run(replies, local, events).value.request.channel|;
    OneTake(replies, local, events);
    if n == 0 {
      ClosedAndEmptyEnds(replies, local, events);
      assert Takes(1) == [Take];
    } else {
      CallerFinishes(replies, local, next);
      FirstTake(events, n);
    }
  }

  lemma FirstTake(events: seq<Event>, n: nat)
    ensures events + Takes(n + 1) == events + [Take] + Takes(n)
  {
  }

  // ---------- the invariant ----------

  predicate Past(h: Handler) {
    h == Checking || h == Finished
  }

  /** How many of the first `k` handlers have counted their reply. */
  function Passed(handlers: seq<Handler>, k: nat): nat
    requires k <= |handlers|
  {
    if k == 0 then 0 else Passed(handlers, k - 1) + if Past(handlers[k - 1]) then 1 else 0
  }

  /** What a handler has not sent. */
  function LeftOf(h: Handler, reply: seq<Socket>): seq<Socket> {
    match h
    case Waiting | Dropped => reply
    case Pushing(rest) => rest
    case _ => []
  }

  /** How often a handler has not sent a socket. */
  function LeftCount(h: Handler, reply: seq<Socket>, x: Socket): nat {
    multiset(LeftOf(h, reply))[x]
  }

  function LeftCounts(replies: seq<seq<Socket>>, handlers: seq<Handler>, x: Socket): (counts: seq<nat>)
    requires |handlers| == |replies|
    ensures |counts| == |handlers|
  {
    seq(|handlers|, i requires 0 <= i < |handlers| => LeftCount(handlers[i], replies[i], x))
  }

  /** How often the first `k` handlers have not sent a socket. */
  function Left(replies: seq<seq<Socket>>, handlers: seq<Handler>, k: nat, x: Socket): nat
    requires k <= |handlers| == |replies|
  {
    Sum(LeftCounts(replies, handlers, x), k)
  }

  function Sum(counts: seq<nat>, k: nat): nat
    requires k <= |counts|
  {
    if k == 0 then 0 else Sum(counts, k - 1) + counts[k - 1]
  }

  lemma {:induction false} SumUpdate(counts: seq<nat>, i: nat, c: nat, k: nat)
    requires i < |counts| && k <= |counts|
    ensures Sum(counts[i := c], k) == Sum(counts, k) + (if i < k then c - counts[i] else 0)
  {
    if k > 0 {
      SumUpdate(counts, i, c, k - 1);
    }
  }

  function Total(replies: seq<seq<Socket>>, k: nat, x: Socket): nat
    requires k <= |replies|
  {
    if k == 0 then 0 else Total(replies, k - 1, x) + multiset(replies[k - 1])[x]
  }

  /** The flags of the request go with the progress of the handlers. */
  ghost predicate InStep(handlers: seq<Handler>, r: Request) {
    var n := |handlers|;
    && r.msgCount == 1 + Passed(handlers, n)
    && r.closeFlag == (if r.closed then 1 else 0)
    && (r.closed ==> Passed(handlers, n) == n)
    && (Passed(handlers, n) == n && n > 0 ==> r.closed || exists i :: 0 <= i < n && handlers[i] == Checking)
  }

  /** What was sent and what is left to be sent make up the replies. */
  ghost predicate Balanced(replies: seq<seq<Socket>>, s: State)
    requires |s.handlers| == |replies|
  {
    forall x :: multiset(s.request.sent)[x] + Left(replies, s.handlers, |replies|, x) == Total(replies, |replies|, x)
  }

  /** What the channel has let through is what the caller has. */
  ghost predicate Piped(local: seq<Socket>, r: Request) {
    !r.panicked && r.sockets + r.channel == local + r.sent && (r.caller == Complete ==> r.closed && r.channel == [])
  }

  ghost predicate Inv(replies: seq<seq<Socket>>, local: seq<Socket>, s: State) {
    |s.handlers| == |replies| && InStep(s.handlers, s.request) && Balanced(replies, s) && Piped(local, s.request)
  }

  lemma {:induction false} Invariant(replies: seq<seq<Socket>>, local: seq<Socket>, events: seq<Event>)
    requires Run(replies, local, events).Some?
    ensures Inv(replies, local, Run(replies, local, events).value)
  {
    if events == [] {
      var s := Start(|replies|, local);
      StartCounts(replies, s.handlers, |replies|);
      assert local + [] == local;
    } else {
      var front := events[..|events| - 1];
      Invariant(replies, local, front);
      StepKeeps(replies, local, Run(replies, local, front).value, events[|events| - 1]);
    }
  }

  lemma {:induction false} StartCounts(replies: seq<seq<Socket>>, handlers: seq<Handler>, k: nat)
    requires k <= |handlers| == |replies| && forall i | 0 <= i < |handlers| :: handlers[i] == Waiting
    ensures Passed(handlers, k) == 0 && forall x :: Left(replies, handlers, k, x) == Total(replies, k, x)
  {
    if k > 0 {
      StartCounts(replies, handlers, k - 1);
    }
  }

  lemma StepKeeps(replies: seq<seq<Socket>>, local: seq<Socket>, s: State, e: Event)
    requires Inv(replies, local, s) && Next(replies, s, e).Some?
    ensures Inv(replies, local, Next(replies, s, e).value)
  {
    match e
    case Reply(i) =>
      var h := if s.request.caller == Collecting then Pushing(replies[i]) else Dropped;
      HandlerMoves(replies, s, i, h);
    case Push(i) => PushKeeps(replies, local, s, i);
    case Count(i) => CountKeeps(replies, s, i);
    case Check(i) => CheckKeeps(replies, s, i);
    case Take => TakeKeeps(local, s.request);
    case Timeout =>
  }

  /** A handler moves on without sending or counting. */
  lemma HandlerMoves(replies: seq<seq<Socket>>, s: State, i: nat, h: Handler)
    requires |s.handlers| == |replies| && i < |replies| && InStep(s.handlers, s.request) && Balanced(replies, s)
    requires !Past(s.handlers[i]) && !Past(h) && LeftOf(h, replies[i]) == LeftOf(s.handlers[i], replies[i])
    ensures InStep(s.handlers[i := h], s.request) && Balanced(replies, State(s.handlers[i := h], s.request))
  {
    var hs := s.handlers[i := h];
    PassedUpdate(s.handlers, i, h, |replies|);
    PassedAll(s.handlers, |replies|);
    forall x ensures Left(replies, hs, |replies|, x) == Left(replies, s.handlers, |replies|, x) {
      LeftUpdate(replies, s.handlers, i, h, |replies|, x);
    }
  }

  lemma PushKeeps(replies: seq<seq<Socket>>, local: seq<Socket>, s: State, i: nat)
    requires Inv(replies, local, s) && i < |replies| && s.handlers[i].Pushing? && s.handlers[i].rest != []
    ensures var rest := s.handlers[i].rest;
            Inv(replies, local, State(s.handlers[i := Pushing(rest[1..])], Sent(s.request, rest[0])))
  {
    var rest := s.handlers[i].rest;
    var hs, r := s.handlers[i := Pushing(rest[1..])], Sent(s.request, rest[0]);
    PassedUpdate(s.handlers, i, Pushing(rest[1..]), |replies|);
    PassedAll(s.handlers, |replies|);
    assert !s.request.closed;
    assert rest == [rest[0]] + rest[1..];
    forall x ensures multiset(r.sent)[x] + Left(replies, hs, |replies|, x) == Total(replies, |replies|, x) {
      LeftUpdate(replies, s.handlers, i, Pushing(rest[1..]), |replies|, x);
      assert multiset(s.request.sent)[x] + Left(replies, s.handlers, |replies|, x) == Total(replies, |replies|, x);
      assert multiset(rest)[x] == multiset([rest[0]])[x] + multiset(rest[1..])[x];
    }
    assert r.sockets + r.channel == (s.request.sockets + s.request.channel) + [rest[0]];
  }

  lemma CountKeeps(replies: seq<seq<Socket>>, s: State, i: nat)
    requires |s.handlers| == |replies| && i < |replies| && InStep(s.handlers, s.request) && Balanced(replies, s)
    requires s.handlers[i] == Pushing([])
    ensures InStep(s.handlers[i := Checking], Counted(s.request))
    ensures Balanced(replies, State(s.handlers[i := Checking], Counted(s.request)))
  {
    var hs := s.handlers[i := Checking];
    assert hs[i] == Checking;
    PassedUpdate(s.handlers, i, Checking, |replies|);
    PassedAll(s.handlers, |replies|);
    forall x ensures Left(replies, hs, |replies|, x) == Left(replies, s.handlers, |replies|, x) {
      LeftUpdate(replies, s.handlers, i, Checking, |replies|, x);
    }
  }

  lemma CheckKeeps(replies: seq<seq<Socket>>, s: State, i: nat)
    requires |s.handlers| == |replies| && i < |replies| && InStep(s.handlers, s.request) && Balanced(replies, s)
    requires s.handlers[i] == Checking
    ensures var hs, r := s.handlers[i := Finished], Checked(s.request, |replies| + 1);
            InStep(hs, r) && Balanced(replies, State(hs, r)) && r.panicked == s.request.panicked
  {
    var hs := s.handlers[i := Finished];
    PassedUpdate(s.handlers, i, Finished, |replies|);
    forall x ensures Left(replies, hs, |replies|, x) == Left(replies, s.handlers, |replies|, x) {
      LeftUpdate(replies, s.handlers, i, Finished, |replies|, x);
    }
  }

  lemma TakeKeeps(local: seq<Socket>, r: Request)
    requires Piped(local, r)
    ensures Piped(local, Taken(r))
  {
    if r.channel != [] {
      assert r.channel == [r.channel[0]] + r.channel[1..];
    }
  }

  lemma {:induction false} PassedUpdate(handlers: seq<Handler>, i: nat, h: Handler, k: nat)
    requires i < |handlers| && k <= |handlers|
    ensures Passed(handlers[i := h], k) ==
            Passed(handlers, k) + (if i < k && Past(h) then 1 else 0) - (if i < k && Past(handlers[i]) then 1 else 0)
  {
    if k > 0 {
      PassedUpdate(handlers, i, h, k - 1);
    }
  }

  lemma {:induction false} PassedAll(handlers: seq<Handler>, k: nat)
    requires k <= |handlers|
    ensures Passed(handlers, k) <= k && (Passed(handlers, k) == k <==> forall i | 0 <= i < k :: Past(handlers[i]))
  {
    if k > 0 {
      PassedAll(handlers, k - 1);
    }
  }

  lemma LeftUpdate(replies: seq<seq<Socket>>, handlers: seq<Handler>, i: nat, h: Handler, k: nat, x: Socket)
    requires i < |handlers| == |replies| && k <= |handlers|
    ensures Left(replies, handlers[i := h], k, x) ==
            Left(replies, handlers, k, x) +
            (if i < k then LeftCount(h, replies[i], x) - LeftCount(handlers[i], replies[i], x) else 0)
  {
    var counts, c := LeftCounts(replies, handlers, x), LeftCount(h, replies[i], x);
    assert LeftCounts(replies, handlers[i := h], x) == counts[i := c];
    SumUpdate(counts, i, c, k);
  }

  lemma {:induction false} NothingLeft(replies: seq<seq<Socket>>, handlers: seq<Handler>, k: nat, x: Socket)
    requires k <= |handlers| == |replies|
    ensures (forall i | 0 <= i < k :: Past(handlers[i])) ==> Left(replies, handlers, k, x) == 0
  {
    if k > 0 {
      NothingLeft(replies, handlers, k - 1, x);
    }
  }

  lemma {:induction false} AllReplies(replies: seq<seq<Socket>>, k: nat, x: Socket)
    requires k <= |replies|
    ensures multiset(Concat(replies[..k]))[x] == Total(replies, k, x)
  {
    if k > 0 {
      AllReplies(replies, k - 1, x);
      ConcatSnoc(replies[..k - 1], replies[k - 1]);
      assert replies[..k] == replies[..k - 1] + [replies[k - 1]];
    }
  }
}
