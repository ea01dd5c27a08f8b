/**
  Collecting the acknowledgements of a broadcast: every server reports how many clients it notified,
  every client answers, the number of servers becomes known and a timer runs, in any order.
 */
module AckCollector {
  import opened Common

  type Reply = string

  type ClientId = string

  /** One call of the user's callback. */
  datatype Call = Success(replies: seq<Reply>) | TimedOut(replies: seq<Reply>)

  datatype State = State(
    expectSingle: bool,
    timedOut: bool,
    timerCleared: bool,
    responses: seq<Reply>,
    expectedServers: int,
    actualServers: int,
    expectedClients: nat,
    calls: seq<Call>)

  function Initial(expectSingle: bool): State {
    State(expectSingle, false, false, [], -1, 0, 0, [])
  }

  function Payload(s: State): seq<Reply> {
    if s.expectSingle then [] else s.responses
  }

  predicate IsComplete(s: State) {
    !s.timedOut && s.expectedServers == s.actualServers && |s.responses| == s.expectedClients
  }

  function Checked(s: State): State {
    if IsComplete(s) then s.(timerCleared := true, calls := s.calls + [Success(Payload(s))]) else s
  }

  function AfterCount(s: State, clients: nat): State {
    Checked(s.(expectedClients := s.expectedClients + clients, actualServers := s.actualServers + 1))
  }

  function AfterResponse(s: State, replies: seq<Reply>): State {
    Checked(s.(responses := s.responses + replies))
  }

  function AfterServerCount(s: State, servers: int): State {
    Checked(s.(expectedServers := servers))
  }

  /** A timer that was cleared does not fire. */
  function AfterTimer(s: State): State {
    if s.timerCleared then s else s.(timedOut := true, calls := s.calls + [TimedOut(Payload(s))])
  }

  /** The variables shared by the callbacks of one emission. */
  class Collector {
    const expectSingle: bool
    var timedOut: bool
    var timerCleared: bool
    var responses: seq<Reply>
    var expectedServerCount: int
    var actualServerCount: int
    var expectedClientCount: nat
    var calls: seq<Call>

    ghost function Abs(): State
      reads this
    {
      State(expectSingle, timedOut, timerCleared, responses, expectedServerCount, actualServerCount,
            expectedClientCount, calls)
    }

    constructor (expectSingle: bool)
      ensures Abs() == Initial(expectSingle)
    {
      this.expectSingle := expectSingle;
      timedOut, timerCleared, responses, calls := false, false, [], [];
      expectedServerCount, actualServerCount, expectedClientCount := -1, 0, 0;
    }

    method CheckCompleteness()
      modifies this
      ensures Abs() == Checked(old(Abs()))
    {
      if !timedOut && expectedServerCount == actualServerCount && |responses| == expectedClientCount {
        timerCleared := true;
        if expectSingle {
          calls := calls + [Success([])];
        } else {
          calls := calls + [Success(responses)];
        }
      }
    }

    method OnClientCount(clientCount: nat)
      modifies this
      ensures Abs() == AfterCount(old(Abs()), clientCount)
    {
      expectedClientCount := expectedClientCount + clientCount;
      actualServerCount := actualServerCount + 1;
      CheckCompleteness();
    }

    method OnResponse(clientResponse: seq<Reply>)
      modifies this
      ensures Abs() == AfterResponse(old(Abs()), clientResponse)
    {
      responses := responses + clientResponse;
      CheckCompleteness();
    }

    method OnServerCount(serverCount: int)
      modifies this
      ensures Abs() == AfterServerCount(old(Abs()), serverCount)
    {
      expectedServerCount := serverCount;
      CheckCompleteness();
    }

    method OnTimer()
      modifies this
      ensures Abs() == AfterTimer(old(Abs()))
    {
      if timerCleared {
        return;
      }
      timedOut := true;
      calls := calls + [TimedOut(if expectSingle then [] else responses)];
    }
  }

  // ---------- runs ----------

  /** The servers of the cluster are numbered; each client was notified by one of them. */
  datatype World = World(servers: nat, home: map<ClientId, nat>)

  datatype Event = Report(server: nat) | Answer(client: ClientId, replies: seq<Reply>) | Learn | Timer

  predicate SameSource(a: Event, b: Event) {
    match (a, b)
    case (Report(i), Report(j)) => i == j
    case (Answer(c, _), Answer(d, _)) => c == d
    case (Learn, Learn) => true
    case (Timer, Timer) => true
    case _ => false
  }

  predicate Possible(w: World, e: Event) {
    (e.Report? ==> e.server < w.servers) && (e.Answer? ==> e.client in w.home)
  }

  /** Every server reports at most once and every client answers at most once; otherwise any interleaving. */
  ghost predicate IsRun(w: World, events: seq<Event>) {
    && (forall i | 0 <= i < |events| :: Possible(w, events[i]))
    && (forall i, j | 0 <= i < j < |events| :: !SameSource(events[i], events[j]))
    && (forall c | c in w.home :: w.home[c] < w.servers)
  }

  /** Clients pass exactly one value to their acknowledgement. */
  predicate SingleValued(e: Event) {
    e.Answer? ==> |e.replies| == 1
  }

  function Notified(w: World, servers: set<nat>): set<ClientId> {
    set c | c in w.home && w.home[c] in servers
  }

  function After(w: World, s: State, e: Event): State {
    match e
    case Report(server) => AfterCount(s, |Notified(w, {server})|)
    case Answer(_, replies) => AfterResponse(s, replies)
    case Learn => AfterServerCount(s, w.servers)
    case Timer => AfterTimer(s)
  }

  function Run(w: World, expectSingle: bool, events: seq<Event>): State {
    if events == [] then Initial(expectSingle)
    else After(w, Run(w, expectSingle, events[..|events| - 1]), events[|events| - 1])
  }

  // ---------- what a run should come to ----------

  function Reported(events: seq<Event>): set<nat> {
    if events == [] then {}
    else
      var e := events[|events| - 1];
      Reported(events[..|events| - 1]) + (if e.Report? then {e.server} else {})
  }

  function Answered(events: seq<Event>): set<ClientId> {
    if events == [] then {}
    else
      var e := events[|events| - 1];
      Answered(events[..|events| - 1]) + (if e.Answer? then {e.client} else {})
  }

  predicate Happened(what: Event, events: seq<Event>) {
    events != [] && (events[|events| - 1] == what || Happened(what, events[..|events| - 1]))
  }

  function Replies(events: seq<Event>): seq<Reply> {
    if events == [] then []
    else
      var e := events[|events| - 1];
      Replies(events[..|events| - 1]) + (if e.Answer? then e.replies else [])
  }

  /** Everything that can be waited for has happened. */
  ghost predicate AllIn(w: World, events: seq<Event>) {
    && Happened(Learn, events)
    && (forall server | 0 <= server < w.servers :: server in Reported(events))
    && w.home.Keys == Answered(events)
  }

  /** The calls a run should lead to: at most one, successful exactly when everything is in before the timer. */
  ghost function Outcome(w: World, expectSingle: bool, events: seq<Event>): seq<Call>
    decreases |events|
  {
    if events == [] then []
    else
      var front, e := events[..|events| - 1], events[|events| - 1];
      var before := Outcome(w, expectSingle, front);
      var replies := if expectSingle then [] else Replies(events);
      if before != [] then before
      else if e.Timer? then [TimedOut(replies)]
      else if AllIn(w, events) then [Success(replies)]
      else []
  }

  /**
    For every interleaving of single-valued answers the callback is called at most once: successfully, with all the
    replies, as soon as every server has reported and every client has answered; with an error if the
    timer comes first; not at all if neither has happened yet.
   */
  lemma CollectsExactly(w: World, expectSingle: bool, events: seq<Event>)
    requires IsRun(w, events) && forall e | e in events :: SingleValued(e)
    ensures Run(w, expectSingle, events).calls == Outcome(w, expectSingle, events)
    ensures |Outcome(w, expectSingle, events)| <= 1
    ensures Outcome(w, expectSingle, events) != [] && Outcome(w, expectSingle, events)[0].Success? ==> AllIn(w, events)
    ensures AllIn(w, events) && !Happened(Timer, events) ==> Outcome(w, expectSingle, events) != []
  {
    Invariant(w, expectSingle, events);
  }

  // ---------- the invariant ----------

  /** The counters count distinct servers and clients. */
  ghost predicate Counted(w: World, s: State, events: seq<Event>) {
    && s.responses == Replies(events)
    && s.actualServers == |Reported(events)|
    && s.expectedClients == |Notified(w, Reported(events))|
    && s.expectedServers == (if Happened(Learn, events) then w.servers else -1)
  }

  /** The two flags go with the call that was made. */
  ghost predicate Flagged(w: World, s: State, events: seq<Event>) {
    && |s.calls| <= 1
    && (s.timedOut <==> s.calls != [] && s.calls[0].TimedOut?)
    && (s.timerCleared <==> s.calls != [] && s.calls[0].Success?)
    && (s.timedOut ==> Happened(Timer, events))
    && (s.timerCleared ==> AllIn(w, events))
    && (s.calls == [] ==> !AllIn(w, events) && !Happened(Timer, events))
  }

  ghost predicate Inv(w: World, expectSingle: bool, events: seq<Event>) {
    var s := Run(w, expectSingle, events);
    && Counted(w, s, events) && Flagged(w, s, events) && s.expectSingle == expectSingle
    && |Replies(events)| == |Answered(events)|
    && s.calls == Outcome(w, expectSingle, events)
  }

  lemma {:induction false} Invariant(w: World, expectSingle: bool, events: seq<Event>)
    requires IsRun(w, events) && forall e | e in events :: SingleValued(e)
    ensures Inv(w, expectSingle, events)
  {
    if events == [] {
      assert Notified(w, {}) == {};
    } else {
      var front, e := events[..|events| - 1], events[|events| - 1];
      assert events == front + [e] && e in events && SingleValued(e);
      Invariant(w, expectSingle, front);
      EventKeeps(w, expectSingle, front, e);
    }
  }

  lemma EventKeeps(w: World, expectSingle: bool, front: seq<Event>, e: Event)
    requires IsRun(w, front + [e]) && SingleValued(e) && Inv(w, expectSingle, front)
    ensures Inv(w, expectSingle, front + [e])
  {
    var s := Run(w, expectSingle, front);
    RunSnoc(w, expectSingle, front, e);
    CountsKept(w, s, front, e);
    FlagsKept(w, s, front, e);
    OutcomeSnoc(w, expectSingle, front, e);
  }

  lemma RunSnoc(w: World, expectSingle: bool, front: seq<Event>, e: Event)
    ensures Run(w, expectSingle, front + [e]) == After(w, Run(w, expectSingle, front), e)
  {
    assert (front + [e])[..|front|] == front;
  }

  lemma CountsKept(w: World, s: State, front: seq<Event>, e: Event)
    requires IsRun(w, front + [e]) && SingleValued(e) && Counted(w, s, front)
    requires |Replies(front)| == |Answered(front)|
    ensures Counted(w, After(w, s, e), front + [e]) && |Replies(front + [e])| == |Answered(front + [e])|
  {
    Advances(w, front, e);
    CountersAdvance(w, s, e);
  }

  /** What one event does to the counters. */
  lemma CountersAdvance(w: World, s: State, e: Event)
    ensures var s' := After(w, s, e);
            && s'.responses == s.responses + (if e.Answer? then e.replies else [])
            && s'.actualServers == s.actualServers + (if e.Report? then 1 else 0)
            && s'.expectedClients == s.expectedClients + (if e.Report? then |Notified(w, {e.server})| else 0)
            && s'.expectedServers == (if e.Learn? then w.servers else s.expectedServers)
  {
    assert s.responses + [] == s.responses;
  }

  lemma OutcomeSnoc(w: World, expectSingle: bool, front: seq<Event>, e: Event)
    ensures var before := Outcome(w, expectSingle, front);
            var replies := if expectSingle then [] else Replies(front + [e]);
            Outcome(w, expectSingle, front + [e]) ==
            if before != [] then before
            else if e.Timer? then [TimedOut(replies)]
            else if AllIn(w, front + [e]) then [Success(replies)]
            else []
  {
    assert (front + [e])[..|front|] == front;
  }

  /** The state an event leads to, flags and call included. */
  ghost predicate FollowsOutcome(w: World, s: State, s': State, events: seq<Event>, e: Event) {
    && Flagged(w, s', events) && s'.expectSingle == s.expectSingle
    && s'.calls == if s.calls != [] then s.calls
                   else if e.Timer? then [TimedOut(Payload(s'))]
                   else if AllIn(w, events) then [Success(Payload(s'))]
                   else []
  }

  /** An event calls the callback exactly when nothing has before and it is the timer or the last one awaited. */
  lemma FlagsKept(w: World, s: State, front: seq<Event>, e: Event)
    requires IsRun(w, front + [e]) && Flagged(w, s, front)
    requires Counted(w, After(w, s, e), front + [e]) && |Replies(front + [e])| == |Answered(front + [e])|
    ensures FollowsOutcome(w, s, After(w, s, e), front + [e], e)
  {
    assert (front + [e])[..|front|] == front;
    if s.timerCleared {
      NothingAfterAllIn(w, front, e);
    } else if s.timedOut {
      if e == Timer { TimerOnlyOnce(w, front); }
    } else if e == Timer {
      AllInIgnoresTimer(w, front);
    } else {
      NotYetCalled(w, s, front, e);
    }
  }

  lemma NotYetCalled(w: World, s: State, front: seq<Event>, e: Event)
    requires IsRun(w, front + [e]) && Flagged(w, s, front) && s.calls == [] && !e.Timer?
    requires Counted(w, After(w, s, e), front + [e]) && |Replies(front + [e])| == |Answered(front + [e])|
    ensures FollowsOutcome(w, s, After(w, s, e), front + [e], e)
  {
    CompleteIffAllIn(w, front + [e]);
    HappenedSnoc(front, e);
    CalledWhenComplete(w, s, e);
  }

  lemma HappenedSnoc(front: seq<Event>, e: Event)
    ensures Happened(Timer, front + [e]) <==> Happened(Timer, front) || e == Timer
  {
    assert (front + [e])[..|front|] == front;
  }

  /** Every event but the timer calls the callback exactly when the counters agree. */
  lemma CalledWhenComplete(w: World, s: State, e: Event)
    requires !e.Timer? && s.calls == [] && !s.timedOut && !s.timerCleared
    ensures var s' := After(w, s, e);
            && !s'.timedOut && s'.expectSingle == s.expectSingle
            && var complete := s'.expectedServers == s'.actualServers && |s'.responses| == s'.expectedClients;
               && s'.timerCleared == complete
               && s'.calls == if complete then [Success(Payload(s'))] else []
  {
  }

  lemma TimerOnlyOnce(w: World, front: seq<Event>)
    requires IsRun(w, front + [Timer])
    ensures !Happened(Timer, front)
  {
    forall i | 0 <= i < |front| ensures !SameSource(front[i], Timer) {
      assert !SameSource((front + [Timer])[i], (front + [Timer])[|front|]);
    }
    SourcesAreNew(front, Timer);
  }

  lemma AllInIgnoresTimer(w: World, front: seq<Event>)
    requires IsRun(w, front + [Timer])
    ensures AllIn(w, front + [Timer]) <==> AllIn(w, front)
  {
    var events := front + [Timer];
    forall i | 0 <= i < |front| ensures !SameSource(front[i], Timer) {
      assert !SameSource(events[i], events[|front|]);
    }
    SourcesSnoc(front, Timer);
  }

  /** What one more event adds to the sets the counters stand for. */
  lemma Advances(w: World, front: seq<Event>, e: Event)
    requires IsRun(w, front + [e])
    ensures var events := front + [e];
            && Replies(events) == Replies(front) + (if e.Answer? then e.replies else [])
            && |Reported(events)| == |Reported(front)| + (if e.Report? then 1 else 0)
            && |Answered(events)| == |Answered(front)| + (if e.Answer? then 1 else 0)
            && |Notified(w, Reported(events))| ==
               |Notified(w, Reported(front))| + (if e.Report? then |Notified(w, {e.server})| else 0)
            && (Happened(Learn, events) <==> Happened(Learn, front) || e == Learn)
            && (Happened(Timer, events) <==> Happened(Timer, front) || e == Timer)
  {
    var events := front + [e];
    assert events[..|front|] == front;
    forall i | 0 <= i < |front| ensures events[i] == front[i] && !SameSource(front[i], e) {
      assert !SameSource(events[i], events[|front|]);
    }
    SourcesSnoc(front, e);
    if e.Report? {
      var a, b := Notified(w, Reported(front)), Notified(w, {e.server});
      assert Notified(w, Reported(events)) == a + b;
      assert a !! b;
    }
  }

  lemma SourcesSnoc(front: seq<Event>, e: Event)
    requires forall i | 0 <= i < |front| :: !SameSource(front[i], e)
    ensures Reported(front + [e]) == Reported(front) + (if e.Report? then {e.server} else {})
    ensures Answered(front + [e]) == Answered(front) + (if e.Answer? then {e.client} else {})
    ensures e.Report? ==> e.server !in Reported(front)
    ensures e.Answer? ==> e.client !in Answered(front)
    ensures e.Learn? || e.Timer? ==> !Happened(e, front)
    ensures forall x :: Happened(x, front + [e]) <==> Happened(x, front) || x == e
  {
    assert (front + [e])[..|front|] == front;
    SourcesAreNew(front, e);
  }

  lemma {:induction false} SourcesAreNew(front: seq<Event>, e: Event)
    requires forall i | 0 <= i < |front| :: !SameSource(front[i], e)
    ensures e.Report? ==> e.server !in Reported(front)
    ensures e.Answer? ==> e.client !in Answered(front)
    ensures e.Learn? || e.Timer? ==> !Happened(e, front)
  {
    if front != [] {
      SourcesAreNew(front[..|front| - 1], e);
    }
  }

  lemma {:induction false} SourcesArePossible(w: World, events: seq<Event>)
    requires forall i | 0 <= i < |events| :: Possible(w, events[i])
    ensures forall server | server in Reported(events) :: server < w.servers
    ensures Answered(events) <= w.home.Keys
  {
    if events != [] {
      SourcesArePossible(w, events[..|events| - 1]);
    }
  }

  function Servers(n: nat): (all: set<nat>)
    ensures forall i: nat :: i in all <==> i < n
    ensures |all| == n
  {
    if n == 0 then {} else Servers(n - 1) + {n - 1}
  }

  lemma {:induction false} SubsetOfSameSize<T>(a: set<T>, b: set<T>)
    requires a <= b
    ensures |a| <= |b| && (|a| == |b| <==> a == b)
  {
    if a != {} {
      var x :| x in a;
      SubsetOfSameSize(a - {x}, b - {x});
    }
  }

  lemma CompleteIffAllIn(w: World, events: seq<Event>)
    requires IsRun(w, events)
    ensures (if Happened(Learn, events) then w.servers else -1) == |Reported(events)|
              && |Answered(events)| == |Notified(w, Reported(events))|
            <==> AllIn(w, events)
  {
    SourcesArePossible(w, events);
    SubsetOfSameSize(Reported(events), Servers(w.servers));
    assert Notified(w, Servers(w.servers)) == w.home.Keys;
    SubsetOfSameSize(Answered(events), w.home.Keys);
    if AllIn(w, events) {
      assert Reported(events) == Servers(w.servers);
    }
  }

  lemma NothingAfterAllIn(w: World, front: seq<Event>, e: Event)
    requires IsRun(w, front + [e]) && AllIn(w, front)
    ensures e == Timer && AllIn(w, front + [e])
  {
    var events := front + [e];
    forall i | 0 <= i < |front| ensures !SameSource(front[i], e) {
      assert !SameSource(events[i], events[|front|]);
    }
    SourcesSnoc(front, e);
    assert Possible(w, events[|front|]);
  }

  // ---------- one value per answer is needed ----------

  /** The state while two clients are waited for. */
  function Waiting(responses: seq<Reply>, calls: seq<Call>): State {
    State(false, false, calls != [], responses, 1, 1, 2, calls)
  }

  /** Two clients; one answers with two values, then the other with none: two successes, the first one early. */
  lemma SpreadValuesMiscount()
    ensures var w := World(1, map["a" := 0, "b" := 0]);
            var early := [Report(0), Learn, Answer("a", ["x", "y"])];
            && Run(w, false, early).calls == [Success(["x", "y"])]
            && Run(w, false, early + [Answer("b", [])]).calls == [Success(["x", "y"]), Success(["x", "y"])]
  {
    var w := World(1, map["a" := 0, "b" := 0]);
    TwoClientsWait(w);
    AnswersMiscounted(w, [Report(0), Learn], "a", "b", ["x", "y"]);
    assert [Report(0), Learn] + [Answer("a", ["x", "y"])] == [Report(0), Learn, Answer("a", ["x", "y"])];
  }

  lemma TwoClientsWait(w: World)
    requires w == World(1, map["a" := 0, "b" := 0])
    ensures Run(w, false, [Report(0), Learn]) == Waiting([], [])
  {
    assert Notified(w, {0}) == {"a", "b"};
    RunSnoc(w, false, [], Report(0));
    RunSnoc(w, false, [Report(0)], Learn);
    assert [] + [Report(0)] == [Report(0)] && [Report(0)] + [Learn] == [Report(0), Learn];
  }

  lemma AnswersMiscounted(w: World, front: seq<Event>, a: ClientId, b: ClientId, both: seq<Reply>)
    requires Run(w, false, front) == Waiting([], []) && |both| == 2
    ensures Run(w, false, front + [Answer(a, both)]).calls == [Success(both)]
    ensures Run(w, false, front + [Answer(a, both)] + [Answer(b, [])]).calls == [Success(both), Success(both)]
  {
    RunSnoc(w, false, front, Answer(a, both));
    RunSnoc(w, false, front + [Answer(a, both)], Answer(b, []));
    assert [] + both == both && both + [] == both && [] + [Success(both)] == [Success(both)];
    AnswerCompletes(Waiting([], []), both);
    AnswerCompletes(Waiting(both, [Success(both)]), []);
  }

  lemma AnswerCompletes(s: State, replies: seq<Reply>)
    requires s == Waiting(s.responses, s.calls) && |s.responses + replies| == 2
    ensures AfterResponse(s, replies) == Waiting(s.responses + replies, s.calls + [Success(s.responses + replies)])
  {
  }

  /** The events agree with what each client is going to answer. */
  ghost predicate Answering(events: seq<Event>, replies: map<ClientId, seq<Reply>>) {
    forall i | 0 <= i < |events| && events[i].Answer? ::
      events[i].client in replies && events[i].replies == replies[events[i].client]
  }

  /**
    The condition is exact, whether or not a single response is expected: the callback is called as it should in
    every interleaving if and only if every client's answer carries exactly one value.
   */
  lemma CollectsExactlyIff(w: World, expectSingle: bool, replies: map<ClientId, seq<Reply>>)
    requires replies.Keys == w.home.Keys && (forall c | c in w.home :: w.home[c] < w.servers)
    ensures AlwaysAsItShould(w, expectSingle, replies) <==> forall c | c in replies :: |replies[c]| == 1
  {
    if forall c | c in replies :: |replies[c]| == 1 {
      forall events | IsRun(w, events) && Answering(events, replies)
        ensures Run(w, expectSingle, events).calls == Outcome(w, expectSingle, events)
      {
        CollectsExactly(w, expectSingle, events);
      }
    } else {
      var odd :| odd in replies && |replies[odd]| != 1;
      var events := WrongCount(w, expectSingle, replies, odd);
    }
  }

  ghost predicate AlwaysAsItShould(w: World, expectSingle: bool, replies: map<ClientId, seq<Reply>>) {
    forall events | IsRun(w, events) && Answering(events, replies) ::
      Run(w, expectSingle, events).calls == Outcome(w, expectSingle, events)
  }

  /**
    Everybody answers, a client without values last if there is one, else one with several: the last answer cannot
    make the counters agree, so the callback is called before it or not at all.
   */
  lemma WrongCount(w: World, expectSingle: bool, replies: map<ClientId, seq<Reply>>, odd: ClientId)
    returns (events: seq<Event>)
    requires replies.Keys == w.home.Keys && (forall c | c in w.home :: w.home[c] < w.servers)
    requires odd in replies && |replies[odd]| != 1
    ensures IsRun(w, events) && Answering(events, replies) && !Happened(Timer, events)
    ensures Run(w, expectSingle, events).calls != Outcome(w, expectSingle, events)
  {
    var last := odd;
    if c :| c in replies && replies[c] == [] { last := c; }
    var clients := replies.Keys - {last};
    var front := Schedule(w, expectSingle, replies, clients, odd);
    var e := Answer(last, replies[last]);
    AllButOne(replies, last);
    NothingDue(w, expectSingle, front, last);
    if Run(w, expectSingle, front).calls != [] {
      events := front;
    } else {
      events := front + [e];
      AnswerGrows(w, replies, front, last, clients);
      EveryoneAnswered(w, expectSingle, replies, front, e);
      AnswerWaits(w, expectSingle, replies, front, last, clients, odd);
      LastAnswer(w, expectSingle, replies, front, e);
    }
  }

  lemma EveryoneAnswered(w: World, expectSingle: bool, replies: map<ClientId, seq<Reply>>, front: seq<Event>, e: Event)
    requires e.Answer? && IsSchedule(w, replies, front + [e], w.home.Keys)
    ensures Outcome(w, expectSingle, front + [e]) != []
  {
    OutcomeSnoc(w, expectSingle, front, e);
  }

  lemma AllButOne(replies: map<ClientId, seq<Reply>>, last: ClientId)
    requires last in replies
    ensures replies.Keys - {last} + {last} == replies.Keys && |replies.Keys| == |replies|
    ensures |replies.Keys - {last}| == |replies| - 1
  {
  }

  /** As long as a client has not answered, and without the timer, no call is due. */
  lemma {:induction false} NothingDue(w: World, expectSingle: bool, events: seq<Event>, c: ClientId)
    requires c in w.home && c !in Answered(events) && !Happened(Timer, events)
    ensures Outcome(w, expectSingle, events) == []
    decreases |events|
  {
    if events != [] {
      NothingDue(w, expectSingle, events[..|events| - 1], c);
    }
  }

  /** The last answer comes when the counters already agree, or leaves them in disagreement. */
  lemma LastAnswer(w: World, expectSingle: bool, replies: map<ClientId, seq<Reply>>, front: seq<Event>, e: Event)
    requires e.Answer? && Awaits(Run(w, expectSingle, front), |replies|) && Run(w, expectSingle, front).calls == []
    requires Run(w, expectSingle, front).responses == Replies(front)
    requires e.replies == [] || |Replies(front + [e])| > |replies|
    ensures Run(w, expectSingle, front + [e]).calls == []
  {
    RunSnoc(w, expectSingle, front, e);
    RepliesSnoc(front, e);
    var s := Run(w, expectSingle, front);
    assert s.responses + [] == s.responses;
  }

  lemma RepliesSnoc(front: seq<Event>, e: Event)
    ensures Replies(front + [e]) == Replies(front) + (if e.Answer? then e.replies else [])
  {
    assert (front + [e])[..|front|] == front;
  }

  /** Only the number of replies decides about further calls, and with that many there was one. */
  ghost predicate Awaits(s: State, total: nat) {
    && !s.timedOut && s.expectedServers == s.actualServers && s.expectedClients == total
    && (|s.responses| == total ==> s.calls != [])
  }

  /** All reports and the server count have come, and the answers of the given clients. */
  ghost predicate IsSchedule(w: World, replies: map<ClientId, seq<Reply>>, events: seq<Event>, clients: set<ClientId>) {
    && IsRun(w, events) && Answering(events, replies) && Happened(Learn, events) && !Happened(Timer, events)
    && Reported(events) == Servers(w.servers) && Answered(events) == clients
  }

  /** Without empty answers there are at least as many replies as clients. */
  ghost predicate Waits(w: World, expectSingle: bool, replies: map<ClientId, seq<Reply>>, events: seq<Event>,
                        clients: set<ClientId>, odd: ClientId) {
    && Awaits(Run(w, expectSingle, events), |replies|)
    && Run(w, expectSingle, events).responses == Replies(events)
    && ((forall c | c in replies :: replies[c] != []) ==>
          |Replies(events)| >= |clients| + (if odd in clients then 1 else 0))
  }

  lemma AnswerGrows(w: World, replies: map<ClientId, seq<Reply>>, front: seq<Event>, c: ClientId,
                    clients: set<ClientId>)
    requires replies.Keys == w.home.Keys && c in replies && c !in clients
    requires IsSchedule(w, replies, front, clients)
    ensures IsSchedule(w, replies, front + [Answer(c, replies[c])], clients + {c})
  {
    var e := Answer(c, replies[c]);
    NotAnswered(front, c);
    RunGrows(w, front, e);
    Advances(w, front, e);
    SourcesSnoc(front, e);
  }

  lemma {:induction false} NotAnswered(events: seq<Event>, c: ClientId)
    requires c !in Answered(events)
    ensures forall i | 0 <= i < |events| && events[i].Answer? :: events[i].client != c
  {
    if events != [] {
      NotAnswered(events[..|events| - 1], c);
    }
  }

  lemma RunGrows(w: World, front: seq<Event>, e: Event)
    requires IsRun(w, front) && Possible(w, e)
    requires forall i | 0 <= i < |front| :: !SameSource(front[i], e)
    ensures IsRun(w, front + [e])
  {
  }

  lemma AnswerWaits(w: World, expectSingle: bool, replies: map<ClientId, seq<Reply>>, front: seq<Event>, c: ClientId,
                    clients: set<ClientId>, odd: ClientId)
    requires c in replies && c !in clients && odd in replies && |replies[odd]| != 1
    requires Waits(w, expectSingle, replies, front, clients, odd)
    ensures Waits(w, expectSingle, replies, front + [Answer(c, replies[c])], clients + {c}, odd)
  {
    var e := Answer(c, replies[c]);
    RunSnoc(w, expectSingle, front, e);
    RepliesSnoc(front, e);
    assert |clients + {c}| == |clients| + 1;
  }

  lemma {:induction false} Schedule(w: World, expectSingle: bool, replies: map<ClientId, seq<Reply>>,
                                    clients: set<ClientId>, odd: ClientId)
    returns (events: seq<Event>)
    requires replies.Keys == w.home.Keys && (forall c | c in w.home :: w.home[c] < w.servers)
    requires odd in replies && |replies[odd]| != 1 && clients <= replies.Keys
    ensures IsSchedule(w, replies, events, clients) && Waits(w, expectSingle, replies, events, clients, odd)
  {
    if clients == {} {
      events := OnlyReports(w, expectSingle, replies, odd);
    } else {
      var c :| c in clients;
      var front := Schedule(w, expectSingle, replies, clients - {c}, odd);
      AnswerGrows(w, replies, front, c, clients - {c});
      AnswerWaits(w, expectSingle, replies, front, c, clients - {c}, odd);
      events := front + [Answer(c, replies[c])];
      assert clients - {c} + {c} == clients;
    }
  }

  lemma OnlyReports(w: World, expectSingle: bool, replies: map<ClientId, seq<Reply>>, odd: ClientId)
    returns (events: seq<Event>)
    requires replies.Keys == w.home.Keys && (forall c | c in w.home :: w.home[c] < w.servers) && odd in replies
    ensures IsSchedule(w, replies, events, {}) && Waits(w, expectSingle, replies, events, {}, odd)
  {
    var reports := Reports(w, expectSingle, w.servers);
    events := reports + [Learn];
    RunGrows(w, reports, Learn);
    Advances(w, reports, Learn);
    SourcesSnoc(reports, Learn);
    RunSnoc(w, expectSingle, reports, Learn);
    assert Notified(w, Servers(w.servers)) == w.home.Keys && |replies.Keys| == |replies|;
    assert |replies| > 0 by { assert odd in replies.Keys; }
  }

  lemma {:induction false} Reports(w: World, expectSingle: bool, k: nat) returns (events: seq<Event>)
    requires k <= w.servers && (forall c | c in w.home :: w.home[c] < w.servers)
    ensures IsRun(w, events) && forall i | 0 <= i < |events| :: events[i].Report? && events[i].server < k
    ensures Reported(events) == Servers(k) && Answered(events) == {} && Replies(events) == []
    ensures !Happened(Learn, events) && !Happened(Timer, events)
    ensures Run(w, expectSingle, events) ==
            Initial(expectSingle).(actualServers := k, expectedClients := |Notified(w, Servers(k))|)
  {
    if k == 0 {
      events := [];
      assert Notified(w, {}) == {};
    } else {
      var front := Reports(w, expectSingle, k - 1);
      var e := Report(k - 1);
      events := front + [e];
      RunGrows(w, front, e);
      Advances(w, front, e);
      SourcesSnoc(front, e);
      RunSnoc(w, expectSingle, front, e);
    }
  }
}
