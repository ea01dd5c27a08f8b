/**
  The client end of a connection, as far as recovery is concerned: events that arrive before the
  connection is acknowledged wait in a buffer, and the last string argument seen is the offset.
 */
module ClientSocket {
  import opened Common
  import opened SessionAwareAdapter

  type Data = seq<Arg>

  datatype Client = Client(
    connected: bool,
    pid: Pid,
    lastOffset: Option<string>,
    receiveBuffer: seq<Data>,
    processed: seq<Data>)

  predicate EndsInText(data: Data) {
    data != [] && data[|data| - 1].Text?
  }

  /** The state after handing one event to the listeners. */
  function Emitted(c: Client, data: Data): Client {
    c.(processed := c.processed + [data],
       lastOffset := if c.pid != "" && data != [] && data[|data| - 1].Text? then Some(data[|data| - 1].text)
                     else c.lastOffset)
  }

  function EmittedAll(c: Client, events: seq<Data>): Client {
    if events == [] then c else Emitted(EmittedAll(c, events[..|events| - 1]), events[|events| - 1])
  }

  function OnEvent(c: Client, data: Data): Client {
    if c.connected then Emitted(c, data) else c.(receiveBuffer := c.receiveBuffer + [data])
  }

  function OnConnect(c: Client, pid: Pid): Client {
    EmittedAll(c.(pid := pid, connected := true), c.receiveBuffer).(receiveBuffer := [])
  }

  /** The buffer survives the loss of the connection. */
  function OnClose(c: Client): Client {
    c.(connected := false)
  }

  class ClientSocket {
    var connected: bool
    var pid: Pid
    var lastOffset: Option<string>
    var receiveBuffer: seq<Data>
    var processed: seq<Data>

    ghost function State(): Client
      reads this
    {
      Client(connected, pid, lastOffset, receiveBuffer, processed)
    }

    constructor ()
      ensures State() == Client(false, "", None, [], [])
    {
      connected, pid, lastOffset, receiveBuffer, processed := false, "", None, [], [];
    }

    method EmitEvent(args: Data)
      modifies this
      ensures State() == Emitted(old(State()), args)
    {
      processed := processed + [args];
      if pid != "" && |args| > 0 && args[|args| - 1].Text? {
        lastOffset := Some(args[|args| - 1].text);
      }
    }

    method OnEventPacket(args: Data)
      modifies this
      ensures State() == OnEvent(old(State()), args)
    {
      if connected {
        EmitEvent(args);
      } else {
        receiveBuffer := receiveBuffer + [args];
      }
    }

    method OnConnectPacket(newPid: Pid)
      modifies this
      ensures State() == OnConnect(old(State()), newPid)
    {
      pid := newPid;
      connected := true;
      ghost var start := State();
      var buffered := receiveBuffer;
      for i := 0 to |buffered|
        invariant receiveBuffer == buffered
        invariant State() == EmittedAll(start, buffered[..i])
      {
        EmitEvent(buffered[i]);
        assert buffered[..i + 1][..i] == buffered[..i];
        EmittedAllKeepsBuffer(start, buffered[..i]);
      }
      assert buffered[..|buffered|] == buffered;
      receiveBuffer := [];
    }

    method OnConnectionLost()
      modifies this
      ensures State() == OnClose(old(State()))
    {
      connected := false;
    }
  }

  lemma EmittedAllKeepsBuffer(c: Client, events: seq<Data>)
    ensures EmittedAll(c, events) ==
            c.(processed := EmittedAll(c, events).processed, lastOffset := EmittedAll(c, events).lastOffset)
    ensures EmittedAll(c, events).processed == c.processed + events
  {
    if events != [] {
      EmittedAllKeepsBuffer(c, events[..|events| - 1]);
      assert events == events[..|events| - 1] + [events[|events| - 1]];
    }
  }

  // ---------- what the events alone say ----------

  datatype ClientEvent = Arrives(data: Data) | Connects(pid: Pid) | Loses

  function ClientRun(events: seq<ClientEvent>): Client {
    if events == [] then Client(false, "", None, [], [])
    else
      var c := ClientRun(events[..|events| - 1]);
      match events[|events| - 1]
      case Arrives(data) => OnEvent(c, data)
      case Connects(pid) => OnConnect(c, pid)
      case Loses => OnClose(c)
  }

  function Arrived(events: seq<ClientEvent>): seq<Data> {
    if events == [] then []
    else
      var e := events[|events| - 1];
      Arrived(events[..|events| - 1]) + if e.Arrives? then [e.data] else []
  }

  predicate IsConnected(events: seq<ClientEvent>) {
    events != [] &&
    var e := events[|events| - 1]; e.Connects? || (e.Arrives? && IsConnected(events[..|events| - 1]))
  }

  /** The last argument of the latest event that ends in text, if there is any. */
  ghost predicate IsLatestText(offset: Option<string>, processed: seq<Data>) {
    match offset
    case None => forall i | 0 <= i < |processed| :: !EndsInText(processed[i])
    case Some(text) =>
      exists i | 0 <= i < |processed| ::
        && processed[i] != [] && processed[i][|processed[i]| - 1] == Text(text)
        && forall j | i < j < |processed| :: !EndsInText(processed[j])
  }

  /**
    In every run of arriving events, connections and losses, every event that has arrived is processed once and in
    order, or waits to be while there is no connection.
   */
  lemma {:induction false} EveryEventIsProcessed(events: seq<ClientEvent>)
    ensures var c := ClientRun(events);
            && c.processed + c.receiveBuffer == Arrived(events)
            && (c.connected <==> IsConnected(events))
            && (c.connected ==> c.receiveBuffer == [])
  {
    if events != [] {
      var front, e := events[..|events| - 1], events[|events| - 1];
      EveryEventIsProcessed(front);
      var c := ClientRun(front);
      if e.Connects? {
        EmittedAllKeepsBuffer(c.(pid := e.pid, connected := true), c.receiveBuffer);
      }
    }
  }

  /**
    In every run the offset of a recoverable client is the last argument of the latest processed event that ends in
    text, whatever came after that, and other clients have none.
   */
  lemma {:induction false} OffsetIsLatestText(events: seq<ClientEvent>)
    ensures (forall e | e in events && e.Connects? :: e.pid != "") ==>
              IsLatestText(ClientRun(events).lastOffset, ClientRun(events).processed)
    ensures (forall e | e in events && e.Connects? :: e.pid == "") ==> ClientRun(events).lastOffset == None
  {
    if events != [] {
      var front, e := events[..|events| - 1], events[|events| - 1];
      OffsetIsLatestText(front);
      PidOfRun(front);
      assert e in events && forall x | x in front :: x in events;
      var c := ClientRun(front);
      match e
      case Arrives(data) =>
        if c.connected && c.pid != "" && IsLatestText(c.lastOffset, c.processed) { OneMoreEvent(c, data); }
      case Connects(pid) => LatestText(c.(pid := pid, connected := true), c.receiveBuffer);
      case Loses =>
    }
  }

  /** A connected client has the id of a connection. */
  lemma {:induction false} PidOfRun(events: seq<ClientEvent>)
    ensures ClientRun(events).connected ==> Connects(ClientRun(events).pid) in events
  {
    if events != [] {
      var front, e := events[..|events| - 1], events[|events| - 1];
      PidOfRun(front);
      if e.Connects? {
        EmittedAllKeepsBuffer(ClientRun(front).(pid := e.pid, connected := true), ClientRun(front).receiveBuffer);
      }
    }
  }

  lemma {:induction false} LatestText(c: Client, events: seq<Data>)
    ensures c.pid != "" && IsLatestText(c.lastOffset, c.processed) ==>
              IsLatestText(EmittedAll(c, events).lastOffset, EmittedAll(c, events).processed)
    ensures c.pid == "" ==> EmittedAll(c, events).lastOffset == c.lastOffset
  {
    if events != [] {
      var front, last := events[..|events| - 1], events[|events| - 1];
      LatestText(c, front);
      EmittedAllKeepsBuffer(c, front);
      if c.pid != "" && IsLatestText(c.lastOffset, c.processed) {
        OneMoreEvent(EmittedAll(c, front), last);
      }
    }
  }

  lemma OneMoreEvent(c: Client, data: Data)
    requires c.pid != "" && IsLatestText(c.lastOffset, c.processed)
    ensures IsLatestText(Emitted(c, data).lastOffset, Emitted(c, data).processed)
  {
    var processed := c.processed + [data];
    if EndsInText(data) {
      assert processed[|c.processed|] == data;
    } else if c.lastOffset.Some? {
      var i :| 0 <= i < |c.processed| && c.processed[i] != [] &&
               c.processed[i][|c.processed[i]| - 1] == Text(c.lastOffset.value) &&
               forall j | i < j < |c.processed| :: !EndsInText(c.processed[j]);
      assert processed[i] == c.processed[i];
    }
  }
}
