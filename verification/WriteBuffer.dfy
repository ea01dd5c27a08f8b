/**
  The write buffer of the low-level client: packets wait in it until the transport has drained them, and are
  handed to the transport in batches that respect the payload limit of the server.
 */
module WriteBuffer {
  import opened Common
  import opened Utf8

  datatype Data = Nothing | Str(text: Text) | Bin(size: nat)

  /** The type of a packet is written as one ASCII character. */
  type TypeChar = u: int | 0 <= u < 0x80

  datatype Packet = Packet(kind: TypeChar, data: Data)

  const SEPARATOR: Unit := 30

  // ---------- the payload of a batch ----------

  /** The base64 text of some octets, of which only the length matters here. */
  function Base64(size: nat): Text {
    seq(4 * ((size + 2) / 3), _ => 'A' as int)
  }

  /** A packet as text; in a payload binary data is base64, with `b` in place of the type. */
  function AsText(p: Packet): Text {
    match p.data
    case Nothing => [p.kind]
    case Str(text) => [p.kind] + text
    case Bin(size) => ['b' as int] + Base64(size)
  }

  function Payload(ps: seq<Packet>): Text {
    if |ps| == 0 then []
    else if |ps| == 1 then AsText(ps[0])
    else Payload(ps[..|ps| - 1]) + [SEPARATOR] + AsText(ps[|ps| - 1])
  }

  /** The octets of a batch on the wire. */
  function PayloadSize(ps: seq<Packet>): nat {
    |Encode(Payload(ps))|
  }

  // ---------- the size as it is estimated ----------

  /** What data is counted as; None is "not a number", which an empty array buffer leads to. */
  function Estimate(d: Data): Option<nat> {
    match d
    case Nothing => Some(0)
    case Str(text) => Some(Measured(text))
    case Bin(size) => if size == 0 then None else Some((133 * size + 99) / 100)
  }

  function Plus(size: Option<nat>, more: Option<nat>): Option<nat> {
    if size.Some? && more.Some? then Some(size.value + more.value) else None
  }

  predicate Exceeds(size: Option<nat>, max: nat) {
    size.Some? && size.value > max
  }

  /** How many packets the loop takes that has counted `size` before packet `i`. */
  function Scan(ps: seq<Packet>, i: nat, size: Option<nat>, max: nat): nat
    requires i <= |ps|
    decreases |ps| - i
  {
    if i == |ps| then |ps|
    else
      var counted := Plus(size, Estimate(ps[i].data));
      if i > 0 && Exceeds(counted, max) then i else Scan(ps, i + 1, Plus(counted, Some(2)), max)
  }

  // ---------- the buffer ----------

  datatype Ready = Opening | Open | Closing | Closed

  datatype State = State(
    ready: Ready,
    polling: bool,
    writable: bool,
    upgrading: bool,
    writeBuffer: seq<Packet>,
    prevBufferLen: nat,
    /** Everything that was accepted, everything that was drained, and the batches handed to the transport. */
    accepted: seq<Packet>,
    drained: seq<Packet>,
    batches: seq<seq<Packet>>)

  function Initial(polling: bool): State {
    State(Opening, polling, false, false, [], 0, [], [], [])
  }

  function BatchLength(s: State, max: nat): nat {
    if max > 0 && s.polling && |s.writeBuffer| > 1 then Scan(s.writeBuffer, 0, Some(1), max) else |s.writeBuffer|
  }

  function Flushed(s: State, max: nat): State {
    if s.ready != Closed && s.writable && !s.upgrading && s.writeBuffer != [] then
      var k := BatchLength(s, max);
      ScanInRange(s.writeBuffer, 0, Some(1), max);
      s.(writable := false, prevBufferLen := k, batches := s.batches + [s.writeBuffer[..k]])
    else s
  }

  function Sent(s: State, p: Packet, max: nat): State {
    if s.ready == Closing || s.ready == Closed then s
    else Flushed(s.(writeBuffer := s.writeBuffer + [p], accepted := s.accepted + [p]), max)
  }

  /** The transport can be written to again. */
  function Drained(s: State, max: nat): State
    requires s.prevBufferLen <= |s.writeBuffer|
  {
    var s' := s.(writable := true, drained := s.drained + s.writeBuffer[..s.prevBufferLen],
                 writeBuffer := s.writeBuffer[s.prevBufferLen..], prevBufferLen := 0);
    if s'.writeBuffer == [] then s' else Flushed(s', max)
  }

  function Opened(s: State, max: nat): State {
    Flushed(s.(ready := Open, writable := true), max)
  }

  /** The new transport is busy with its own packet until it drains. */
  function Upgraded(s: State, max: nat): State {
    Flushed(s.(polling := false, writable := false, upgrading := false), max)
  }

  lemma {:induction false} ScanInRange(ps: seq<Packet>, i: nat, size: Option<nat>, max: nat)
    requires i <= |ps|
    ensures i <= Scan(ps, i, size, max) <= |ps|
    ensures i < |ps| && i == 0 ==> Scan(ps, i, size, max) > 0
    decreases |ps| - i
  {
    if i < |ps| {
      var counted := Plus(size, Estimate(ps[i].data));
      if !(i > 0 && Exceeds(counted, max)) {
        ScanInRange(ps, i + 1, Plus(counted, Some(2)), max);
      }
    }
  }

  class Client {
    /** The limit announced by the server, or zero. */
    const maxPayload: nat
    var ready: Ready
    var polling: bool
    var writable: bool
    var upgrading: bool
    var writeBuffer: seq<Packet>
    var prevBufferLen: nat
    ghost var accepted: seq<Packet>
    ghost var drained: seq<Packet>
    ghost var batches: seq<seq<Packet>>

    ghost function Abs(): State
      reads this
    {
      State(ready, polling, writable, upgrading, writeBuffer, prevBufferLen, accepted, drained, batches)
    }

    constructor (maxPayload: nat, polling: bool)
      ensures Abs() == Initial(polling) && this.maxPayload == maxPayload
    {
      this.maxPayload, this.polling := maxPayload, polling;
      ready, writable, upgrading, writeBuffer, prevBufferLen := Opening, false, false, [], 0;
      accepted, drained, batches := [], [], [];
    }

    method GetWritablePackets() returns (packets: seq<Packet>)
      ensures BatchLength(Abs(), maxPayload) <= |writeBuffer|
      ensures packets == writeBuffer[..BatchLength(Abs(), maxPayload)]
    {
      ScanInRange(writeBuffer, 0, Some(1), maxPayload);
      if !(maxPayload > 0 && polling && |writeBuffer| > 1) {
        return writeBuffer;
      }
      var payloadSize := Some(1);
      for i := 0 to |writeBuffer|
        invariant Scan(writeBuffer, i, payloadSize, maxPayload) == Scan(writeBuffer, 0, Some(1), maxPayload)
      {
        var bytes := ByteLength(writeBuffer[i].data);
        payloadSize := Plus(payloadSize, bytes);
        if i > 0 && Exceeds(payloadSize, maxPayload) {
          return writeBuffer[..i];
        }
        payloadSize := Plus(payloadSize, Some(2));
      }
      return writeBuffer;
    }

    method ByteLength(d: Data) returns (bytes: Option<nat>)
      ensures bytes == Estimate(d)
    {
      match d
      case Nothing => bytes := Some(0);
      case Str(text) =>
        var n := Utf8Length(text);
        bytes := Some(n);
      case Bin(size) => bytes := if size == 0 then None else Some((133 * size + 99) / 100);
    }

    method Flush()
      modifies this
      ensures Abs() == Flushed(old(Abs()), maxPayload)
    {
      if ready != Closed && writable && !upgrading && |writeBuffer| > 0 {
        var packets := GetWritablePackets();
        writable := false;
        batches := batches + [packets];
        prevBufferLen := |packets|;
      }
    }

    method SendPacket(p: Packet)
      modifies this
      ensures Abs() == Sent(old(Abs()), p, maxPayload)
    {
      if ready == Closing || ready == Closed {
        return;
      }
      writeBuffer, accepted := writeBuffer + [p], accepted + [p];
      Flush();
    }

    method OnDrain()
      requires prevBufferLen <= |writeBuffer|
      modifies this
      ensures Abs() == Drained(old(Abs()), maxPayload)
    {
      writable := true;
      drained := drained + writeBuffer[..prevBufferLen];
      writeBuffer := writeBuffer[prevBufferLen..];
      prevBufferLen := 0;
      if |writeBuffer| != 0 {
        Flush();
      }
    }

    method OnOpen()
      modifies this
      ensures Abs() == Opened(old(Abs()), maxPayload)
    {
      ready, writable := Open, true;
      Flush();
    }

    method OnUpgrade()
      modifies this
      ensures Abs() == Upgraded(old(Abs()), maxPayload)
    {
      polling, writable, upgrading := false, false, false;
      Flush();
    }

    method OnClose()
      modifies this
      ensures Abs() == old(Abs()).(ready := Closed, writeBuffer := [], prevBufferLen := 0)
    {
      ready, writeBuffer, prevBufferLen := Closed, [], 0;
    }
  }

  // ---------- runs ----------

  datatype Event = Send(packet: Packet) | Drain | Flush | OpenUp | StartUpgrade | FinishUpgrade | StartClosing | Close

  /** A transport drains once for every batch, and is paused for the upgrade only when it has drained. */
  function Next(s: State, e: Event, max: nat): Option<State> {
    match e
    case Send(p) => Some(Sent(s, p, max))
    case Drain =>
      if !s.writable && s.ready != Opening && s.ready != Closed && s.prevBufferLen <= |s.writeBuffer| then
        Some(Drained(s, max))
      else None
    case Flush => Some(Flushed(s, max))
    case OpenUp => if s.ready == Opening then Some(Opened(s, max)) else None
    case StartUpgrade => if s.ready == Open && s.polling then Some(s.(upgrading := true)) else None
    case FinishUpgrade => if s.upgrading && s.writable && s.ready != Closed then Some(Upgraded(s, max)) else None
    case StartClosing => if s.ready == Open || s.ready == Opening then Some(s.(ready := Closing)) else None
    case Close => Some(s.(ready := Closed, writeBuffer := [], prevBufferLen := 0))
  }

  function Run(polling: bool, events: seq<Event>, max: nat): Option<State> {
    if events == [] then Some(Initial(polling))
    else
      match Run(polling, events[..|events| - 1], max)
      case None => None
      case Some(s) => Next(s, events[|events| - 1], max)
  }

  // ---------- what the events alone say ----------

  /** Closing has begun. */
  predicate ClosingBegun(events: seq<Event>) {
    exists i | 0 <= i < |events| :: events[i].StartClosing? || events[i].Close?
  }

  /** The packets of all sends before closing begins, in order. */
  function SentBeforeClosing(events: seq<Event>): seq<Packet> {
    if events == [] then []
    else
      var front, e := events[..|events| - 1], events[|events| - 1];
      SentBeforeClosing(front) + (if e.Send? && !ClosingBegun(front) then [e.packet] else [])
  }

  /** An upgrade has begun and not finished. */
  predicate IsPaused(events: seq<Event>) {
    events != [] &&
    var e := events[|events| - 1]; e.StartUpgrade? || (!e.FinishUpgrade? && IsPaused(events[..|events| - 1]))
  }

  /** How often the transport has become free, and how often it got busy with its own packet. */
  function Freed(events: seq<Event>): nat {
    if events == [] then 0
    else
      var e := events[|events| - 1];
      Freed(events[..|events| - 1]) + if e.OpenUp? || e.Drain? then 1 else 0
  }

  function Upgrades(events: seq<Event>): nat {
    if events == [] then 0
    else Upgrades(events[..|events| - 1]) + if events[|events| - 1].FinishUpgrade? then 1 else 0
  }

  /**
    In every run the packets accepted are those sent before closing begins. Until the connection is closed none of
    them is lost, doubled or overtaken: what was accepted is what was drained followed by the buffer, and what the
    transport was given is what was drained followed by the batch under way; after that, it was given the first of
    them. Nothing is left in the buffer while the transport could take it.
   */
  lemma BufferConserves(polling: bool, events: seq<Event>, max: nat)
    requires Run(polling, events, max).Some?
    ensures var s := Run(polling, events, max).value;
            && s.accepted == SentBeforeClosing(events)
            && Concat(s.batches) <= s.accepted
            && (s.ready == Closed ==> s.writeBuffer == [])
            && (s.ready != Closed ==>
                  && s.drained + s.writeBuffer == s.accepted
                  && s.prevBufferLen <= |s.writeBuffer|
                  && Concat(s.batches) == s.drained + s.writeBuffer[..s.prevBufferLen]
                  && (s.prevBufferLen > 0 ==> !s.writable)
                  && (s.writable && !s.upgrading ==> s.writeBuffer == []))
  {
    Invariant(polling, events, max);
    FlagsFollow(polling, events, max);
  }

  /**
    The transport takes turns: it becomes free by opening and by draining, and busy by a batch or an upgrade, never
    twice in a row; and nothing is handed over during an upgrade.
   */
  lemma TransportTakesTurns(polling: bool, events: seq<Event>, e: Event, max: nat)
    requires Run(polling, events + [e], max).Some? && Run(polling, events, max).Some?
    ensures var s, s' := Run(polling, events, max).value, Run(polling, events + [e], max).value;
            && |s'.batches| + Upgrades(events + [e]) + (if s'.writable then 1 else 0) == Freed(events + [e])
            && s.batches <= s'.batches && |s'.batches| <= |s.batches| + 1
            && (s'.batches != s.batches ==> !IsPaused(events + [e]) && s'.ready != Closed)
            && s'.polling == (polling && Upgrades(events + [e]) == 0)
  {
    FlagsFollow(polling, events + [e], max);
    assert (events + [e])[..|events|] == events;
    BatchesGrow(Run(polling, events, max).value, e, max);
  }

  /** What the state remembers of the events. */
  ghost predicate Remembers(s: State, polling: bool, events: seq<Event>) {
    && s.accepted == SentBeforeClosing(events)
    && ((s.ready == Closing || s.ready == Closed) <==> ClosingBegun(events))
    && s.upgrading == IsPaused(events)
    && s.polling == (polling && Upgrades(events) == 0)
    && |s.batches| + Upgrades(events) + (if s.writable then 1 else 0) == Freed(events)
  }

  lemma {:induction false} FlagsFollow(polling: bool, events: seq<Event>, max: nat)
    requires Run(polling, events, max).Some?
    ensures Remembers(Run(polling, events, max).value, polling, events)
  {
    if events != [] {
      var front, e := events[..|events| - 1], events[|events| - 1];
      FlagsFollow(polling, front, max);
      Invariant(polling, front, max);
      ClosingBegunSnoc(front, e);
      assert events == front + [e];
      StepRemembers(Run(polling, front, max).value, polling, front, e, max);
    }
  }

  lemma ClosingBegunSnoc(events: seq<Event>, e: Event)
    ensures ClosingBegun(events + [e]) <==> ClosingBegun(events) || e.StartClosing? || e.Close?
  {
    var all := events + [e];
    if ClosingBegun(events) {
      var i :| 0 <= i < |events| && (events[i].StartClosing? || events[i].Close?);
      assert all[i] == events[i];
    }
    if e.StartClosing? || e.Close? { assert all[|events|] == e; }
  }

  lemma StepRemembers(s: State, polling: bool, events: seq<Event>, e: Event, max: nat)
    requires Remembers(s, polling, events) && Inv(s) && Next(s, e, max).Some?
    requires ClosingBegun(events + [e]) <==> ClosingBegun(events) || e.StartClosing? || e.Close?
    ensures Remembers(Next(s, e, max).value, polling, events + [e])
  {
    assert (events + [e])[..|events|] == events;
  }

  lemma BatchesGrow(s: State, e: Event, max: nat)
    requires Next(s, e, max).Some?
    ensures var s' := Next(s, e, max).value;
            && s.batches <= s'.batches && |s'.batches| <= |s.batches| + 1
            && (s'.batches != s.batches ==> !s'.upgrading && s'.ready != Closed)
  {
  }

  ghost predicate Conserved(s: State) {
    && s.drained + s.writeBuffer == s.accepted
    && s.prevBufferLen <= |s.writeBuffer|
    && Concat(s.batches) == s.drained + s.writeBuffer[..s.prevBufferLen]
    && (s.prevBufferLen > 0 ==> !s.writable)
  }

  ghost predicate Eager(s: State) {
    s.writable && !s.upgrading ==> s.writeBuffer == []
  }

  ghost predicate Inv(s: State) {
    && (s.ready != Closed ==> Conserved(s) && Eager(s)) && (s.ready == Opening ==> s.prevBufferLen == 0 && !s.writable)
    && (s.ready == Closed ==> s.writeBuffer == []) && Concat(s.batches) <= s.accepted
  }

  lemma {:induction false} Invariant(polling: bool, events: seq<Event>, max: nat)
    requires Run(polling, events, max).Some?
    ensures Inv(Run(polling, events, max).value)
  {
    if events != [] {
      var front := events[..|events| - 1];
      Invariant(polling, front, max);
      StepKeeps(Run(polling, front, max).value, events[|events| - 1], max);
    }
  }

  lemma StepKeeps(s: State, e: Event, max: nat)
    requires Inv(s) && Next(s, e, max).Some?
    ensures Inv(Next(s, e, max).value)
  {
    match e
    case Send(p) => SendKeeps(s, p, max);
    case Drain => DrainKeeps(s, max);
    case Flush => if s.ready != Closed { FlushKeeps(s, max); }
    case OpenUp => FlushKeeps(s.(ready := Open, writable := true), max);
    case FinishUpgrade => FlushKeeps(s.(polling := false, writable := false, upgrading := false), max);
    case _ =>
  }

  lemma FlushKeeps(s: State, max: nat)
    requires Conserved(s) && s.ready != Closed
    ensures Conserved(Flushed(s, max)) && Eager(Flushed(s, max))
    ensures !s.writable ==> Flushed(s, max) == s
  {
    if s.writable && !s.upgrading && s.writeBuffer != [] {
      var k := BatchLength(s, max);
      ScanInRange(s.writeBuffer, 0, Some(1), max);
      ConcatSnoc(s.batches, s.writeBuffer[..k]);
      assert s.drained + s.writeBuffer[..0] == s.drained;
    }
  }

  lemma SendKeeps(s: State, p: Packet, max: nat)
    requires Inv(s)
    ensures Inv(Sent(s, p, max))
  {
    if s.ready != Closing && s.ready != Closed {
      var s' := s.(writeBuffer := s.writeBuffer + [p], accepted := s.accepted + [p]);
      assert s'.writeBuffer[..s.prevBufferLen] == s.writeBuffer[..s.prevBufferLen];
      assert s'.drained + s'.writeBuffer == s.drained + s.writeBuffer + [p];
      FlushKeeps(s', max);
    }
  }

  lemma DrainKeeps(s: State, max: nat)
    requires Conserved(s) && s.ready != Closed && s.ready != Opening
    ensures Inv(Drained(s, max))
  {
    var s' := s.(writable := true, drained := s.drained + s.writeBuffer[..s.prevBufferLen],
                 writeBuffer := s.writeBuffer[s.prevBufferLen..], prevBufferLen := 0);
    BatchLeaves(s.drained, s.writeBuffer, s.prevBufferLen);
    FlushKeeps(s', max);
  }

  lemma BatchLeaves(drained: seq<Packet>, buffer: seq<Packet>, k: nat)
    requires k <= |buffer|
    ensures drained + buffer[..k] + buffer[k..] == drained + buffer
    ensures drained + buffer[..k] + buffer[k..][..0] == drained + buffer[..k]
  {
  }

  // ---------- the size of a batch ----------

  /** Data whose size is known exactly. */
  predicate IsExact(d: Data) {
    match d
    case Nothing => true
    case Str(text) => WellFormed(text)
    case Bin(size) => size % 3 == 0 && 0 < size < 300
  }

  function SizeOf(d: Data): nat {
    match d
    case Nothing => 0
    case Str(text) => |Encode(text)|
    case Bin(size) => |Base64(size)|
  }

  /** The estimate does not fall short of the size. */
  predicate IsCovered(d: Data) {
    Estimate(d).Some? && Estimate(d).value >= SizeOf(d)
  }

  /** The estimate for binary data is right, or high enough, exactly below 300 octets in whole groups of three. */
  lemma BinaryExactIff(size: nat)
    ensures Estimate(Bin(size)) == Some(SizeOf(Bin(size))) <==> IsExact(Bin(size))
    ensures IsCovered(Bin(size)) <==> IsExact(Bin(size))
  {
    var groups, rest := size / 3, size % 3;
    if rest == 0 {
      WholeGroups(groups);
    } else {
      BrokenGroup(groups, rest);
    }
  }

  lemma WholeGroups(groups: nat)
    ensures |Base64(3 * groups)| == 4 * groups
    ensures (133 * (3 * groups) + 99) / 100 <= 4 * groups
    ensures (133 * (3 * groups) + 99) / 100 == 4 * groups <==> groups < 100
  {
    assert 133 * (3 * groups) + 99 == 400 * groups + 99 - groups;
  }

  lemma BrokenGroup(groups: nat, rest: nat)
    requires 1 <= rest <= 2
    ensures |Base64(3 * groups + rest)| == 4 * groups + 4
    ensures (133 * (3 * groups + rest) + 99) / 100 < 4 * groups + 4
  {
    assert 133 * (3 * groups + rest) + 99 < 400 * groups + 400;
  }

  // ---------- the limit ----------

  /** The batch respects the limit, unless it is a single packet. */
  ghost predicate KeepsLimit(s: State, max: nat) {
    max > 0 && s.polling && s.writeBuffer != [] ==>
      var k := BatchLength(s, max);
      1 <= k <= |s.writeBuffer| && (k == 1 || PayloadSize(s.writeBuffer[..k]) <= max)
  }

  ghost predicate OthersExact(ps: seq<Packet>, d: Data) {
    forall i | 0 <= i < |ps| :: ps[i].data == d || IsExact(ps[i].data)
  }

  /**
    Data is safe to send along with packets whose size is known exactly, that is, every batch keeps the limit, if
    and only if its estimate does not fall short of its size.
   */
  lemma LimitKeptIff(d: Data)
    ensures (forall s: State, max | OthersExact(s.writeBuffer, d) :: KeepsLimit(s, max)) <==> IsCovered(d)
  {
    if IsCovered(d) {
      forall s: State, max | OthersExact(s.writeBuffer, d) ensures KeepsLimit(s, max) {
        forall i | 0 <= i < |s.writeBuffer| ensures IsCovered(s.writeBuffer[i].data) {
          if IsExact(s.writeBuffer[i].data) { ExactEstimate(s.writeBuffer[i].data); }
        }
        CoveredKeepsLimit(s, max);
      }
    } else {
      var s := TwoPackets(d);
      var max := if Estimate(d).Some? then 3 + Estimate(d).value else 1;
      TwoPacketsBreakLimit(d, max);
      assert OthersExact(s.writeBuffer, d) && !KeepsLimit(s, max);
    }
  }

  /** A packet without data followed by one with the given data. */
  function TwoPackets(d: Data): State {
    Initial(true).(writeBuffer := [Packet(52, Nothing), Packet(52, d)])
  }

  lemma TwoPacketsBreakLimit(d: Data, max: nat)
    requires max > 0 && !IsCovered(d)
    requires max == if Estimate(d).Some? then 3 + Estimate(d).value else 1
    ensures BatchLength(TwoPackets(d), max) == 2 && PayloadSize(TwoPackets(d).writeBuffer[..2]) == 3 + SizeOf(d) > max
  {
    TwoPacketsTaken(d, max);
    TwoPacketsSize(d);
  }

  lemma TwoPacketsTaken(d: Data, max: nat)
    requires max > 0 && (Estimate(d).Some? ==> 3 + Estimate(d).value <= max)
    ensures BatchLength(TwoPackets(d), max) == 2
  {
    var ps := TwoPackets(d).writeBuffer;
    assert Scan(ps, 2, Plus(Plus(Some(3), Estimate(d)), Some(2)), max) == 2;
    assert Scan(ps, 1, Some(3), max) == 2;
  }

  lemma TwoPacketsSize(d: Data)
    ensures PayloadSize(TwoPackets(d).writeBuffer[..2]) == 3 + SizeOf(d)
  {
    var ps := TwoPackets(d).writeBuffer;
    PayloadGrows(ps, 0);
    PayloadGrows(ps, 1);
  }

  /** One octet is enough: its estimate is two octets, but it takes four. */
  lemma OneOctetBreaksLimit()
    ensures BatchLength(TwoPackets(Bin(1)), 5) == 2 && PayloadSize(TwoPackets(Bin(1)).writeBuffer) == 7
  {
    BinaryExactIff(1);
    TwoPacketsBreakLimit(Bin(1), 5);
    var ps := TwoPackets(Bin(1)).writeBuffer;
    assert ps[..2] == ps;
  }

  lemma CoveredKeepsLimit(s: State, max: nat)
    requires forall i | 0 <= i < |s.writeBuffer| :: IsCovered(s.writeBuffer[i].data)
    ensures KeepsLimit(s, max)
  {
    ScanInRange(s.writeBuffer, 0, Some(1), max);
    if max > 0 && s.polling && |s.writeBuffer| > 1 {
      var sizes := PrefixSizes(s.writeBuffer);
      ScanKeepsLimit(s.writeBuffer, sizes, 0, 1, max);
    }
  }

  /** What is counted is never less than the size of the payload. */
  lemma {:induction false} ScanKeepsLimit(ps: seq<Packet>, sizes: seq<nat>, i: nat, size: nat, max: nat)
    requires i <= |ps| && Sizes(ps, sizes) && forall x | 0 <= x < |ps| :: IsCovered(ps[x].data)
    requires size >= if i == 0 then 1 else sizes[i] + 2
    requires i > 1 ==> sizes[i] <= max
    ensures var k := Scan(ps, i, Some(size), max); i <= k <= |ps| && (k > 1 ==> sizes[k] <= max)
    decreases |ps| - i
  {
    if i < |ps| {
      var counted := size + Estimate(ps[i].data).value;
      assert counted >= sizes[i + 1];
      if !(i > 0 && counted > max) {
        ScanKeepsLimit(ps, sizes, i + 1, counted + 2, max);
      }
    }
  }

  /** An empty array buffer that gets into the batch switches the limit off: everything behind it is taken too. */
  lemma {:induction false} EmptyBufferDefeatsLimit(ps: seq<Packet>, i: nat, size: Option<nat>, max: nat, j: nat)
    requires i <= j < |ps| && ps[j].data == Bin(0) && j < Scan(ps, i, size, max)
    ensures Scan(ps, i, size, max) == |ps|
    decreases |ps| - i
  {
    var counted := Plus(size, Estimate(ps[i].data));
    if i == j {
      NotANumber(ps, i + 1, max);
    } else {
      EmptyBufferDefeatsLimit(ps, i + 1, Plus(counted, Some(2)), max, j);
    }
  }

  lemma {:induction false} NotANumber(ps: seq<Packet>, i: nat, max: nat)
    requires i <= |ps|
    ensures Scan(ps, i, None, max) == |ps|
    decreases |ps| - i
  {
    if i < |ps| {
      NotANumber(ps, i + 1, max);
    }
  }

  /**
    On a polling transport with a limit: the batch is the longest beginning of the buffer whose payload is within
    the limit, or a single packet if not even that is.
   */
  lemma BatchIsLongest(s: State, max: nat)
    requires max > 0 && s.polling && s.writeBuffer != []
    requires forall i | 0 <= i < |s.writeBuffer| :: IsExact(s.writeBuffer[i].data)
    ensures var k := BatchLength(s, max);
            && 1 <= k <= |s.writeBuffer|
            && (k == 1 || PayloadSize(s.writeBuffer[..k]) <= max)
            && (forall j | k < j <= |s.writeBuffer| :: PayloadSize(s.writeBuffer[..j]) > max)
  {
    ScanInRange(s.writeBuffer, 0, Some(1), max);
    if |s.writeBuffer| > 1 {
      var sizes := PrefixSizes(s.writeBuffer);
      ScanIsLongest(s.writeBuffer, sizes, 0, 1, max);
    }
  }

  /**
    What is handed over, in every run: the whole buffer, unless the transport polls and the server has a limit; then,
    if the size of everything sent is known exactly, the longest beginning within the limit or a single packet.
   */
  lemma BatchHandedOver(polling: bool, events: seq<Event>, e: Event, max: nat)
    requires Run(polling, events, max).Some? && Run(polling, events + [e], max).Some?
    requires Run(polling, events + [e], max).value.batches != Run(polling, events, max).value.batches
    ensures var s := Run(polling, events + [e], max).value;
            var batch := s.batches[|s.batches| - 1];
            && batch != [] && batch <= s.writeBuffer
            && (max == 0 || !s.polling ==> batch == s.writeBuffer)
            && (max > 0 && s.polling && (forall p | p in SentBeforeClosing(events + [e]) :: IsExact(p.data)) ==>
                  && (|batch| == 1 || PayloadSize(batch) <= max)
                  && forall j | |batch| < j <= |s.writeBuffer| :: PayloadSize(s.writeBuffer[..j]) > max)
  {
    assert (events + [e])[..|events|] == events;
    var s := Run(polling, events + [e], max).value;
    BatchIsTaken(Run(polling, events, max).value, e, max);
    if max > 0 && s.polling && forall p | p in SentBeforeClosing(events + [e]) :: IsExact(p.data) {
      BufferIsExact(polling, events + [e], max);
      BatchIsLongest(s, max);
    }
  }

  lemma BufferIsExact(polling: bool, events: seq<Event>, max: nat)
    requires Run(polling, events, max).Some? && forall p | p in SentBeforeClosing(events) :: IsExact(p.data)
    ensures var buffer := Run(polling, events, max).value.writeBuffer;
            forall i | 0 <= i < |buffer| :: IsExact(buffer[i].data)
  {
    BufferConserves(polling, events, max);
    var s := Run(polling, events, max).value;
    forall i | 0 <= i < |s.writeBuffer| ensures IsExact(s.writeBuffer[i].data) {
      assert s.accepted[|s.drained| + i] == s.writeBuffer[i];
    }
  }

  lemma BatchIsTaken(s: State, e: Event, max: nat)
    requires Next(s, e, max).Some? && Next(s, e, max).value.batches != s.batches
    ensures var s' := Next(s, e, max).value;
            && 1 <= BatchLength(s', max) <= |s'.writeBuffer|
            && s'.batches == s.batches + [s'.writeBuffer[..BatchLength(s', max)]]
  {
    ScanInRange(Next(s, e, max).value.writeBuffer, 0, Some(1), max);
  }

  /** The sizes of all beginnings of a batch. */
  ghost predicate Sizes(ps: seq<Packet>, sizes: seq<nat>) {
    && |sizes| == |ps| + 1
    && forall i | 0 <= i < |ps| :: sizes[i + 1] == (if i == 0 then 1 else sizes[i] + 2) + SizeOf(ps[i].data)
  }

  lemma PrefixSizes(ps: seq<Packet>) returns (sizes: seq<nat>)
    ensures Sizes(ps, sizes) && forall i | 0 <= i <= |ps| :: sizes[i] == PayloadSize(ps[..i])
  {
    sizes := seq(|ps| + 1, i requires 0 <= i <= |ps| => PayloadSize(ps[..i]));
    forall i | 0 <= i < |ps|
      ensures sizes[i + 1] == (if i == 0 then 1 else sizes[i] + 2) + SizeOf(ps[i].data)
    {
      PayloadGrows(ps, i);
    }
  }

  lemma {:induction false} ScanIsLongest(ps: seq<Packet>, sizes: seq<nat>, i: nat, size: nat, max: nat)
    requires i <= |ps| && Sizes(ps, sizes) && forall x | 0 <= x < |ps| :: IsExact(ps[x].data)
    requires size == if i == 0 then 1 else sizes[i] + 2
    requires i > 1 ==> sizes[i] <= max
    ensures var k := Scan(ps, i, Some(size), max);
            && i <= k <= |ps| && (k > 1 ==> sizes[k] <= max)
            && (forall j | k < j <= |ps| :: sizes[j] > max)
    decreases |ps| - i
  {
    if i < |ps| {
      var counted := sizes[i + 1];
      ExactEstimate(ps[i].data);
      if i > 0 && counted > max {
        forall j | i < j <= |ps| ensures sizes[j] > max {
          SizesGrow(ps, sizes, i + 1, j);
        }
      } else {
        ScanIsLongest(ps, sizes, i + 1, counted + 2, max);
      }
    }
  }

  lemma SizesGrow(ps: seq<Packet>, sizes: seq<nat>, i: nat, j: nat)
    requires Sizes(ps, sizes) && i <= j <= |ps| && i > 0
    ensures sizes[i] <= sizes[j]
    decreases j - i
  {
    if i < j {
      SizesGrow(ps, sizes, i + 1, j);
    }
  }

  lemma ExactEstimate(d: Data)
    requires IsExact(d)
    ensures Estimate(d) == Some(SizeOf(d))
  {
    match d
    case Nothing =>
    case Str(text) => MeasuresEncoding(text);
    case Bin(size) => BinaryExactIff(size);
  }

  /** One packet more adds its type, its data and, unless it is the first, a separator. */
  lemma PayloadGrows(ps: seq<Packet>, i: nat)
    requires i < |ps|
    ensures PayloadSize(ps[..i + 1]) == (if i == 0 then 0 else PayloadSize(ps[..i]) + 1) + 1 + SizeOf(ps[i].data)
  {
    TextSize(ps[i]);
    var front := ps[..i];
    assert ps[..i + 1] == front + [ps[i]];
    if i > 0 {
      PayloadSnoc(front, ps[i]);
      BehindSeparator(Payload(front), AsText(ps[i]));
    }
  }

  lemma PayloadSnoc(ps: seq<Packet>, p: Packet)
    requires ps != []
    ensures Payload(ps + [p]) == Payload(ps) + [SEPARATOR] + AsText(p)
  {
    assert (ps + [p])[..|ps|] == ps;
  }

  lemma BehindSeparator(a: Text, b: Text)
    ensures |Encode(a + [SEPARATOR] + b)| == |Encode(a)| + 1 + |Encode(b)|
  {
    var separated := [SEPARATOR] + b;
    assert a + [SEPARATOR] + b == a + separated;
    EncodeConcat(a, separated);
    SeparatorFirst(b);
  }

  lemma SeparatorFirst(b: Text)
    ensures |Encode([SEPARATOR] + b)| == 1 + |Encode(b)|
  {
    AsciiSize([SEPARATOR]);
    EncodeConcat([SEPARATOR], b);
  }

  lemma TextSize(p: Packet)
    ensures |Encode(AsText(p))| == 1 + SizeOf(p.data)
  {
    match p.data
    case Nothing => AsciiSize([p.kind]);
    case Str(text) =>
      AsciiSize([p.kind]);
      EncodeConcat([p.kind], text);
    case Bin(size) =>
      AsciiSize(['b' as int] + Base64(size));
  }

  lemma {:induction false} AsciiSize(s: Text)
    requires forall i | 0 <= i < |s| :: s[i] < 0x80
    ensures |Encode(s)| == |s|
  {
    if s != [] {
      AsciiSize(s[1..]);
    }
  }
}
