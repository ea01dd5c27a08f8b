/**
  The encoder and the decoder of a stream of packets: a packet with binary data becomes a text frame
  followed by one frame per binary leaf, and the decoder collects them again.
 */
module Decoder {
  import opened Common
  import opened Binary
  import opened Numbers
  import opened PacketCodec

  datatype Frame = Text(text: string) | Blob(bytes: Bytes)

  // ---------- encoding ----------

  function PacketLeaves(p: Packet): seq<Bytes> {
    if p.data.Some? then Leaves(p.data.value) else []
  }

  /** The text part of a packet with binary data. */
  function Deconstructed(p: Packet): Packet {
    p.(typ := if p.typ == EVENT then BINARY_EVENT else BINARY_ACK,
       data := if p.data.Some? then Some(Strip(p.data.value, 0)) else None,
       attachments := Some(Whole(|PacketLeaves(p)|)))
  }

  predicate TravelsAsBinary(p: Packet) {
    (p.typ == EVENT || p.typ == ACK) && PacketLeaves(p) != []
  }

  function Blobs(buffers: seq<Bytes>): seq<Frame> {
    seq(|buffers|, i requires 0 <= i < |buffers| => Blob(buffers[i]))
  }

  function Frames(json: Json, p: Packet): seq<Frame> {
    if TravelsAsBinary(p) then [Text(EncodeAsString(json, Deconstructed(p)))] + Blobs(PacketLeaves(p))
    else [Text(EncodeAsString(json, p))]
  }

  function FramesOfAll(json: Json, ps: seq<Packet>): seq<Frame> {
    Concat(seq(|ps|, i requires 0 <= i < |ps| => Frames(json, ps[i])))
  }

  /** One text frame, or a text frame and the binary leaves taken out of the packet. */
  method Encode(json: Json, p: Packet) returns (frames: seq<Frame>)
    ensures frames == Frames(json, p)
  {
    if p.typ == EVENT || p.typ == ACK {
      var binary := false;
      if p.data.Some? {
        binary := HasBinary(p.data.value);
      }
      if binary {
        var list := new BufferList();
        var stripped := list.Deconstruct(p.data.value);
        var pack := p.(typ := if p.typ == EVENT then BINARY_EVENT else BINARY_ACK,
                       data := Some(stripped), attachments := Some(Whole(|list.buffers|)));
        return [Text(EncodeAsString(json, pack))] + Blobs(list.buffers);
      }
    }
    return [Text(EncodeAsString(json, p))];
  }

  // ---------- decoding ----------

  /** A packet that waits for its binary frames. */
  datatype Pending = Pending(packet: Packet, buffers: seq<Bytes>)

  datatype State = State(pending: Option<Pending>, decoded: seq<Packet>)

  function Emit(s: State, p: Packet): State {
    s.(decoded := s.decoded + [p])
  }

  /** The state after one frame, and the error it raises, if any. */
  function AfterFrame(json: Json, s: State, frame: Frame): (State, Option<Error>) {
    match frame
    case Text(text) =>
      if s.pending.Some? then (s, Some(TextWhileReconstructing))
      else
        (match Decoded(json, text)
         case Err(e) => (s, Some(e))
         case Ok(p) =>
           if IsBinaryType(p.typ) then
             var p' := p.(typ := if p.typ == BINARY_EVENT then EVENT else ACK);
             var s' := s.(pending := Some(Pending(p', [])));
             (if p.attachments == Some(Whole(0)) then Emit(s', p') else s', None)
           else (Emit(s, p), None))
    case Blob(bytes) =>
      if s.pending.None? then (s, Some(UnexpectedBinary))
      else
        var w := s.pending.value;
        var buffers := w.buffers + [bytes];
        if Some(Whole(|buffers|)) != w.packet.attachments then (s.(pending := Some(w.(buffers := buffers))), None)
        else
          match Rebuilt(w.packet, buffers)
          case None => (s.(pending := Some(w.(buffers := buffers))), Some(IllegalAttachments))
          case Some(p) => (Emit(s.(pending := None), p), None)
  }

  function Destroyed(s: State): State {
    s.(pending := None)
  }

  function Rebuilt(p: Packet, buffers: seq<Bytes>): Option<Packet> {
    if p.data.None? then Some(p.(attachments := None))
    else
      match Fill(p.data.value, buffers)
      case None => None
      case Some(v) => Some(p.(data := Some(v), attachments := None))
  }

  function Feeding(json: Json): (State, Frame) -> Option<State> {
    (s, frame) => var (s', error) := AfterFrame(json, s, frame); if error.Some? then None else Some(s')
  }

  /** Feeding a stream of frames; None as soon as one raises an error. */
  function Fed(json: Json, s: State, frames: seq<Frame>): Option<State> {
    Fold(Feeding(json), s, frames)
  }

  class BinaryReconstructor {
    var packet: Packet
    var buffers: seq<Bytes>

    constructor (packet: Packet)
      ensures this.packet == packet && buffers == []
    {
      this.packet, buffers := packet, [];
    }

    /** The outer option is the failure, the inner one tells whether the packet is complete. */
    method TakeBinaryData(bytes: Bytes) returns (r: Option<Option<Packet>>)
      modifies this`buffers
      ensures buffers == old(buffers) + [bytes]
      ensures r == if Some(Whole(|buffers|)) != packet.attachments then Some(None)
                   else match Rebuilt(packet, buffers) case None => None case Some(p) => Some(Some(p))
    {
      buffers := buffers + [bytes];
      if Some(Whole(|buffers|)) != packet.attachments {
        return Some(None);
      }
      if packet.data.None? {
        return Some(Some(packet.(attachments := None)));
      }
      var v := Reconstruct(packet.data.value, buffers);
      if v.None? {
        return None;
      }
      return Some(Some(packet.(data := v, attachments := None)));
    }
  }

  class PacketDecoder {
    const json: Json
    var reconstructor: BinaryReconstructor?
    /** The packets emitted so far. */
    var decoded: seq<Packet>

    ghost function Abs(): State
      reads this, reconstructor
    {
      State(if reconstructor == null then None else Some(Pending(reconstructor.packet, reconstructor.buffers)),
            decoded)
    }

    constructor (json: Json)
      ensures this.json == json && Abs() == State(None, [])
    {
      this.json := json;
      reconstructor, decoded := null, [];
    }

    method Add(frame: Frame) returns (error: Option<Error>)
      modifies this, reconstructor
      ensures (Abs(), error) == AfterFrame(json, old(Abs()), frame)
    {
      match frame
      case Text(text) =>
        if reconstructor != null {
          return Some(TextWhileReconstructing);
        }
        var packet := DecodeString(json, text);
        if packet.Err? {
          return Some(packet.error);
        }
        var p := packet.value;
        if IsBinaryType(p.typ) {
          p := p.(typ := if p.typ == BINARY_EVENT then EVENT else ACK);
          reconstructor := new BinaryReconstructor(p);
          if p.attachments == Some(Whole(0)) {
            decoded := decoded + [p];
          }
        } else {
          decoded := decoded + [p];
        }
        return None;
      case Blob(bytes) =>
        if reconstructor == null {
          return Some(UnexpectedBinary);
        }
        var r := reconstructor.TakeBinaryData(bytes);
        if r.None? {
          return Some(IllegalAttachments);
        }
        if r.value.Some? {
          reconstructor := null;
          decoded := decoded + [r.value.value];
        }
        return None;
    }

    /** Gives up the packet under reconstruction. */
    method Destroy()
      modifies this
      ensures Abs() == Destroyed(old(Abs()))
    {
      reconstructor := null;
    }
  }

  // ---------- the stream results ----------

  /** What the encoder may be given: a packet whose text part is encodable and has a clean namespace. */
  ghost predicate Sendable(json: Json, p: Packet) {
    && !IsBinaryType(p.typ) && CleanNsp(p.nsp)
    && Encodable(json, if TravelsAsBinary(p) then Deconstructed(p) else p)
    && (p.attachments == None)
  }

  /** Nothing in a binary packet that only looks like a placeholder, and no field that cannot be assigned. */
  predicate Unambiguous(p: Packet) {
    TravelsAsBinary(p) ==> IsPlain(p.data.value)
  }

  /** One packet through encoder and decoder: it comes out unchanged, and nothing is left pending, iff unambiguous. */
  lemma PacketRoundTripIff(json: Json, p: Packet, out: seq<Packet>)
    requires Faithful(json) && Sendable(json, p)
    ensures Fed(json, State(None, out), Frames(json, p)) == Some(State(None, out + [p])) <==> Unambiguous(p)
  {
    if TravelsAsBinary(p) {
      HeaderRoundTripIff(json, Deconstructed(p));
      BinaryPacketRoundTripIff(json, p, EncodeAsString(json, Deconstructed(p)), out);
    } else {
      HeaderRoundTripIff(json, p);
      FedOne(json, State(None, out), Text(EncodeAsString(json, p)));
    }
  }

  lemma FedOne(json: Json, s: State, frame: Frame)
    ensures Fed(json, s, [frame]) ==
            var (s', error) := AfterFrame(json, s, frame); if error.Some? then None else Some(s')
  {
    var (s', error) := AfterFrame(json, s, frame);
    var frames := [frame];
    assert frames[0] == frame && frames[1..] == [];
    assert Fed(json, s', frames[1..]) == Some(s');
    assert Fed(json, s, frames) == if error.Some? then None else Fed(json, s', frames[1..]);
  }

  lemma BinaryPacketRoundTripIff(json: Json, p: Packet, text: string, out: seq<Packet>)
    requires TravelsAsBinary(p) && p.attachments == None && Decoded(json, text) == Ok(Deconstructed(p))
    ensures Fed(json, State(None, out), [Text(text)] + Blobs(PacketLeaves(p))) == Some(State(None, out + [p]))
            <==> IsPlain(p.data.value)
  {
    var buffers := PacketLeaves(p);
    var s := State(Some(Pending(Deconstructed(p).(typ := p.typ), [])), out);
    assert AfterFrame(json, State(None, out), Text(text)) == (s, None);
    assert ([Text(text)] + Blobs(buffers))[1..] == Blobs(buffers[0..]);
    FeedBlobs(json, s, buffers, 0);
    FillUndoesStripIff(p.data.value, 0, buffers);
    var rebuilt := Rebuilt(s.pending.value.packet, buffers);
    assert rebuilt == Some(p) <==> IsPlain(p.data.value);
    assert rebuilt.Some? ==> (out + [rebuilt.value])[|out|] == rebuilt.value && (out + [p])[|out|] == p;
  }

  /** Feeding the rest of the buffers to a waiting packet completes it with all of them. */
  lemma {:induction false} FeedBlobs(json: Json, s: State, buffers: seq<Bytes>, k: nat)
    requires k < |buffers| && s.pending.Some? && s.pending.value.buffers == buffers[..k]
    requires s.pending.value.packet.attachments == Some(Whole(|buffers|))
    ensures Fed(json, s, Blobs(buffers[k..])) ==
            match Rebuilt(s.pending.value.packet, buffers)
            case None => None
            case Some(p) => Some(State(None, s.decoded + [p]))
    decreases |buffers| - k
  {
    var frames := Blobs(buffers[k..]);
    var (s', error) := AfterFrame(json, s, frames[0]);
    assert buffers[..k] + [buffers[k]] == buffers[..k + 1];
    assert frames[1..] == Blobs(buffers[k + 1..]);
    assert Fed(json, s, frames) == if error.Some? then None else Fed(json, s', frames[1..]);
    if k + 1 < |buffers| {
      FeedBlobs(json, s', buffers, k + 1);
    } else {
      assert buffers[..k + 1] == buffers;
    }
  }

  /** The decoder inverts the encoder on streams: every packet comes out, in order, and nothing is left pending. */
  lemma StreamRoundTrip(json: Json, ps: seq<Packet>, out: seq<Packet>)
    requires Faithful(json) && forall p | p in ps :: Sendable(json, p) && Unambiguous(p)
    ensures Fed(json, State(None, out), FramesOfAll(json, ps)) == Some(State(None, out + ps))
  {
    var parts := seq(|ps|, i requires 0 <= i < |ps| => Frames(json, ps[i]));
    forall i | 0 <= i < |ps| ensures Passes(Feeding(json), parts[i], ps[i]) {
      forall out' ensures Fed(json, State(None, out'), Frames(json, ps[i])) == Some(State(None, out' + [ps[i]])) {
        PacketRoundTripIff(json, ps[i], out');
      }
    }
    AllPass(Feeding(json), parts, ps, out);
  }

  /** These frames, fed to an idle decoder, make it emit this packet and nothing else. */
  ghost predicate Passes(step: (State, Frame) -> Option<State>, frames: seq<Frame>, p: Packet) {
    forall out :: Fold(step, State(None, out), frames) == Some(State(None, out + [p]))
  }

  lemma {:induction false} AllPass(step: (State, Frame) -> Option<State>, parts: seq<seq<Frame>>, ps: seq<Packet>,
                                   out: seq<Packet>)
    requires |parts| == |ps| && forall i | 0 <= i < |ps| :: Passes(step, parts[i], ps[i])
    ensures Fold(step, State(None, out), Concat(parts)) == Some(State(None, out + ps))
    decreases |ps|
  {
    if ps == [] {
      assert out + ps == out;
    } else {
      assert Passes(step, parts[0], ps[0]);
      FoldConcat(step, State(None, out), parts[0], Concat(parts[1..]));
      AllPass(step, parts[1..], ps[1..], out + [ps[0]]);
      assert out + [ps[0]] + ps[1..] == out + ps;
    }
  }

  /**
    Frames have their turn: an idle decoder refuses binary frames and stays as it is after any refusal, a waiting one
    refuses text; a binary frame that is not the last one announced is kept, and the last one is refused only for an
    illegal placeholder.
   */
  lemma FramesHaveTheirTurn(json: Json, s: State, frame: Frame)
    ensures var (s', error) := AfterFrame(json, s, frame);
            && (s.pending.None? && frame.Blob? ==> s' == s && error == Some(UnexpectedBinary))
            && (s.pending.None? && frame.Text? ==>
                  if Decoded(json, frame.text).Err? then s' == s && error == Some(Decoded(json, frame.text).error)
                  else error == None)
            && (s.pending.Some? && frame.Text? ==> s' == s && error == Some(TextWhileReconstructing))
            && (s.pending.Some? && frame.Blob? ==>
                  var w, count := s.pending.value, |s.pending.value.buffers| + 1;
                  if w.packet.attachments != Some(Whole(count))
                  then error == None && s' == s.(pending := Some(Pending(w.packet, w.buffers + [frame.bytes])))
                  else error == None <==> s'.pending.None? && |s'.decoded| == |s.decoded| + 1)
            && (error.Some? ==> s'.decoded == s.decoded)
  {
  }

  // ---------- decoders that never recover ----------

  /** Feeding frames whatever errors they raise. */
  function FedAnyway(json: Json, s: State, frames: seq<Frame>): State
    decreases |frames|
  {
    if frames == [] then s
    else
      var last := |frames| - 1;
      AfterFrame(json, FedAnyway(json, s, frames[..last]), frames[last]).0
  }

  /** No frames at all make the decoder emit anything more. */
  ghost predicate SilentForever(json: Json, s: State) {
    forall frames :: FedAnyway(json, s, frames).decoded == s.decoded
  }

  /** The packet under reconstruction has all its buffers already, or cannot be rebuilt from any. */
  ghost predicate Doomed(s: State) {
    s.pending.Some? &&
    var n, w := s.pending.value.packet.attachments, s.pending.value;
    || n.None? || n.value.NotWhole? || n.value.n <= |w.buffers|
    || forall buffers: seq<Bytes> | |buffers| == n.value.n :: Rebuilt(w.packet, buffers) == None
  }

  /** A doomed decoder stays as it is: it emits nothing, whatever arrives, and refuses every text frame. */
  lemma {:induction false} DoomedIsSilent(json: Json, s: State, frames: seq<Frame>)
    requires Doomed(s)
    ensures var s' := FedAnyway(json, s, frames);
            && Doomed(s') && s'.decoded == s.decoded
            && forall text :: AfterFrame(json, s', Text(text)) == (s', Some(TextWhileReconstructing))
    decreases |frames|
  {
    if frames != [] {
      DoomedIsSilent(json, s, frames[..|frames| - 1]);
    }
  }

  /**
    A text frame leaves an idle decoder silent for ever if and only if it is a binary packet that announces no
    attachments, a number of them that no count of buffers equals, or fewer than its placeholders need.
   */
  lemma SilentForeverIff(json: Json, s: State, text: string)
    requires s.pending.None?
    ensures SilentForever(json, AfterFrame(json, s, Text(text)).0) <==>
            Decoded(json, text).Ok? && NeverRebuilt(Decoded(json, text).value)
  {
    var d := Decoded(json, text);
    if d.Ok? && NeverRebuilt(d.value) {
      NeverRebuiltIsDoomed(json, s, text);
      DoomedIsSilentForever(json, AfterFrame(json, s, Text(text)).0);
    } else if d.Ok? && IsBinaryType(d.value.typ) {
      CompletedBinary(json, s, text);
    } else {
      TextOne(json, AfterFrame(json, s, Text(text)).0);
    }
  }

  lemma DoomedIsSilentForever(json: Json, s: State)
    requires Doomed(s)
    ensures SilentForever(json, s)
  {
    forall frames ensures FedAnyway(json, s, frames).decoded == s.decoded {
      DoomedIsSilent(json, s, frames);
    }
  }

  /** A binary packet that some buffers complete. */
  lemma CompletedBinary(json: Json, s: State, text: string)
    requires s.pending.None? && Decoded(json, text).Ok?
    requires IsBinaryType(Decoded(json, text).value.typ) && !NeverRebuilt(Decoded(json, text).value)
    ensures !SilentForever(json, AfterFrame(json, s, Text(text)).0)
  {
    BinaryTextWaits(json, s, text);
    DecodedHasCount(json, text);
    WaitingIsCompleted(json, AfterFrame(json, s, Text(text)).0, Decoded(json, text).value);
  }

  lemma WaitingIsCompleted(json: Json, s: State, p: Packet)
    requires s.pending == Some(Waiting(p)) && IsBinaryType(p.typ) && p.attachments.Some? && !NeverRebuilt(p)
    ensures !SilentForever(json, s)
  {
    var buffers := Blanks(p.attachments.value.n);
    RebuiltNeedsCount(p, Waiting(p).packet, buffers, buffers);
    BlobsComplete(json, s, buffers, |buffers|);
  }

  /** A binary packet that no buffers complete: none are to come, no count is right, or a placeholder has no buffer. */
  predicate NeverRebuilt(p: Packet) {
    IsBinaryType(p.typ) && p.attachments.Some? &&
    (p.attachments.value in {NotWhole, Whole(0)} || Rebuilt(p, Blanks(p.attachments.value.n)) == None)
  }

  function Blanks(n: nat): (buffers: seq<Bytes>)
    ensures |buffers| == n
  {
    seq(n, _ => [])
  }

  lemma NeverRebuiltIsDoomed(json: Json, s: State, text: string)
    requires s.pending.None? && Decoded(json, text).Ok? && NeverRebuilt(Decoded(json, text).value)
    ensures Doomed(AfterFrame(json, s, Text(text)).0)
  {
    BinaryTextWaits(json, s, text);
    WaitingIsDoomed(AfterFrame(json, s, Text(text)).0, Decoded(json, text).value);
  }

  /** A binary packet waits under the type it gets when it is complete. */
  function Waiting(p: Packet): Pending {
    Pending(p.(typ := if p.typ == BINARY_EVENT then EVENT else ACK), [])
  }

  lemma BinaryTextWaits(json: Json, s: State, text: string)
    requires s.pending.None? && Decoded(json, text).Ok? && IsBinaryType(Decoded(json, text).value.typ)
    ensures AfterFrame(json, s, Text(text)).0.pending == Some(Waiting(Decoded(json, text).value))
  {
  }

  lemma WaitingIsDoomed(s: State, p: Packet)
    requires s.pending == Some(Waiting(p)) && NeverRebuilt(p)
    ensures Doomed(s)
  {
    if p.attachments.value !in {NotWhole, Whole(0)} {
      var n := p.attachments.value.n;
      forall buffers: seq<Bytes> | |buffers| == n ensures Rebuilt(Waiting(p).packet, buffers) == None {
        RebuiltNeedsCount(p, Waiting(p).packet, Blanks(n), buffers);
      }
    }
  }

  lemma RebuiltNeedsCount(p: Packet, q: Packet, a: seq<Bytes>, b: seq<Bytes>)
    requires p.data == q.data && |a| == |b|
    ensures Rebuilt(p, a).Some? <==> Rebuilt(q, b).Some?
  {
    if p.data.Some? {
      FillNeedsCount(p.data.value, a, b);
    }
  }

  lemma DecodedHasCount(json: Json, text: string)
    requires Decoded(json, text).Ok? && IsBinaryType(Decoded(json, text).value.typ)
    ensures Decoded(json, text).value.attachments.Some?
  {
  }

  /** The announced buffers arrive one after the other, and the last of them completes the packet. */
  lemma {:induction false} BlobsComplete(json: Json, s: State, buffers: seq<Bytes>, k: nat)
    requires s.pending.Some? && s.pending.value.buffers == []
    requires s.pending.value.packet.attachments == Some(Whole(|buffers|))
    requires Rebuilt(s.pending.value.packet, buffers).Some? && 0 < |buffers| && k <= |buffers|
    ensures var s' := FedAnyway(json, s, Blobs(buffers[..k]));
            if k < |buffers| then s' == s.(pending := Some(s.pending.value.(buffers := buffers[..k])))
            else s'.decoded != s.decoded
  {
    var frames := Blobs(buffers[..k]);
    if k > 0 {
      BlobsComplete(json, s, buffers, k - 1);
      assert frames[..k - 1] == Blobs(buffers[..k - 1]) && frames[k - 1] == Blob(buffers[k - 1]);
      assert buffers[..k - 1] + [buffers[k - 1]] == buffers[..k];
      assert k == |buffers| ==> buffers[..k] == buffers;
    }
  }

  /** The shortest packet there is makes any idle decoder emit. */
  lemma TextOne(json: Json, s: State)
    requires s.pending.None?
    ensures FedAnyway(json, s, [Text("1")]).decoded != s.decoded
  {
    var frames := [Text("1")];
    assert frames[..0] == [];
    assert Decoded(json, "1") == Ok(Packet(DISCONNECT, "/", NoId, None, None));
  }

  /** Only destroying the decoder, as the manager does when it closes, ends its silence. */
  lemma DestroyEndsSilence(json: Json, s: State, frames: seq<Frame>)
    requires Doomed(s)
    ensures FedAnyway(json, s, frames).decoded == s.decoded
    ensures !SilentForever(json, Destroyed(FedAnyway(json, s, frames)))
  {
    DoomedIsSilent(json, s, frames);
    TextOne(json, Destroyed(FedAnyway(json, s, frames)));
  }

  /** Whether all placeholders find a buffer depends on the number of buffers only. */
  lemma {:induction false} FillNeedsCount(v: Value, a: seq<Bytes>, b: seq<Bytes>)
    requires |a| == |b|
    ensures Fill(v, a).Some? <==> Fill(v, b).Some?
    decreases v, 0
  {
    if !IsPlaceholder(v) {
      match v
      case Arr(items) => FillUpToNeedsCount(items, |items|, a, b);
      case Obj(_, vals) => FillUpToNeedsCount(vals, |vals|, a, b);
      case _ =>
    }
  }

  lemma {:induction false} FillUpToNeedsCount(vs: seq<Value>, k: nat, a: seq<Bytes>, b: seq<Bytes>)
    requires |a| == |b| && k <= |vs|
    ensures FillUpTo(vs, k, a).Some? <==> FillUpTo(vs, k, b).Some?
    decreases vs, k
  {
    if k > 0 {
      FillUpToNeedsCount(vs, k - 1, a, b);
      FillNeedsCount(vs[k - 1], a, b);
    }
  }

  /**
    A text frame that announces binary data but no attachments is emitted at once, yet leaves the decoder waiting
    for ever: nothing that follows is emitted, and every later text frame is refused.
   */
  lemma ZeroAttachmentsWedge(json: Json, s: State, text: string, later: seq<Frame>)
    requires s.pending.None? && Decoded(json, text).Ok?
    requires IsBinaryType(Decoded(json, text).value.typ) && Decoded(json, text).value.attachments == Some(Whole(0))
    ensures var (s', error) := AfterFrame(json, s, Text(text));
            && error == None && |s'.decoded| == |s.decoded| + 1
            && FedAnyway(json, s', later).decoded == s'.decoded
            && forall next ::
                 AfterFrame(json, FedAnyway(json, s', later), Text(next)).1 == Some(TextWhileReconstructing)
  {
    NeverRebuiltIsDoomed(json, s, text);
    DoomedIsSilent(json, AfterFrame(json, s, Text(text)).0, later);
  }

  /** Such a text exists under every codec that prints some list with elements. */
  lemma ZeroAttachmentsText(json: Json, v: Value)
    requires Faithful(json) && json.printable(v) && v.Arr? && v.items != []
    ensures Decoded(json, "50-" + json.stringify(v)) == Ok(Packet(BINARY_EVENT, "/", NoId, Some(v), Some(Whole(0))))
  {
    var p := Packet(BINARY_EVENT, "/", NoId, Some(v), Some(Whole(0)));
    HeaderRoundTripIff(json, p);
    TextOfZeroAttachments(json, v);
  }

  lemma TextOfZeroAttachments(json: Json, v: Value)
    requires v.Arr?
    ensures EncodeAsString(json, Packet(BINARY_EVENT, "/", NoId, Some(v), Some(Whole(0)))) == "50-" + json.stringify(v)
  {
    var p := Packet(BINARY_EVENT, "/", NoId, Some(v), Some(Whole(0)));
    assert PrintNat(0) == "0" && PrintAttachments(p) == "0-" && PrintNsp("/") == "" && PrintId(NoId) == "";
    assert ['5'] + "0-" == "50-";
  }

  /** A count with a fraction is accepted, and no number of buffers equals it. */
  lemma FractionSilences(json: Json, s: State, v: Value)
    requires s.pending.None? && Faithful(json) && json.printable(v) && v.Arr? && v.items != []
    ensures SilentForever(json, AfterFrame(json, s, Text("51.5-" + json.stringify(v))).0)
    ensures SilentForever(json, AfterFrame(json, s, Text("5Infinity-" + json.stringify(v))).0)
  {
    AcceptedButNotWhole();
    StrangeCount(json, s, "1.5", v);
    StrangeCount(json, s, "Infinity", v);
    Spelled();
  }

  lemma Spelled()
    ensures "5" + "1.5" + "-" == "51.5-" && "5" + "Infinity" + "-" == "5Infinity-"
  {
  }

  lemma StrangeCount(json: Json, s: State, count: string, v: Value)
    requires s.pending.None? && Faithful(json) && json.printable(v) && v.Arr? && v.items != []
    requires '-' !in count && ToNumber(count) == Some(NotWhole)
    ensures SilentForever(json, AfterFrame(json, s, Text("5" + count + "-" + json.stringify(v))).0)
  {
    var text := "5" + count + "-" + json.stringify(v);
    BinaryText(json, count, json.stringify(v));
    DataAlone(json, v);
    SilentForeverIff(json, s, text);
  }

  /** A payload without anything before it. */
  lemma DataAlone(json: Json, v: Value)
    requires Faithful(json) && json.printable(v) && v.Arr? && v.items != []
    ensures ParseRest(json, BINARY_EVENT, Some(NotWhole), json.stringify(v)) ==
            Ok(Packet(BINARY_EVENT, "/", NoId, Some(v), Some(NotWhole)))
  {
  }

  /** A codec for one list, and the text that stops the decoder under it. */
  lemma ZeroAttachmentsExample()
    ensures var json := Json(v => v == Arr([Null]), _ => "[null]",
                             s => if s == "[null]" then Some(Arr([Null])) else None);
            Faithful(json) && SilentForever(json, AfterFrame(json, State(None, []), Text("50-[null]")).0)
  {
    var json := Json(v => v == Arr([Null]), _ => "[null]", s => if s == "[null]" then Some(Arr([Null])) else None);
    assert "50-" + "[null]" == "50-[null]";
    ZeroAttachmentsText(json, Arr([Null]));
    SilentForeverIff(json, State(None, []), "50-[null]");
  }
}
