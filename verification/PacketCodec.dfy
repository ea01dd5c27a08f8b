/**
  The text form of a packet: type, attachment count, namespace, acknowledgement id and JSON payload, one
  after the other without lengths. JSON itself is a parameter.
 */
module PacketCodec {
  import opened Common
  import opened Binary
  import opened Numbers

  datatype PacketType = CONNECT | DISCONNECT | EVENT | ACK | CONNECT_ERROR | BINARY_EVENT | BINARY_ACK

  const TYPES: seq<PacketType> := [CONNECT, DISCONNECT, EVENT, ACK, CONNECT_ERROR, BINARY_EVENT, BINARY_ACK]

  datatype Ident = NoId | Id(n: nat) | NotANumber | Infinite

  datatype Packet =
    Packet(typ: PacketType, nsp: string, id: Ident, data: Option<Value>, attachments: Option<Number>)

  datatype Error =
    | UnknownType
    | IllegalAttachments
    | InvalidPayload
    | TextWhileReconstructing
    | UnexpectedBinary

  datatype Result<T> = Ok(value: T) | Err(error: Error)

  /** A JSON printer and parser; the printer handles the printable values. */
  datatype Json = Json(printable: Value -> bool, stringify: Value -> string, parse: string -> Option<Value>)

  /**
    Printable values are read back, and the text of a container or string starts with its bracket or quote. A date
    is printed as a string and therefore not among them, and undefined is not printed at all.
   */
  ghost predicate Faithful(json: Json) {
    forall v | json.printable(v) ::
      && !v.Date? && !v.Undefined?
      && json.parse(json.stringify(v)) == Some(v)
      && json.stringify(v) != ""
      && (v.Arr? ==> json.stringify(v)[0] == '[')
      && (v.Obj? ==> json.stringify(v)[0] == '{')
      && (v.Str? ==> json.stringify(v)[0] == '"')
  }

  // ---------- numbers as text ----------

  /** One-character texts that are loosely equal to the number they convert to. */
  predicate IsNumeric(c: char) { IsDigit(c) || IsSpace(c) }

  // ---------- printing ----------

  predicate IsBinaryType(t: PacketType) { t == BINARY_EVENT || t == BINARY_ACK }

  function Code(t: PacketType): char {
    match t
    case CONNECT => '0'
    case DISCONNECT => '1'
    case EVENT => '2'
    case ACK => '3'
    case CONNECT_ERROR => '4'
    case BINARY_EVENT => '5'
    case BINARY_ACK => '6'
  }

  /** Only whole numbers are counted. */
  function PrintCount(count: Option<Number>): string {
    if count.Some? && count.value.Whole? then PrintNat(count.value.n) else "undefined"
  }

  function PrintAttachments(p: Packet): string {
    if IsBinaryType(p.typ) then PrintCount(p.attachments) + "-" else ""
  }

  function PrintNsp(nsp: string): string {
    if nsp != "" && nsp != "/" then nsp + "," else ""
  }

  function PrintId(id: Ident): string {
    match id case NoId => "" case Id(n) => PrintNat(n) case NotANumber => "NaN" case Infinite => "Infinity"
  }

  function PrintData(json: Json, data: Option<Value>): string {
    if data.Some? && data.value != Null then json.stringify(data.value) else ""
  }

  function EncodeAsString(json: Json, p: Packet): string {
    [Code(p.typ)] + (PrintAttachments(p) + (PrintNsp(p.nsp) + (PrintId(p.id) + PrintData(json, p.data))))
  }

  // ---------- parsing: what each part of the text means ----------

  /** The position of the first c; the length of the text when there is none. */
  function ScanTo(s: string, c: char): (i: nat)
    ensures i <= |s|
  {
    if s == "" || s[0] == c then 0 else 1 + ScanTo(s[1..], c)
  }

  /** The number of characters at the start of the text that look like numbers. */
  function ScanNumeric(s: string): (i: nat)
    ensures i <= |s|
  {
    if s == "" || !IsNumeric(s[0]) then 0 else 1 + ScanNumeric(s[1..])
  }

  /** The empty text and white space convert to zero, the code of CONNECT. */
  function ParseType(s: string): Option<PacketType> {
    if s == "" || IsSpace(s[0]) then Some(CONNECT)
    else if '0' <= s[0] <= '6' then Some(TYPES[(s[0] - '0') as nat])
    else None
  }

  predicate IsPayloadValid(t: PacketType, v: Value) {
    match t
    case CONNECT => v.Obj? || v.Arr? || v.Date? || v.Null?
    case DISCONNECT => false
    case CONNECT_ERROR => v.Str? || v.Obj? || v.Arr? || v.Date? || v.Null?
    case EVENT => v.Arr? && v.items != []
    case BINARY_EVENT => v.Arr? && v.items != []
    case ACK => v.Arr?
    case BINARY_ACK => v.Arr?
  }

  /** The text from a position that may lie behind its end. */
  function From(s: string, i: nat): string {
    if i <= |s| then s[i..] else ""
  }

  /** The text before the first c, and what is behind it if there is one. */
  function Cut(s: string, c: char): (string, Option<string>) {
    var i := ScanTo(s, c);
    (s[..i], if i == |s| then None else Some(s[i + 1..]))
  }

  /** The number before the dash, which need not be one that can be reached by counting. */
  function ParseAttachments(s: string): Option<(Number, string)> {
    match Cut(s, '-') case (_, None) => None case (count, Some(rest)) => Attached(ToNumber(count), rest)
  }

  function Attached(n: Option<Number>, rest: string): Option<(Number, string)> {
    if n.Some? then Some((n.value, rest)) else None
  }

  function ParseNsp(s: string): (string, string) {
    if s != "" && s[0] == '/' then
      var (nsp, rest) := Cut(s, ',');
      (nsp, if rest.Some? then rest.value else "")
    else ("/", s)
  }

  /** Digits that are no natural number stand for one that is too large. */
  function ToIdent(x: Option<Number>): Ident {
    match x case None => NotANumber case Some(Whole(n)) => Id(n) case Some(NotWhole) => Infinite
  }

  /** The characters at the start that look like numbers, and the rest. */
  function CutNumeric(s: string): (string, string) {
    (s[..ScanNumeric(s)], s[ScanNumeric(s)..])
  }

  function ToId(digits: string): Ident {
    if digits == "" then NoId else ToIdent(ToNumber(digits))
  }

  function ParseData(json: Json, t: PacketType, s: string): Result<Option<Value>> {
    if s == "" then Ok(None)
    else
      match json.parse(s)
      case None => Err(InvalidPayload)
      case Some(v) => if IsPayloadValid(t, v) then Ok(Some(v)) else Err(InvalidPayload)
  }

  /** Namespace, digits of the id, and payload. */
  datatype Parts = Parts(nsp: string, digits: string, payload: string)

  function Split(s: string): Parts {
    var (nsp, s') := ParseNsp(s);
    var (digits, payload) := CutNumeric(s');
    Parts(nsp, digits, payload)
  }

  function ParseRest(json: Json, t: PacketType, attachments: Option<Number>, s: string): Result<Packet> {
    Assembled(json, t, attachments, Split(s))
  }

  function Assembled(json: Json, t: PacketType, attachments: Option<Number>, parts: Parts): Result<Packet> {
    WithData(Packet(t, parts.nsp, ToId(parts.digits), None, attachments), ParseData(json, t, parts.payload))
  }

  function WithData(p: Packet, data: Result<Option<Value>>): Result<Packet> {
    match data case Err(e) => Err(e) case Ok(d) => Ok(p.(data := d))
  }

  function DecodedBinary(json: Json, t: PacketType, s: string): Result<Packet> {
    match ParseAttachments(s)
    case None => Err(IllegalAttachments)
    case Some((n, rest)) => ParseRest(json, t, Some(n), rest)
  }

  function Decoded(json: Json, s: string): Result<Packet> {
    match ParseType(s)
    case None => Err(UnknownType)
    case Some(t) => if IsBinaryType(t) then DecodedBinary(json, t, From(s, 1)) else ParseRest(json, t, None, From(s, 1))
  }

  // ---------- parsing: the code, with one cursor ----------

  method DecodeString(json: Json, str: string) returns (r: Result<Packet>)
    ensures r == Decoded(json, str)
  {
    var typ := ParseType(str);
    if typ.None? {
      return Err(UnknownType);
    }
    if IsBinaryType(typ.value) {
      r := ReadBinary(json, typ.value, str);
    } else {
      r := ReadRest(json, typ.value, None, str, 0);
    }
  }

  method ReadBinary(json: Json, t: PacketType, str: string) returns (r: Result<Packet>)
    requires str != ""
    ensures r == DecodedBinary(json, t, From(str, 1))
  {
    var i, attachments := ReadAttachments(str, 0);
    if attachments.None? {
      return Err(IllegalAttachments);
    }
    r := ReadRest(json, t, attachments, str, i);
  }

  method ReadRest(json: Json, t: PacketType, attachments: Option<Number>, str: string, start: nat)
    returns (r: Result<Packet>)
    ensures r == ParseRest(json, t, attachments, From(str, start + 1))
  {
    var i, parts := ReadParts(str, start);
    r := ReadPacket(json, t, attachments, parts);
  }

  method ReadParts(str: string, start: nat) returns (i: nat, parts: Parts)
    ensures parts == Split(From(str, start + 1)) && parts.payload == From(str, i)
  {
    var nsp, digits;
    i, nsp := ReadNsp(str, start);
    i, digits := ReadId(str, i);
    i := i + 1;
    parts := Parts(nsp, digits, if i < |str| then str[i..] else "");
  }

  method ReadPacket(json: Json, t: PacketType, attachments: Option<Number>, parts: Parts) returns (r: Result<Packet>)
    ensures r == Assembled(json, t, attachments, parts)
  {
    var p := Packet(t, parts.nsp, ToId(parts.digits), None, attachments);
    if parts.payload == "" {
      return Ok(p);
    }
    var payload := json.parse(parts.payload);
    if payload.Some? && IsPayloadValid(t, payload.value) {
      return Ok(p.(data := payload));
    }
    return Err(InvalidPayload);
  }

  /** The cursor stands on the last character read, or behind the end of the text. */
  method ReadAttachments(str: string, i: nat) returns (i': nat, n: Option<Number>)
    requires i < |str|
    ensures ParseAttachments(From(str, i + 1)) == Attached(n, From(str, i' + 1))
  {
    i' := SkipTo(str, i + 1, '-');
    n := if i' == |str| then None else ToNumber(str[i + 1..i']);
    CutAt(str, i + 1, i', '-');
  }

  method ReadNsp(str: string, i: nat) returns (i': nat, nsp: string)
    ensures ParseNsp(From(str, i + 1)) == (nsp, From(str, i' + 1))
  {
    i', nsp := i, "/";
    if i + 1 < |str| && str[i + 1] == '/' {
      i' := SkipTo(str, i + 1, ',');
      nsp := str[i + 1..i'];
      NspAt(str, i + 1, i');
    }
  }

  lemma NspAt(str: string, start: nat, i: nat)
    requires start <= i <= |str| && i == start + ScanTo(str[start..], ',')
    requires start < |str| && str[start] == '/'
    ensures ParseNsp(From(str, start)) == (str[start..i], From(str, i + 1))
  {
    CutAt(str, start, i, ',');
    assert From(str, start)[0] == '/';
  }

  lemma CutAt(str: string, start: nat, i: nat, c: char)
    requires start <= i <= |str| && i == start + ScanTo(str[start..], c)
    ensures Cut(From(str, start), c) == (str[start..i], if i == |str| then None else Some(From(str, i + 1)))
  {
    var rest := str[start..];
    assert rest[..i - start] == str[start..i];
    if i < |str| { assert rest[i - start + 1..] == str[i + 1..]; }
  }

  method ReadId(str: string, i: nat) returns (i': nat, digits: string)
    ensures CutNumeric(From(str, i + 1)) == (digits, From(str, i' + 1))
  {
    i', digits := i, "";
    if i + 1 < |str| && IsNumeric(str[i + 1]) {
      var end := SkipNumeric(str, i + 1);
      i', digits := end - 1, str[i + 1..end];
      ghost var rest := str[i + 1..];
      assert rest[..end - i - 1] == str[i + 1..end] && rest[end - i - 1..] == str[end..];
    }
  }

  method SkipTo(str: string, start: nat, c: char) returns (i: nat)
    requires start <= |str|
    ensures start <= i <= |str| && i == start + ScanTo(str[start..], c)
  {
    i := start;
    while i != |str| && str[i] != c
      invariant start <= i <= |str|
      invariant start + ScanTo(str[start..], c) == i + ScanTo(str[i..], c)
    {
      assert str[i..][1..] == str[i + 1..];
      i := i + 1;
    }
  }

  method SkipNumeric(str: string, start: nat) returns (i: nat)
    requires start <= |str|
    ensures start <= i <= |str| && i == start + ScanNumeric(str[start..])
  {
    i := start;
    while i != |str| && IsNumeric(str[i])
      invariant start <= i <= |str|
      invariant start + ScanNumeric(str[start..]) == i + ScanNumeric(str[i..])
    {
      assert str[i..][1..] == str[i + 1..];
      i := i + 1;
    }
  }

  // ---------- the round trip ----------

  lemma {:induction false} ScanToFinds(a: string, c: char, b: string)
    requires c !in a
    ensures ScanTo(a + [c] + b, c) == |a|
  {
    if a != "" {
      assert (a + [c] + b)[1..] == a[1..] + [c] + b;
      ScanToFinds(a[1..], c, b);
    }
  }

  lemma CutFinds(a: string, c: char, b: string)
    requires c !in a
    ensures Cut(a + [c] + b, c) == (a, Some(b))
  {
    ScanToFinds(a, c, b);
    assert (a + [c] + b)[..|a|] == a && (a + [c] + b)[|a| + 1..] == b;
  }

  lemma {:induction false} ScanToStops(s: string, c: char)
    ensures c !in s[..ScanTo(s, c)]
  {
    if s != "" && s[0] != c {
      ScanToStops(s[1..], c);
      assert s[..ScanTo(s, c)] == [s[0]] + s[1..][..ScanTo(s[1..], c)];
    }
  }

  /** Packets that can be written: counts go with binary types, numbers are safe, payloads are containers or text. */
  ghost predicate Writable(json: Json, p: Packet) {
    && (p.id.NoId? || (p.id.Id? && p.id.n <= MAX_SAFE))
    && (p.attachments.Some? <==> IsBinaryType(p.typ))
    && (p.attachments.Some? ==> p.attachments.value.Whole? && p.attachments.value.n <= MAX_SAFE)
    && (p.data.Some? ==> json.printable(p.data.value) && (p.data.value.Str? || p.data.value.Arr? || p.data.value.Obj?))
  }

  /** Packets the protocol allows: their payload also fits the type. */
  ghost predicate Encodable(json: Json, p: Packet) {
    && Writable(json, p)
    && (p.data.Some? ==> IsPayloadValid(p.typ, p.data.value))
  }

  /** Namespaces start with a slash and have no comma. */
  predicate CleanNsp(nsp: string) {
    nsp != "" && nsp[0] == '/' && ',' !in nsp
  }

  /** A packet is read back unchanged exactly when its namespace starts with a slash and has no comma. */
  lemma HeaderRoundTripIff(json: Json, p: Packet)
    requires Faithful(json) && Encodable(json, p)
    ensures Decoded(json, EncodeAsString(json, p)) == Ok(p) <==> CleanNsp(p.nsp)
  {
    TextIsReread(json, p);
  }

  /** A packet with a clean namespace is read back, or refused, according to what its payload is. */
  lemma PayloadDecides(json: Json, p: Packet)
    requires Faithful(json) && Writable(json, p) && CleanNsp(p.nsp)
    ensures var allowed := match p.data
                           case None => true
                           case Some(Arr(items)) =>
                             p.typ != DISCONNECT && (items == [] ==> p.typ != EVENT && p.typ != BINARY_EVENT)
                           case Some(Obj(_, _)) => p.typ == CONNECT || p.typ == CONNECT_ERROR
                           case Some(_) => p.typ == CONNECT_ERROR;
            Decoded(json, EncodeAsString(json, p)) == if allowed then Ok(p) else Err(InvalidPayload)
  {
    TextIsReread(json, p);
  }

  lemma TextIsReread(json: Json, p: Packet)
    requires Faithful(json) && Writable(json, p)
    ensures var r := Decoded(json, EncodeAsString(json, p)); if CleanNsp(p.nsp) then r == Reread(p) else r != Ok(p)
  {
    var tail := PrintNsp(p.nsp) + (PrintId(p.id) + PrintData(json, p.data));
    TypeRoundTrip(p.typ, PrintAttachments(p) + tail);
    if IsBinaryType(p.typ) {
      AttachmentsRoundTrip(p.attachments.value.n, tail);
    } else {
      assert "" + tail == tail;
    }
    RestRoundTrip(json, p);
  }

  /** The first character decides the type; only a digit up to six, white space, or no text at all will do. */
  lemma FirstCharacterDecides(json: Json, s: string)
    ensures TypedBy(Decoded(json, s), s)
  {
    TypeOfDecoded(json, s);
    TypedByFirst(Decoded(json, s), s);
  }

  predicate TypedBy(r: Result<Packet>, s: string) {
    && (r == Err(UnknownType) <==> s != "" && !('0' <= s[0] <= '6') && !IsSpace(s[0]))
    && (r.Ok? ==>
          r.value.typ ==
          if s == "" then CONNECT
          else match s[0]
               case '1' => DISCONNECT
               case '2' => EVENT
               case '3' => ACK
               case '4' => CONNECT_ERROR
               case '5' => BINARY_EVENT
               case '6' => BINARY_ACK
               case _ => CONNECT)
  }

  lemma TypedByFirst(r: Result<Packet>, s: string)
    requires (r == Err(UnknownType) <==> ParseType(s) == None) && (r.Ok? ==> ParseType(s) == Some(r.value.typ))
    ensures TypedBy(r, s)
  {
  }

  lemma TypeOfDecoded(json: Json, s: string)
    ensures Decoded(json, s) == Err(UnknownType) <==> ParseType(s) == None
    ensures Decoded(json, s).Ok? ==> ParseType(s) == Some(Decoded(json, s).value.typ)
  {
    match ParseType(s)
    case None =>
    case Some(t) =>
      if IsBinaryType(t) {
        BinaryHasType(json, t, From(s, 1));
      } else {
        RestHasType(json, t, None, From(s, 1));
      }
  }

  predicate HasType(r: Result<Packet>, t: PacketType) {
    match r case Ok(p) => p.typ == t case Err(e) => e != UnknownType
  }

  lemma BinaryHasType(json: Json, t: PacketType, s: string)
    ensures HasType(DecodedBinary(json, t, s), t)
  {
    match ParseAttachments(s)
    case None =>
    case Some((n, rest)) => RestHasType(json, t, Some(n), rest);
  }

  lemma RestHasType(json: Json, t: PacketType, attachments: Option<Number>, s: string)
    ensures HasType(ParseRest(json, t, attachments, s), t)
  {
    AssembledHasType(json, t, attachments, Split(s));
  }

  lemma AssembledHasType(json: Json, t: PacketType, attachments: Option<Number>, parts: Parts)
    ensures HasType(Assembled(json, t, attachments, parts), t)
  {
  }

  lemma TypeRoundTrip(t: PacketType, rest: string)
    ensures ParseType([Code(t)] + rest) == Some(t) && From([Code(t)] + rest, 1) == rest
  {
  }

  lemma AttachmentsRoundTrip(n: nat, tail: string)
    requires n <= MAX_SAFE
    ensures ParseAttachments(PrintNat(n) + "-" + tail) == Some((Whole(n), tail))
  {
    PrintNatRoundTrip(n);
    NumberOfPrinted(n);
    CountBeforeDash(PrintNat(n), tail);
  }

  lemma CountBeforeDash(count: string, tail: string)
    requires '-' !in count
    ensures ParseAttachments(count + "-" + tail) == Attached(ToNumber(count), tail)
  {
    CutFinds(count, '-', tail);
  }

  lemma BinaryText(json: Json, count: string, tail: string)
    requires '-' !in count
    ensures Decoded(json, "5" + count + "-" + tail) ==
            match ToNumber(count)
            case None => Err(IllegalAttachments)
            case Some(n) => ParseRest(json, BINARY_EVENT, Some(n), tail)
  {
    var s := "5" + count + "-" + tail;
    assert ParseType(s) == Some(BINARY_EVENT);
    assert From(s, 1) == count + "-" + tail;
    CountBeforeDash(count, tail);
  }

  /** What the rest of a packet is read as when the namespace is clean. */
  function Reread(p: Packet): Result<Packet> {
    if p.data.None? || IsPayloadValid(p.typ, p.data.value) then Ok(p) else Err(InvalidPayload)
  }

  lemma RestRoundTrip(json: Json, p: Packet)
    requires Faithful(json) && Writable(json, p)
    ensures var r := ParseRest(json, p.typ, p.attachments, PrintNsp(p.nsp) + (PrintId(p.id) + PrintData(json, p.data)));
            if CleanNsp(p.nsp) then r == Reread(p) else r != Ok(p)
  {
    var data := PrintData(json, p.data);
    var parts := Split(PrintNsp(p.nsp) + (PrintId(p.id) + data));
    IdRoundTrip(json, p);
    if CleanNsp(p.nsp) {
      NspRoundTrip(p.nsp, PrintId(p.id) + data);
      assert parts == Parts(p.nsp, PrintId(p.id), data);
    } else {
      NspLost(p.nsp, PrintId(p.id) + data);
    }
    AssembledHasNsp(json, p.typ, p.attachments, parts);
  }

  lemma AssembledHasNsp(json: Json, t: PacketType, attachments: Option<Number>, parts: Parts)
    ensures var r := Assembled(json, t, attachments, parts); r.Ok? ==> r.value.nsp == parts.nsp
  {
  }

  /** The text after the namespace never starts with a slash, and splits again into id and payload. */
  lemma IdRoundTrip(json: Json, p: Packet)
    requires Faithful(json) && Writable(json, p)
    ensures var text := PrintId(p.id) + PrintData(json, p.data);
            CutNumeric(text) == (PrintId(p.id), PrintData(json, p.data)) && (text != "" ==> text[0] != '/')
    ensures Assembled(json, p.typ, p.attachments, Parts(p.nsp, PrintId(p.id), PrintData(json, p.data))) ==
            Reread(p)
  {
    DataRoundTrip(json, p);
    if p.id.Id? {
      NumberBeforeData(p.id.n, PrintData(json, p.data));
    } else {
      assert "" + PrintData(json, p.data) == PrintData(json, p.data);
    }
  }

  /** Digits and spaces in the place of the id are read as the number they are, if they are one that can be counted. */
  lemma IdDecides(json: Json, digits: string, v: Value)
    requires digits != "" && (forall c | c in digits :: IsNumeric(c))
    requires Faithful(json) && json.printable(v) && v.Arr? && v.items != []
    ensures var id := match ToNumber(digits)
                      case None => NotANumber
                      case Some(NotWhole) => Infinite
                      case Some(Whole(n)) => Id(n);
            Decoded(json, "2" + digits + json.stringify(v)) == Ok(Packet(EVENT, "/", id, Some(v), None))
  {
    var data := json.stringify(v);
    TypeRoundTrip(EVENT, digits + data);
    assert "2" + digits + data == [Code(EVENT)] + (digits + data);
    NumericSplits(digits, data);
    AssembledEvent(json, digits, v);
  }

  lemma NumericSplits(digits: string, data: string)
    requires digits != "" && (forall c | c in digits :: IsNumeric(c)) && (data == "" || !IsNumeric(data[0]))
    ensures Split(digits + data) == Parts("/", digits, data)
  {
    NumericFinds(digits, data);
    assert (digits + data)[0] in digits;
    assert CutNumeric(digits + data) == (digits, data);
  }

  lemma AssembledEvent(json: Json, digits: string, v: Value)
    requires Faithful(json) && json.printable(v) && v.Arr? && v.items != []
    ensures Assembled(json, EVENT, None, Parts("/", digits, json.stringify(v))) ==
            Ok(Packet(EVENT, "/", ToId(digits), Some(v), None))
  {
  }

  lemma {:induction false} NumericFinds(a: string, b: string)
    requires (forall c | c in a :: IsNumeric(c)) && (b == "" || !IsNumeric(b[0]))
    ensures ScanNumeric(a + b) == |a|
  {
    if a == "" {
      assert a + b == b;
    } else {
      assert (a + b)[1..] == a[1..] + b && a[0] in a;
      NumericFinds(a[1..], b);
    }
  }

  lemma DataRoundTrip(json: Json, p: Packet)
    requires Faithful(json) && Writable(json, p)
    ensures var data := PrintData(json, p.data);
            && ParseData(json, p.typ, data) == (if Reread(p).Ok? then Ok(p.data) else Err(InvalidPayload))
            && (data != "" ==> data[0] != '/' && !IsNumeric(data[0]))
  {
  }

  lemma NumberBeforeData(n: nat, data: string)
    requires n <= MAX_SAFE && (data != "" ==> !IsNumeric(data[0]))
    ensures CutNumeric(PrintNat(n) + data) == (PrintNat(n), data) && ToId(PrintNat(n)) == Id(n)
    ensures (PrintNat(n) + data)[0] != '/'
  {
    var digits := PrintNat(n);
    PrintNatRoundTrip(n);
    NumberOfPrinted(n);
    NumericFinds(digits, data);
    assert CutNumeric(digits + data) == (digits, data);
    assert (digits + data)[0] == digits[0] && digits[0] in digits;
  }

  lemma NspRoundTrip(nsp: string, tail: string)
    requires CleanNsp(nsp) && (tail != "" ==> tail[0] != '/')
    ensures ParseNsp(PrintNsp(nsp) + tail) == (nsp, tail)
  {
    if nsp == "/" {
      assert PrintNsp(nsp) + tail == tail;
    } else {
      CutFinds(nsp, ',', tail);
    }
  }

  lemma NspLost(nsp: string, tail: string)
    requires !CleanNsp(nsp) && (tail != "" ==> tail[0] != '/')
    ensures ParseNsp(PrintNsp(nsp) + tail).0 != nsp
  {
    var s := PrintNsp(nsp) + tail;
    if nsp == "" {
      assert s == tail;
    } else if nsp[0] == '/' {
      ScanToStops(s, ',');
    }
  }

  /** No two packets with clean namespaces share a text: no field can be mistaken for part of another. */
  lemma EncodingInjective(json: Json, p: Packet, q: Packet)
    requires Faithful(json) && Encodable(json, p) && Encodable(json, q) && CleanNsp(p.nsp) && CleanNsp(q.nsp)
    requires EncodeAsString(json, p) == EncodeAsString(json, q)
    ensures p == q
  {
    HeaderRoundTripIff(json, p);
    HeaderRoundTripIff(json, q);
  }
}
