/**
  Taking the binary parts out of a value and putting them back: every binary leaf becomes a numbered
  placeholder object and travels on its own.
 */
module Binary {
  import opened Common

  type Bytes = seq<bv8>

  type NonInteger = x: real | x.Floor as real != x witness 0.5

  /** A JSON value that may hold binary leaves. The fields of an object are in iteration order. */
  datatype Value =
    | Undefined
    | Null
    | Bool(b: bool)
    | Number(n: int)
    | Fraction(x: NonInteger)
    | Str(s: string)
    | Date(ms: int)
    | Bin(bytes: Bytes)
    | Arr(items: seq<Value>)
    | Obj(keys: seq<string>, vals: seq<Value>)

  // ---------- specification ----------

  /** The binary leaves of a value, in traversal order. */
  function Leaves(v: Value): seq<Bytes>
    decreases v, 0
  {
    match v
    case Bin(bytes) => [bytes]
    case Arr(items) => LeavesUpTo(items, |items|)
    case Obj(_, vals) => LeavesUpTo(vals, |vals|)
    case _ => []
  }

  /** The binary leaves of the first k values. */
  function LeavesUpTo(vs: seq<Value>, k: nat): seq<Bytes>
    requires k <= |vs|
    decreases vs, k
  {
    if k == 0 then [] else LeavesUpTo(vs, k - 1) + Leaves(vs[k - 1])
  }

  function Placeholder(num: int): Value {
    Obj(["_placeholder", "num"], [Bool(true), Number(num)])
  }

  /** Assigning to this key sets the prototype of an object, not a field. */
  const PROTO := "__proto__"

  function KeptKeys(keys: seq<string>): seq<string> {
    if keys == [] then [] else (if keys[0] == PROTO then [] else [keys[0]]) + KeptKeys(keys[1..])
  }

  /** The values of the fields that can be assigned. */
  function KeptVals(keys: seq<string>, vals: seq<Value>): seq<Value> {
    if keys == [] || vals == [] then vals
    else (if keys[0] == PROTO then [] else [vals[0]]) + KeptVals(keys[1..], vals[1..])
  }

  /** The value with its binary leaves replaced by placeholders numbered from n; a field can get lost on the way. */
  function Strip(v: Value, n: nat): Value
    decreases v, 0
  {
    match v
    case Bin(_) => Placeholder(n)
    case Arr(items) => Arr(StripUpTo(items, |items|, n))
    case Obj(keys, vals) => Obj(KeptKeys(keys), KeptVals(keys, StripUpTo(vals, |vals|, n)))
    case _ => v
  }

  function StripUpTo(vs: seq<Value>, k: nat, n: nat): (r: seq<Value>)
    requires k <= |vs|
    ensures |r| == k
    decreases vs, k
  {
    if k == 0 then [] else StripUpTo(vs, k - 1, n) + [Strip(vs[k - 1], n + |LeavesUpTo(vs, k - 1)|)]
  }

  /** The field of an object with the given key, if it has one. */
  function Lookup(keys: seq<string>, vals: seq<Value>, key: string): Option<Value> {
    if keys == [] || vals == [] then None
    else if keys[0] == key then Some(vals[0])
    else Lookup(keys[1..], vals[1..], key)
  }

  predicate IsPlaceholder(v: Value) {
    v.Obj? && Lookup(v.keys, v.vals, "_placeholder") == Some(Bool(true))
  }

  /** No object of the value looks like a placeholder or has a field that cannot be assigned. */
  predicate IsPlain(v: Value)
    decreases v, 0
  {
    match v
    case Arr(items) => IsPlainUpTo(items, |items|)
    case Obj(keys, vals) => !IsPlaceholder(v) && PROTO !in keys && IsPlainUpTo(vals, |vals|)
    case _ => true
  }

  predicate IsPlainUpTo(vs: seq<Value>, k: nat)
    requires k <= |vs|
    decreases vs, k
  {
    k == 0 || (IsPlainUpTo(vs, k - 1) && IsPlain(vs[k - 1]))
  }

  /** The buffer with the given number; nothing between two of them, and None for an illegal number. */
  function BufferAt(num: Option<Value>, buffers: seq<Bytes>): (r: Option<Value>)
    ensures r.Some? ==> r.value.Bin? || r.value.Undefined?
  {
    match num
    case Some(Number(n)) => if 0 <= n < |buffers| then Some(Bin(buffers[n])) else None
    case Some(Fraction(x)) => if 0.0 <= x < |buffers| as real then Some(Undefined) else None
    case _ => None
  }

  /** The value with every placeholder replaced by its buffer; None for an illegal number. */
  function Fill(v: Value, buffers: seq<Bytes>): Option<Value>
    decreases v, 0
  {
    if IsPlaceholder(v) then BufferAt(Lookup(v.keys, v.vals, "num"), buffers)
    else
      match v
      case Arr(items) =>
        (match FillUpTo(items, |items|, buffers) case None => None case Some(filled) => Some(Arr(filled)))
      case Obj(keys, vals) =>
        (match FillUpTo(vals, |vals|, buffers) case None => None case Some(filled) => Some(Obj(keys, filled)))
      case _ => Some(v)
  }

  function FillUpTo(vs: seq<Value>, k: nat, buffers: seq<Bytes>): (r: Option<seq<Value>>)
    requires k <= |vs|
    ensures r.Some? ==> |r.value| == k
    decreases vs, k
  {
    if k == 0 then Some([])
    else
      match FillUpTo(vs, k - 1, buffers)
      case None => None
      case Some(front) =>
        match Fill(vs[k - 1], buffers)
        case None => None
        case Some(last) => Some(front + [last])
  }

  // ---------- the code ----------

  /** Whether a value holds a binary leaf; stops at the first one. */
  method HasBinary(v: Value) returns (found: bool)
    ensures found <==> Leaves(v) != []
    decreases v, 1
  {
    match v
    case Bin(_) => return true;
    case Arr(items) => found := AnyHasBinary(items);
    case Obj(_, vals) => found := AnyHasBinary(vals);
    case _ => return false;
  }

  method AnyHasBinary(vs: seq<Value>) returns (found: bool)
    ensures found <==> LeavesUpTo(vs, |vs|) != []
    decreases vs, 0
  {
    for i := 0 to |vs|
      invariant LeavesUpTo(vs, i) == []
    {
      found := HasBinary(vs[i]);
      if found {
        LeavesGrow(vs, i + 1);
        return true;
      }
    }
    return false;
  }

  lemma {:induction false} LeavesGrow(vs: seq<Value>, k: nat)
    requires k <= |vs|
    ensures LeavesUpTo(vs, k) <= LeavesUpTo(vs, |vs|)
    decreases |vs| - k
  {
    if k < |vs| {
      LeavesGrow(vs, k + 1);
    }
  }

  /** The buffers of one packet, filled while its value is taken apart. */
  class BufferList {
    var buffers: seq<Bytes>

    constructor ()
      ensures buffers == []
    {
      buffers := [];
    }

    method Deconstruct(data: Value) returns (stripped: Value)
      modifies this
      ensures stripped == Strip(data, |old(buffers)|)
      ensures buffers == old(buffers) + Leaves(data)
      decreases data, 1
    {
      match data
      case Bin(bytes) =>
        stripped := Placeholder(|buffers|);
        buffers := buffers + [bytes];
      case Arr(items) =>
        var newItems := DeconstructAll(items);
        stripped := Arr(newItems);
      case Obj(keys, vals) =>
        var newVals := DeconstructAll(vals);
        stripped := Obj(KeptKeys(keys), KeptVals(keys, newVals));
      case _ =>
        stripped := data;
    }

    method DeconstructAll(items: seq<Value>) returns (newItems: seq<Value>)
      modifies this
      ensures newItems == StripUpTo(items, |items|, |old(buffers)|)
      ensures buffers == old(buffers) + LeavesUpTo(items, |items|)
      decreases items, 0
    {
      newItems := [];
      for i := 0 to |items|
        invariant newItems == StripUpTo(items, i, |old(buffers)|)
        invariant buffers == old(buffers) + LeavesUpTo(items, i)
      {
        var item := Deconstruct(items[i]);
        newItems := newItems + [item];
      }
    }
  }

  /** Puts the buffers back. */
  method Reconstruct(data: Value, buffers: seq<Bytes>) returns (r: Option<Value>)
    ensures r == Fill(data, buffers)
    decreases data, 1
  {
    if IsPlaceholder(data) {
      var num := Lookup(data.keys, data.vals, "num");
      if num.Some? && num.value.Number? && 0 <= num.value.n < |buffers| {
        return Some(Bin(buffers[num.value.n]));
      }
      if num.Some? && num.value.Fraction? && 0.0 <= num.value.x < |buffers| as real {
        return Some(Undefined);
      }
      return None;
    }
    match data
    case Arr(items) =>
      var filled := ReconstructAll(items, buffers);
      return match filled case None => None case Some(items') => Some(Arr(items'));
    case Obj(keys, vals) =>
      var filled := ReconstructAll(vals, buffers);
      return match filled case None => None case Some(vals') => Some(Obj(keys, vals'));
    case _ =>
      return Some(data);
  }

  /** Updates the items one after the other; an illegal placeholder stops it. */
  method ReconstructAll(items: seq<Value>, buffers: seq<Bytes>) returns (r: Option<seq<Value>>)
    ensures r == FillUpTo(items, |items|, buffers)
    decreases items, 0
  {
    var data := items;
    for i := 0 to |items|
      invariant |data| == |items|
      invariant FillUpTo(items, i, buffers) == Some(data[..i])
    {
      var item := Reconstruct(items[i], buffers);
      if item.None? {
        FillStopped(items, i + 1, buffers);
        return None;
      }
      ghost var done := data[..i];
      data := data[i := item.value];
      assert data[..i + 1] == done + [item.value];
    }
    assert data[..|items|] == data;
    return Some(data);
  }

  lemma {:induction false} FillStopped(vs: seq<Value>, k: nat, buffers: seq<Bytes>)
    requires k <= |vs| && FillUpTo(vs, k, buffers) == None
    ensures FillUpTo(vs, |vs|, buffers) == None
    decreases |vs| - k
  {
    if k < |vs| {
      FillStopped(vs, k + 1, buffers);
    }
  }

  // ---------- the results ----------

  lemma {:induction false} StripAt(vs: seq<Value>, k: nat, n: nat, i: nat)
    requires i < k <= |vs|
    ensures StripUpTo(vs, k, n)[i] == Strip(vs[i], n + |LeavesUpTo(vs, i)|)
    ensures StripUpTo(vs, k, n)[..i] == StripUpTo(vs, i, n)
  {
    if i < k - 1 {
      StripAt(vs, k - 1, n, i);
      assert StripUpTo(vs, k, n)[..i] == StripUpTo(vs, k - 1, n)[..i];
    }
  }

  /** Stripping leaves no binary data behind. */
  lemma {:induction false} StripRemovesBinary(v: Value, n: nat)
    ensures Leaves(Strip(v, n)) == []
    decreases v, 0
  {
    match v
    case Arr(items) =>
      StripUpToRemovesBinary(items, |items|, n);
      Leafless(Strip(v, n).items, |items|);
    case Obj(keys, vals) =>
      StripUpToRemovesBinary(vals, |vals|, n);
      KeptAmong(keys, StripUpTo(vals, |vals|, n));
      Leafless(Strip(v, n).vals, |Strip(v, n).vals|);
    case Bin(_) =>
      var vals := Placeholder(n).vals;
      assert LeavesUpTo(vals, 1) == LeavesUpTo(vals, 0) + Leaves(vals[0]) == [];
      assert LeavesUpTo(vals, 2) == LeavesUpTo(vals, 1) + Leaves(vals[1]) == [];
    case _ =>
  }

  lemma {:induction false} StripUpToRemovesBinary(vs: seq<Value>, k: nat, n: nat)
    requires k <= |vs|
    ensures forall x | x in StripUpTo(vs, k, n) :: Leaves(x) == []
    decreases vs, k
  {
    if k > 0 {
      StripUpToRemovesBinary(vs, k - 1, n);
      StripRemovesBinary(vs[k - 1], n + |LeavesUpTo(vs, k - 1)|);
    }
  }

  lemma {:induction false} Leafless(vs: seq<Value>, k: nat)
    requires k <= |vs| && forall x | x in vs :: Leaves(x) == []
    ensures LeavesUpTo(vs, k) == []
  {
    if k > 0 {
      Leafless(vs, k - 1);
    }
  }

  lemma {:induction false} KeptAmong(keys: seq<string>, vals: seq<Value>)
    ensures forall x | x in KeptVals(keys, vals) :: x in vals
  {
    if keys != [] && vals != [] {
      KeptAmong(keys[1..], vals[1..]);
    }
  }

  /** Nothing is lost exactly when there is no such field. */
  lemma {:induction false} AllKeptIff(keys: seq<string>, vals: seq<Value>)
    ensures |KeptKeys(keys)| <= |keys| && (KeptKeys(keys) == keys <==> PROTO !in keys)
    ensures PROTO !in keys ==> KeptVals(keys, vals) == vals
  {
    if keys != [] {
      AllKeptIff(keys[1..], if vals == [] then [] else vals[1..]);
    }
  }

  // ---------- along a path ----------

  /** What is reached by going into lists and objects, by position. */
  function At(v: Value, path: seq<nat>): Option<Value>
    decreases |path|
  {
    if path == [] then Some(v)
    else
      match v
      case Arr(items) => if path[0] < |items| then At(items[path[0]], path[1..]) else None
      case Obj(_, vals) => if path[0] < |vals| then At(vals[path[0]], path[1..]) else None
      case _ => None
  }

  /** The leaves are what is binary anywhere in the value. */
  lemma LeavesAreReached(v: Value, bytes: Bytes)
    ensures bytes in Leaves(v) <==> exists path :: At(v, path) == Some(Bin(bytes))
  {
    if bytes in Leaves(v) {
      var path := PathToLeaf(v, bytes);
    }
    if path :| At(v, path) == Some(Bin(bytes)) {
      ReachedIsLeaf(v, path, bytes);
    }
  }

  lemma {:induction false} PathToLeaf(v: Value, bytes: Bytes) returns (path: seq<nat>)
    requires bytes in Leaves(v)
    ensures At(v, path) == Some(Bin(bytes))
    decreases v, 0
  {
    match v
    case Bin(_) => path := [];
    case Arr(items) =>
      var i, rest := PathAmong(items, |items|, bytes);
      path := [i] + rest;
      assert path[1..] == rest;
    case Obj(_, vals) =>
      var i, rest := PathAmong(vals, |vals|, bytes);
      path := [i] + rest;
      assert path[1..] == rest;
  }

  lemma {:induction false} PathAmong(vs: seq<Value>, k: nat, bytes: Bytes) returns (i: nat, path: seq<nat>)
    requires k <= |vs| && bytes in LeavesUpTo(vs, k)
    ensures i < k && At(vs[i], path) == Some(Bin(bytes))
    decreases vs, k
  {
    if bytes in LeavesUpTo(vs, k - 1) {
      i, path := PathAmong(vs, k - 1, bytes);
    } else {
      i := k - 1;
      path := PathToLeaf(vs[i], bytes);
    }
  }

  lemma {:induction false} ReachedIsLeaf(v: Value, path: seq<nat>, bytes: Bytes)
    requires At(v, path) == Some(Bin(bytes))
    ensures bytes in Leaves(v)
    decreases |path|
  {
    if path != [] {
      match v
      case Arr(items) =>
        ReachedIsLeaf(items[path[0]], path[1..], bytes);
        LeafAmong(items, path[0], |items|, bytes);
      case Obj(_, vals) =>
        ReachedIsLeaf(vals[path[0]], path[1..], bytes);
        LeafAmong(vals, path[0], |vals|, bytes);
    }
  }

  lemma {:induction false} LeafAmong(vs: seq<Value>, i: nat, k: nat, bytes: Bytes)
    requires i < k <= |vs| && bytes in Leaves(vs[i])
    ensures bytes in LeavesUpTo(vs, k)
    decreases k
  {
    if i < k - 1 {
      LeafAmong(vs, i, k - 1, bytes);
    }
  }

  /** Nothing binary is reached in a stripped value. */
  lemma NothingBinaryReached(v: Value, n: nat, path: seq<nat>)
    ensures At(Strip(v, n), path).Some? ==> !At(Strip(v, n), path).value.Bin?
  {
    if At(Strip(v, n), path).Some? && At(Strip(v, n), path).value.Bin? {
      ReachedIsLeaf(Strip(v, n), path, At(Strip(v, n), path).value.bytes);
      StripRemovesBinary(v, n);
    }
  }

  /** Whatever is reached in a plain value is reached the same way, and stripped, in the stripped value. */
  lemma {:induction false} StrippedWhereItWas(v: Value, n: nat, path: seq<nat>) returns (m: nat)
    requires IsPlain(v) && At(v, path).Some?
    ensures n <= m && At(Strip(v, n), path) == Some(Strip(At(v, path).value, m))
    decreases |path|, 1
  {
    if path == [] {
      m := n;
    } else {
      match v
      case Arr(items) => m := StrippedAmong(items, n, path);
      case Obj(keys, vals) =>
        AllKeptIff(keys, StripUpTo(vals, |vals|, n));
        m := StrippedAmong(vals, n, path);
    }
  }

  lemma {:induction false} StrippedAmong(vs: seq<Value>, n: nat, path: seq<nat>) returns (m: nat)
    requires IsPlainUpTo(vs, |vs|) && path != [] && path[0] < |vs| && At(vs[path[0]], path[1..]).Some?
    ensures n <= m
    ensures At(StripUpTo(vs, |vs|, n)[path[0]], path[1..]) == Some(Strip(At(vs[path[0]], path[1..]).value, m))
    decreases |path|, 0
  {
    StripAt(vs, |vs|, n, path[0]);
    PlainAt(vs, |vs|, path[0]);
    m := StrippedWhereItWas(vs[path[0]], n + |LeavesUpTo(vs, path[0])|, path[1..]);
  }

  lemma {:induction false} PlainAt(vs: seq<Value>, k: nat, i: nat)
    requires i < k <= |vs| && IsPlainUpTo(vs, k)
    ensures IsPlain(vs[i])
    decreases k
  {
    if i < k - 1 {
      PlainAt(vs, k - 1, i);
    }
  }

  lemma {:induction false} LookupTrue(keys: seq<string>, vals: seq<Value>, stripped: seq<Value>, key: string)
    requires |vals| == |stripped|
    requires forall i | 0 <= i < |vals| :: stripped[i] == Bool(true) <==> vals[i] == Bool(true)
    ensures Lookup(keys, stripped, key) == Some(Bool(true)) <==> Lookup(keys, vals, key) == Some(Bool(true))
  {
    if keys != [] && vals != [] && keys[0] != key {
      LookupTrue(keys[1..], vals[1..], stripped[1..], key);
    }
  }

  lemma StripKeepsTrue(vs: seq<Value>, n: nat)
    ensures forall i | 0 <= i < |vs| :: StripUpTo(vs, |vs|, n)[i] == Bool(true) <==> vs[i] == Bool(true)
  {
    forall i | 0 <= i < |vs| ensures StripUpTo(vs, |vs|, n)[i] == Bool(true) <==> vs[i] == Bool(true) {
      StripAt(vs, |vs|, n, i);
    }
  }

  /** A stripped object looks like a placeholder only if it did before. */
  lemma StripKeepsPlaceholders(v: Value, n: nat)
    requires v.Obj? && PROTO !in v.keys
    ensures IsPlaceholder(Strip(v, n)) <==> IsPlaceholder(v)
  {
    var stripped := StripUpTo(v.vals, |v.vals|, n);
    AllKeptIff(v.keys, stripped);
    StripKeepsTrue(v.vals, n);
    LookupTrue(v.keys, v.vals, stripped, "_placeholder");
  }

  lemma PlaceholderNumber(n: nat)
    ensures var p := Placeholder(n); IsPlaceholder(p) && Lookup(p.keys, p.vals, "num") == Some(Number(n))
  {
    var p := Placeholder(n);
    assert p.keys[1..] == ["num"] && p.vals[1..] == [Number(n)];
  }

  lemma OwnPlaceholder(n: nat, buffers: seq<Bytes>)
    requires n < |buffers|
    ensures Fill(Placeholder(n), buffers) == Some(Bin(buffers[n]))
  {
    PlaceholderNumber(n);
  }

  /** A placeholder is filled exactly when its number lies in the range of the buffers; a fraction yields nothing. */
  lemma PlaceholderFilledIff(v: Value, num: Value, buffers: seq<Bytes>)
    requires IsPlaceholder(v) && Lookup(v.keys, v.vals, "num") == Some(num)
    ensures Fill(v, buffers).Some? <==>
            || (num.Number? && 0 <= num.n < |buffers|)
            || (num.Fraction? && 0.0 <= num.x < |buffers| as real)
    ensures Fill(v, buffers).Some? ==> Fill(v, buffers).value == if num.Number? then Bin(buffers[num.n]) else Undefined
  {
  }

  ghost predicate HasAt(buffers: seq<Bytes>, n: nat, part: seq<Bytes>) {
    n + |part| <= |buffers| && buffers[n..n + |part|] == part
  }

  lemma SplitBuffers(buffers: seq<Bytes>, n: nat, a: seq<Bytes>, b: seq<Bytes>)
    requires HasAt(buffers, n, a + b)
    ensures HasAt(buffers, n, a) && HasAt(buffers, n + |a|, b)
  {
    assert buffers[n..n + |a|] == buffers[n..n + |a + b|][..|a|];
    assert buffers[n + |a|..n + |a| + |b|] == buffers[n..n + |a + b|][|a|..];
  }

  /**
    Putting the buffers back restores the value exactly when it has no object that only looks like a
    placeholder and none with a field that cannot be assigned; the buffers before and after its own do not matter.
   */
  lemma {:induction false} FillUndoesStripIff(v: Value, n: nat, buffers: seq<Bytes>)
    requires HasAt(buffers, n, Leaves(v))
    ensures Fill(Strip(v, n), buffers) == Some(v) <==> IsPlain(v)
    decreases v, 0
  {
    match v
    case Bin(bytes) =>
      OwnPlaceholder(n, buffers);
      assert buffers[n..n + 1][0] == bytes;
    case Arr(items) =>
      FillUndoesStripUpTo(items, |items|, n, buffers);
      assert items[..|items|] == items;
    case Obj(keys, vals) =>
      AllKeptIff(keys, StripUpTo(vals, |vals|, n));
      if PROTO !in keys {
        StripKeepsPlaceholders(v, n);
        FillUndoesStripUpTo(vals, |vals|, n, buffers);
        assert vals[..|vals|] == vals;
      }
    case _ =>
  }

  /** A text in such a field does not make it to the other side, although nothing looks like a placeholder. */
  lemma ProtoFieldIsLost(text: string, bytes: Bytes)
    ensures var v := Obj([PROTO, "b"], [Str(text), Bin(bytes)]);
            Leaves(v) == [bytes] && Strip(v, 0) == Obj(["b"], [Placeholder(0)])
  {
    var vals, stripped := [Str(text), Bin(bytes)], [Str(text), Placeholder(0)];
    assert LeavesUpTo(vals, 1) == LeavesUpTo(vals, 0) + Leaves(vals[0]) == [];
    assert LeavesUpTo(vals, 2) == LeavesUpTo(vals, 1) + Leaves(vals[1]) == [bytes];
    assert StripUpTo(vals, 1, 0) == StripUpTo(vals, 0, 0) + [Strip(vals[0], 0)] == [Str(text)];
    assert StripUpTo(vals, 2, 0) == StripUpTo(vals, 1, 0) + [Strip(vals[1], 0)] == stripped;
    LaterFieldsKept(["b"], Str(text), [Placeholder(0)]);
  }

  lemma LaterFieldsKept(keys: seq<string>, v: Value, vals: seq<Value>)
    requires PROTO !in keys
    ensures KeptKeys([PROTO] + keys) == keys && KeptVals([PROTO] + keys, [v] + vals) == vals
  {
    AllKeptIff(keys, vals);
    assert ([PROTO] + keys)[1..] == keys && ([v] + vals)[1..] == vals;
  }

  lemma {:induction false} FillUndoesStripUpTo(vs: seq<Value>, k: nat, n: nat, buffers: seq<Bytes>)
    requires k <= |vs| && HasAt(buffers, n, LeavesUpTo(vs, k))
    ensures FillUpTo(StripUpTo(vs, |vs|, n), k, buffers) == Some(vs[..k]) <==> IsPlainUpTo(vs, k)
    decreases vs, k
  {
    if k > 0 {
      SplitBuffers(buffers, n, LeavesUpTo(vs, k - 1), Leaves(vs[k - 1]));
      FillUndoesStripUpTo(vs, k - 1, n, buffers);
      StripAt(vs, |vs|, n, k - 1);
      FillUndoesStripIff(vs[k - 1], n + |LeavesUpTo(vs, k - 1)|, buffers);
      FillSnoc(StripUpTo(vs, |vs|, n), vs, k, buffers);
    }
  }

  lemma FillSnoc(fs: seq<Value>, vs: seq<Value>, k: nat, buffers: seq<Bytes>)
    requires |fs| == |vs| && 0 < k <= |vs|
    ensures FillUpTo(fs, k, buffers) == Some(vs[..k]) <==>
            FillUpTo(fs, k - 1, buffers) == Some(vs[..k - 1]) && Fill(fs[k - 1], buffers) == Some(vs[k - 1])
  {
    var front, last := FillUpTo(fs, k - 1, buffers), Fill(fs[k - 1], buffers);
    assert vs[..k] == vs[..k - 1] + [vs[k - 1]];
    if front.Some? && last.Some? && front.value + [last.value] == vs[..k] {
      assert front.value == (front.value + [last.value])[..k - 1] == vs[..k - 1];
    }
  }

  /** The numbers of the placeholders of a value, in traversal order. */
  function Numbers(v: Value): seq<int>
    decreases v, 0
  {
    if IsPlaceholder(v) then
      match Lookup(v.keys, v.vals, "num") case Some(Number(num)) => [num] case _ => []
    else
      match v
      case Arr(items) => NumbersUpTo(items, |items|)
      case Obj(_, vals) => NumbersUpTo(vals, |vals|)
      case _ => []
  }

  function NumbersUpTo(vs: seq<Value>, k: nat): seq<int>
    requires k <= |vs|
    decreases vs, k
  {
    if k == 0 then [] else NumbersUpTo(vs, k - 1) + Numbers(vs[k - 1])
  }

  function Range(from: nat, size: nat): (r: seq<int>)
    ensures |r| == size && forall i | 0 <= i < size :: r[i] == from + i
  {
    seq(size, i => from + i)
  }

  /** Placeholders are numbered consecutively in traversal order, one per binary leaf. */
  lemma {:induction false} NumbersOfStripped(v: Value, n: nat)
    requires IsPlain(v)
    ensures Numbers(Strip(v, n)) == Range(n, |Leaves(v)|)
    decreases v, 0
  {
    match v
    case Bin(bytes) => PlaceholderNumber(n);
    case Arr(items) => NumbersOfStrippedUpTo(items, |items|, n);
    case Obj(keys, vals) =>
      AllKeptIff(keys, StripUpTo(vals, |vals|, n));
      StripKeepsPlaceholders(v, n);
      NumbersOfStrippedUpTo(vals, |vals|, n);
    case _ =>
  }

  lemma {:induction false} NumbersOfStrippedUpTo(vs: seq<Value>, k: nat, n: nat)
    requires k <= |vs| && IsPlainUpTo(vs, k)
    ensures NumbersUpTo(StripUpTo(vs, |vs|, n), k) == Range(n, |LeavesUpTo(vs, k)|)
    decreases vs, k
  {
    if k > 0 {
      var m := n + |LeavesUpTo(vs, k - 1)|;
      NumbersOfStrippedUpTo(vs, k - 1, n);
      StripAt(vs, |vs|, n, k - 1);
      NumbersOfStripped(vs[k - 1], m);
      RangeSplits(n, |LeavesUpTo(vs, k - 1)|, |Leaves(vs[k - 1])|);
    }
  }

  lemma RangeSplits(from: nat, a: nat, b: nat)
    ensures Range(from, a) + Range(from + a, b) == Range(from, a + b)
  {
  }
}
