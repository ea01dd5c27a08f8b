/**
  The UTF-8 form (section 3 of RFC 3629) of a string of 16-bit code units, and the client's way of measuring it.
 */
module Utf8 {

  /** A 16-bit code unit. */
  type Unit = u: int | 0 <= u < 0x1_0000

  type Byte = b: int | 0 <= b < 0x100

  type Text = seq<Unit>

  predicate IsHigh(u: Unit) { 0xD800 <= u < 0xDC00 }

  predicate IsLow(u: Unit) { 0xDC00 <= u < 0xE000 }

  /** Every surrogate is part of a pair. */
  predicate WellFormed(s: Text) {
    s == [] ||
    if IsHigh(s[0]) then |s| > 1 && IsLow(s[1]) && WellFormed(s[2..])
    else !IsLow(s[0]) && WellFormed(s[1..])
  }

  /** The octets of one character, by the number of bits it needs. */
  function EncodeScalar(c: nat): seq<Byte>
    requires c < 0x11_0000
  {
    if c < 0x80 then [c]
    else if c < 0x800 then [0xC0 + c / 0x40, 0x80 + c % 0x40]
    else if c < 0x1_0000 then [0xE0 + c / 0x1000, 0x80 + c / 0x40 % 0x40, 0x80 + c % 0x40]
    else [0xF0 + c / 0x4_0000, 0x80 + c / 0x1000 % 0x40, 0x80 + c / 0x40 % 0x40, 0x80 + c % 0x40]
  }

  /** What a surrogate without its partner is replaced by. */
  const REPLACEMENT := 0xFFFD

  function PairValue(high: Unit, low: Unit): nat
    requires IsHigh(high) && IsLow(low)
  {
    0x1_0000 + (high - 0xD800) * 0x400 + (low - 0xDC00)
  }

  /** The units of the first character. */
  function Width(s: Text): nat
    requires s != []
  {
    if |s| > 1 && IsHigh(s[0]) && IsLow(s[1]) then 2 else 1
  }

  function First(s: Text): (c: nat)
    requires s != []
    ensures c < 0x11_0000
  {
    if Width(s) == 2 then PairValue(s[0], s[1])
    else if IsHigh(s[0]) || IsLow(s[0]) then REPLACEMENT
    else s[0]
  }

  function Encode(s: Text): seq<Byte> {
    if s == [] then [] else EncodeScalar(First(s)) + Encode(s[Width(s)..])
  }

  /** How the client measures: four octets for any surrogate and the unit behind it. */
  function Measured(s: Text): nat {
    if s == [] then 0
    else if s[0] < 0x80 then 1 + Measured(s[1..])
    else if s[0] < 0x800 then 2 + Measured(s[1..])
    else if s[0] < 0xD800 || s[0] >= 0xE000 then 3 + Measured(s[1..])
    else 4 + Measured(s[if |s| > 1 then 2 else 1..])
  }

  method Utf8Length(s: Text) returns (length: nat)
    ensures length == Measured(s)
    ensures WellFormed(s) ==> length == |Encode(s)|
  {
    length := 0;
    var i := 0;
    while i < |s|
      invariant 0 <= i
      invariant length + (if i <= |s| then Measured(s[i..]) else 0) == Measured(s)
    {
      var c := s[i];
      if c < 0x80 {
        length := length + 1;
      } else if c < 0x800 {
        length := length + 2;
      } else if c < 0xD800 || c >= 0xE000 {
        length := length + 3;
      } else {
        MeasuredSurrogate(s, i);
        i := i + 1;
        length := length + 4;
      }
      i := i + 1;
    }
    if WellFormed(s) {
      MeasuresEncoding(s);
    }
  }

  lemma MeasuredSurrogate(s: Text, i: nat)
    requires i < |s| && 0xD800 <= s[i] < 0xE000
    ensures Measured(s[i..]) == 4 + if i + 2 <= |s| then Measured(s[i + 2..]) else 0
  {
    if i + 2 <= |s| {
      assert s[i..][2..] == s[i + 2..];
    }
  }

  /** The measure is right for well-formed text. */
  lemma {:induction false} MeasuresEncoding(s: Text)
    requires WellFormed(s)
    ensures Measured(s) == |Encode(s)|
  {
    if s != [] {
      if IsHigh(s[0]) {
        MeasuresEncoding(s[2..]);
      } else {
        MeasuresEncoding(s[1..]);
      }
    }
  }

  /** A surrogate without its partner can be measured too high, too low, or right by chance. */
  lemma LoneSurrogatesMismeasured()
    ensures var s := [0xD800]; !WellFormed(s) && Measured(s) == 4 && |Encode(s)| == 3
    ensures var s := [0xD800, 0x800]; !WellFormed(s) && Measured(s) == 4 && |Encode(s)| == 6
    ensures var s := [0xD800, 0x41]; !WellFormed(s) && Measured(s) == 4 && |Encode(s)| == 4
  {
    TwoUnits(0xD800, 0x800);
    TwoUnits(0xD800, 0x41);
    var s: Text := [0xD800];
    assert s[1..] == [];
  }

  lemma TwoUnits(a: Unit, b: Unit)
    requires IsHigh(a) && !IsHigh(b) && !IsLow(b)
    ensures var s := [a, b];
            !WellFormed(s) && Measured(s) == 4 && |Encode(s)| == 3 + |EncodeScalar(b)|
  {
    var s: Text := [a, b];
    assert s[1..] == [b] && s[2..] == [] && [b][1..] == [];
    assert Encode([b]) == EncodeScalar(b) + [];
  }

  /** No pair of surrogates is split between two texts. */
  predicate Apart(a: Text, b: Text) {
    a == [] || b == [] || !IsHigh(a[|a| - 1]) || !IsLow(b[0])
  }

  lemma {:induction false} EncodeConcat(a: Text, b: Text)
    requires Apart(a, b)
    ensures Encode(a + b) == Encode(a) + Encode(b)
  {
    if a == [] {
      assert a + b == b;
    } else {
      FirstOfConcat(a, b);
      EncodeConcat(a[Width(a)..], b);
      EncodeStep(a, b);
    }
  }

  lemma EncodeStep(a: Text, b: Text)
    requires a != [] && Width(a + b) == Width(a) && First(a + b) == First(a)
    requires (a + b)[Width(a)..] == a[Width(a)..] + b
    requires Encode(a[Width(a)..] + b) == Encode(a[Width(a)..]) + Encode(b)
    ensures Encode(a + b) == Encode(a) + Encode(b)
  {
    Append(EncodeScalar(First(a)), Encode(a[Width(a)..]), Encode(b));
  }

  lemma FirstOfConcat(a: Text, b: Text)
    requires a != [] && Apart(a, b)
    ensures Width(a + b) == Width(a) && First(a + b) == First(a)
    ensures (a + b)[Width(a)..] == a[Width(a)..] + b && Apart(a[Width(a)..], b)
  {
    assert (a + b)[0] == a[0];
    if |a| > 1 {
      assert (a + b)[1] == a[1];
    }
  }

  lemma Append<T>(a: seq<T>, b: seq<T>, c: seq<T>)
    ensures a + b + c == a + (b + c)
  {
  }
}
