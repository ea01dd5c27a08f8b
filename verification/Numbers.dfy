/**
  Text converted to a number as JavaScript does it, as far as it matters whether the result is a natural number:
  decimal text with sign, fraction and exponent, text in other radices, and rounding to 53 significant bits.
 */
module Numbers {
  import opened Common

  /** A number: a natural one, or one that is negative, has a fraction or is infinite. */
  datatype Number = Whole(n: nat) | NotWhole

  predicate IsDigit(c: char) { '0' <= c <= '9' }

  /** White space, as far as conversion to a number is concerned. */
  predicate IsSpace(c: char) {
    || '\t' <= c <= '\r' || c == ' ' || c == '\U{a0}' || c == '\U{feff}' || c == '\U{1680}'
    || '\U{2000}' <= c <= '\U{200a}' || c == '\U{2028}' || c == '\U{2029}'
    || c == '\U{202f}' || c == '\U{205f}' || c == '\U{3000}'
  }

  predicate AllDigits(s: string) { forall c | c in s :: IsDigit(c) }

  function PrintNat(n: nat): string {
    if n < 10 then ['0' + n as char] else PrintNat(n / 10) + ['0' + (n % 10) as char]
  }

  function DigitsValue(s: string): nat
    requires AllDigits(s)
  {
    if s == "" then 0
    else
      assert s[|s| - 1] in s;
      DigitsValue(s[..|s| - 1]) * 10 + (s[|s| - 1] - '0') as nat
  }

  // ---------- rounding ----------

  /** The number times a power of ten. */
  function TimesTen(m: nat, k: nat): (r: nat)
    ensures m <= r
    decreases k
  {
    if k == 0 then m else TimesTen(10 * m, k - 1)
  }

  /** The number times a power of two. */
  function Shifted(m: nat, k: nat): (r: nat)
    ensures m <= r
    decreases k
  {
    if k == 0 then m else Shifted(2 * m, k - 1)
  }

  /** The number divided by a power of two. */
  function Halved(m: nat, k: nat): Number {
    if k == 0 then Whole(m) else if m % 2 == 0 then Halved(m / 2, k - 1) else NotWhole
  }

  /** Quotient and remainder, bit by bit. */
  function Divided(a: nat, b: nat): (nat, nat)
    requires b > 0
  {
    if a < b then (0, a)
    else
      var (q, r) := Divided(a / 2, b);
      var r' := 2 * r + a % 2;
      if r' < b then (2 * q, r') else (2 * q + 1, r' - b)
  }

  const TWO52 := 0x10_0000_0000_0000

  const TWO53 := 0x20_0000_0000_0000

  /** The largest integer below which all integers are represented. */
  const MAX_SAFE := TWO53 - 1

  const MIN_EXPONENT := -1074

  const MAX_EXPONENT := 971

  /** The quotient rounded to the nearest integer, a half to the even one. */
  function NearestEven(a: nat, b: nat): nat
    requires b > 0
  {
    var (q, r) := Divided(a, b);
    if 2 * r < b || (2 * r == b && q % 2 == 0) then q else q + 1
  }

  /** How far a fraction is from having 53 bits in front of its exponent. */
  function Distance(a: nat, b: nat, e: int): nat {
    if a >= TWO53 * b then 3 else if a < TWO52 * b && e > MIN_EXPONENT then 2 else if Carries(a, b) then 1 else 0
  }

  /** Whether the nearest integer has one bit more than 53; a half goes to the even one. */
  predicate Carries(a: nat, b: nat) { 2 * a >= (2 * TWO53 - 1) * b }

  /** The double nearest to a / b times a power of two: the exponent is moved until 53 bits are in front of it. */
  function Rounded(a: nat, b: nat, e: int): Number
    requires b > 0 && e >= MIN_EXPONENT
    decreases Distance(a, b, e), if a >= TWO53 * b then a - b else e - MIN_EXPONENT, 1
  {
    if a >= TWO53 * b then Rounded(a, 2 * b, e + 1)
    else if a < TWO52 * b && e > MIN_EXPONENT then Rounded(2 * a, b, e - 1)
    else Settled(a, b, e)
  }

  function Settled(a: nat, b: nat, e: int): Number
    requires b > 0 && e >= MIN_EXPONENT && Distance(a, b, e) <= 1
    decreases Distance(a, b, e), 0, 0
  {
    if Carries(a, b) then Rounded(TWO53, 2, e + 1) else Double(NearestEven(a, b), e)
  }

  /** An integer times a power of two; what is too large is infinite. */
  function Double(q: nat, e: int): Number {
    if e > MAX_EXPONENT then NotWhole else if e >= 0 then Whole(Shifted(q, e)) else Halved(q, -e)
  }

  // ---------- the grammar ----------

  function TrimLeft(s: string): string {
    if s != "" && IsSpace(s[0]) then TrimLeft(s[1..]) else s
  }

  function TrimRight(s: string): string {
    if s != "" && IsSpace(s[|s| - 1]) then TrimRight(s[..|s| - 1]) else s
  }

  function ScanDigits(s: string): (i: nat)
    ensures i <= |s| && AllDigits(s[..i])
  {
    if s == "" || !IsDigit(s[0]) then 0
    else
      var i := ScanDigits(s[1..]);
      assert s[..i + 1] == [s[0]] + s[1..][..i];
      i + 1
  }

  function Radix(c: char): nat {
    if c == 'x' || c == 'X' then 16 else if c == 'o' || c == 'O' then 8 else if c == 'b' || c == 'B' then 2 else 0
  }

  /** The value of a digit in radices up to sixteen. */
  function DigitValue(c: char): Option<nat> {
    if IsDigit(c) then Some((c - '0') as nat)
    else if 'a' <= c <= 'f' then Some((c - 'a') as nat + 10)
    else if 'A' <= c <= 'F' then Some((c - 'A') as nat + 10)
    else None
  }

  function Appended(front: nat, radix: nat, d: nat): nat {
    (if radix == 16 then 16 * front else if radix == 8 then 8 * front else 2 * front) + d
  }

  function RadixValue(s: string, radix: nat): Option<nat> {
    if s == "" then Some(0)
    else
      var front, d := RadixValue(s[..|s| - 1], radix), DigitValue(s[|s| - 1]);
      if front.Some? && d.Some? && d.value < radix then Some(Appended(front.value, radix, d.value)) else None
  }

  /** The digits times a power of ten. */
  function Scaled(m: nat, exponent: int): Number {
    if exponent >= 0 then Rounded(TimesTen(m, exponent), 1, 0) else Rounded(m, TimesTen(1, -exponent), 0)
  }

  /** The exponent of a decimal literal: nothing, or a letter, a sign and digits. */
  function Exponent(s: string): Option<int> {
    if s == "" then Some(0)
    else if s[0] != 'e' && s[0] != 'E' then None
    else
      var signed := |s| > 1 && (s[1] == '+' || s[1] == '-');
      var digits := s[if signed then 2 else 1..];
      if digits == "" || !AllDigits(digits) then None
      else if signed && s[1] == '-' then Some(0 - DigitsValue(digits))
      else Some(DigitsValue(digits))
  }

  /** An unsigned decimal literal: digits, perhaps with a point, of which there is at least one. */
  function Decimal(s: string): Option<Number> {
    if s == "Infinity" then Some(NotWhole)
    else
      var i := ScanDigits(s);
      var point := i < |s| && s[i] == '.';
      var fraction := if point then s[i + 1..] else "";
      var k := ScanDigits(fraction);
      if i + k == 0 then None
      else
        BothDigits(s[..i], fraction[..k]);
        var m := DigitsValue(s[..i] + fraction[..k]);
        match Exponent(if point then fraction[k..] else s[i..])
        case None => None
        case Some(x) => Some(Scaled(m, x - k))
  }

  lemma BothDigits(a: string, b: string)
    requires AllDigits(a) && AllDigits(b)
    ensures AllDigits(a + b)
  {
  }

  predicate HasRadix(t: string) {
    |t| > 2 && t[0] == '0' && Radix(t[1]) > 0
  }

  function SignedDecimal(t: string): Option<Number>
    requires t != ""
  {
    if t[0] == '+' then Decimal(t[1..])
    else if t[0] == '-' then
      match Decimal(t[1..]) case None => None case Some(x) => Some(if x == Whole(0) then x else NotWhole)
    else Decimal(t)
  }

  function Converted(t: string): Option<Number> {
    if t == "" then Some(Whole(0))
    else if HasRadix(t) then
      match RadixValue(t[2..], Radix(t[1])) case None => None case Some(n) => Some(Rounded(n, 1, 0))
    else SignedDecimal(t)
  }

  /** Conversion of a text to a number; None when it is none. Nothing but white space counts as zero. */
  function ToNumber(s: string): Option<Number> {
    Converted(TrimRight(TrimLeft(s)))
  }

  // ---------- numbers that are printed and read ----------

  lemma {:induction false} PrintNatRoundTrip(n: nat)
    ensures AllDigits(PrintNat(n)) && PrintNat(n) != "" && DigitsValue(PrintNat(n)) == n
  {
    var s := PrintNat(n);
    if n < 10 {
      assert s[..0] == "";
    } else {
      PrintNatRoundTrip(n / 10);
      assert s[..|s| - 1] == PrintNat(n / 10);
    }
  }

  /** Safe integers are read back as they are. */
  lemma NumberOfPrinted(n: nat)
    requires n <= MAX_SAFE
    ensures ToNumber(PrintNat(n)) == Some(Whole(n))
  {
    PrintNatRoundTrip(n);
    DigitsAreNumber(PrintNat(n));
    SafeIsExact(n, 0);
  }

  /** Text of digits is the number they stand for, rounded. */
  lemma DigitsAreNumber(s: string)
    requires AllDigits(s) && s != ""
    ensures ToNumber(s) == Some(Rounded(DigitsValue(s), 1, 0))
  {
    assert s[0] in s && s[|s| - 1] in s;
    if |s| > 1 { assert s[1] in s; }
    NothingToTrim(s);
    NoRadixNoSign(s);
    DigitsAreDecimal(s);
  }

  lemma NothingToTrim(s: string)
    requires s != "" && !IsSpace(s[0]) && !IsSpace(s[|s| - 1])
    ensures TrimRight(TrimLeft(s)) == s
  {
  }

  lemma NoRadixNoSign(s: string)
    requires s != "" && IsDigit(s[0]) && (|s| > 1 ==> Radix(s[1]) == 0)
    ensures Converted(s) == Decimal(s)
  {
  }

  lemma DigitsAreDecimal(s: string)
    requires AllDigits(s) && s != ""
    ensures Decimal(s) == Some(Rounded(DigitsValue(s), 1, 0))
  {
    assert s[0] in s;
    AllScanned(s);
    assert s[..|s|] == s && s[|s|..] == "" && s + "" == s;
    assert ScanDigits("") == 0 && Exponent("") == Some(0);
  }

  lemma {:induction false} AllScanned(s: string)
    requires AllDigits(s)
    ensures ScanDigits(s) == |s|
  {
    if s != "" {
      assert s[0] in s;
      assert AllDigits(s[1..]) by { forall c | c in s[1..] ensures IsDigit(c) { assert c in s; } }
      AllScanned(s[1..]);
    }
  }

  /** Doubling a safe integer until it has 53 bits does not change what it stands for. */
  lemma {:induction false} SafeIsExact(a: nat, e: int)
    requires a <= MAX_SAFE && MIN_EXPONENT <= e <= 0
    ensures Rounded(a, 1, e) == Halved(a, -e)
    decreases e - MIN_EXPONENT
  {
    if a < TWO52 && e > MIN_EXPONENT {
      SafeIsExact(2 * a, e - 1);
      DoubledHalved(a, -e);
    } else {
      OverOne(a, 1);
    }
  }

  lemma DoubledHalved(m: nat, k: nat)
    ensures Halved(2 * m, k + 1) == Halved(m, k)
  {
  }

  lemma OverOne(a: nat, b: nat)
    requires b == 1
    ensures NearestEven(a, b) == a
  {
    DividedIsQuotient(a, b);
  }

  lemma {:induction false} DividedIsQuotient(a: nat, b: nat)
    requires b > 0
    ensures var (q, r) := Divided(a, b); a == q * b + r && r < b
  {
    if a >= b {
      DividedIsQuotient(a / 2, b);
      Doubles(Divided(a / 2, b).0, b);
    }
  }

  lemma Doubles(q: nat, b: nat)
    ensures 2 * q * b == 2 * (q * b) && (2 * q + 1) * b == 2 * (q * b) + b
  {
  }

  // ---------- numbers that are not natural ----------

  /** One and a half is accepted as a number, and so is infinity. */
  lemma AcceptedButNotWhole()
    ensures ToNumber("1.5") == Some(NotWhole) && ToNumber("Infinity") == Some(NotWhole)
  {
    NothingToTrim("1.5");
    NoRadixNoSign("1.5");
    OneAndAHalf();
    NothingToTrim("Infinity");
    assert Converted("Infinity") == Decimal("Infinity");
  }

  lemma OneAndAHalf()
    ensures Decimal("1.5") == Some(NotWhole)
  {
    var s := "1.5";
    assert s[1..] == ".5" && s[2..] == "5";
    assert ScanDigits(s) == 1 && s[..1] == "1";
    AllScanned("5");
    assert s[2..][..1] == "5" && s[2..][1..] == "" && "1" + "5" == "15";
    FifteenTenths();
  }

  lemma FifteenTenths()
    ensures DigitsValue("15") == 15 && Scaled(15, -1) == NotWhole
  {
    assert "15"[..1] == "1" && "1"[..0] == "";
    assert TimesTen(1, 1) == TimesTen(10, 0) == 10;
    OddHalf(15, 10, 3);
  }

  /** Three halves, however they are written. */
  lemma OddHalf(a: nat, b: nat, m: nat)
    requires a == 15 && b == 10 && m == 3
    ensures Rounded(a, b, 0) == NotWhole
  {
    Power51();
    ShiftedScales(a, 51);
    ShiftedScales(a, 52);
    ShiftedScales(m, 51);
    Doubled(a, b, 0, 52);
    Normal(Shifted(a, 52), b, -52, Shifted(m, 51));
    HalvedShifted(m, 51, 1);
    assert Halved(m, 1) == NotWhole;
  }

  /** A fraction with 53 bits in front of the exponent, and no remainder. */
  lemma Normal(a: nat, b: nat, e: int, q: nat)
    requires b == 10 && a == 10 * q && TWO52 <= q < TWO53 && MIN_EXPONENT <= e <= 0
    ensures Rounded(a, b, e) == Halved(q, -e)
  {
    DividedIsQuotient(a, b);
    assert NearestEven(a, b) == q;
  }

  /** As long as there are less than 53 bits in front of the exponent, the numerator is doubled. */
  lemma {:induction false} Doubled(a: nat, b: nat, e: int, k: nat)
    requires b > 0 && e - k >= MIN_EXPONENT && (k > 0 ==> Shifted(a, k - 1) < TWO52 * b)
    ensures Rounded(a, b, e) == Rounded(Shifted(a, k), b, e - k)
    decreases k
  {
    if k > 0 {
      Doubled(2 * a, b, e - 1, k - 1);
    }
  }

  lemma {:induction false} HalvedShifted(m: nat, i: nat, j: nat)
    ensures Halved(Shifted(m, i), i + j) == Halved(m, j)
    decreases i
  {
    if i > 0 {
      HalvedShifted(2 * m, i - 1, j + 1);
      DoubledHalved(m, j);
    }
  }

  lemma {:induction false} ShiftedScales(m: nat, k: nat)
    ensures Shifted(m, k) == m * Shifted(1, k)
    decreases k
  {
    if k > 0 {
      ShiftedScales(2 * m, k - 1);
      ShiftedScales(2, k - 1);
      Regrouped(m, Shifted(1, k - 1));
    }
  }

  lemma Regrouped(m: nat, p: nat)
    ensures 2 * m * p == m * (2 * p)
  {
  }

  lemma Power51()
    ensures 2 * Shifted(1, 51) == Shifted(1, 52) == TWO52
  {
    assert Shifted(1, 4) == Shifted(2, 3) == Shifted(4, 2) == Shifted(8, 1) == Shifted(16, 0);
    Products(4, 0x10, 4, 0x10);
    Products(8, 0x100, 8, 0x100);
    Products(16, 0x10000, 16, 0x10000);
    Products(32, 0x1_0000_0000, 16, 0x10000);
    Products(48, 0x1_0000_0000_0000, 4, 0x10);
    ShiftedScales(2, 51);
  }

  lemma Products(i: nat, p: nat, j: nat, q: nat)
    requires Shifted(1, i) == p && Shifted(1, j) == q
    ensures Shifted(1, i + j) == p * q
  {
    ShiftedTwice(1, i, j);
    ShiftedScales(p, j);
  }

  lemma {:induction false} ShiftedTwice(m: nat, i: nat, j: nat)
    ensures Shifted(m, i + j) == Shifted(Shifted(m, i), j)
    decreases i
  {
    if i > 0 {
      ShiftedTwice(2 * m, i - 1, j);
    }
  }
}
