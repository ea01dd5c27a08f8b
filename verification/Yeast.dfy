/**
  The growing-id generator that names packets and therefore session offsets: a clock reading printed
  in base 64, followed by a counter when the same reading occurs again.
 */
module Yeast {
  import opened Common

  const BASE: nat := 64

  /** The alphabet 0-9 A-Z a-z - _ in this order. */
  function DigitChar(d: nat): char
    requires d < BASE
  {
    if d < 10 then '0' + d as char
    else if d < 36 then 'A' + (d - 10) as char
    else if d < 62 then 'a' + (d - 36) as char
    else if d == 62 then '-'
    else '_'
  }

  /** Positional representation, most significant digit first, at least one digit. */
  function Encoded(n: nat): string {
    if n < BASE then [DigitChar(n)] else Encoded(n / BASE) + [DigitChar(n % BASE)]
  }

  /** Digits are prepended until the number is used up. */
  method Encode(n: nat) returns (encoded: string)
    ensures encoded == Encoded(n)
  {
    encoded := [DigitChar(n % BASE)];
    var num := n / BASE;
    while num > 0
      invariant (if num > 0 then Encoded(num) else "") + encoded == Encoded(n)
      decreases num
    {
      ghost var rest := if num >= BASE then Encoded(num / BASE) else "";
      assert Encoded(num) == rest + [DigitChar(num % BASE)];
      assert rest + ([DigitChar(num % BASE)] + encoded) == Encoded(num) + encoded;
      encoded := [DigitChar(num % BASE)] + encoded;
      num := num / BASE;
    }
  }

  // ---------- the printer is injective ----------

  function CharDigit(c: char): nat {
    if '0' <= c <= '9' then (c - '0') as nat
    else if 'A' <= c <= 'Z' then (c - 'A') as nat + 10
    else if 'a' <= c <= 'z' then (c - 'a') as nat + 36
    else if c == '-' then 62
    else 63
  }

  /** The inverse of the printer. */
  function Value(s: string): nat {
    if s == "" then 0 else Value(s[..|s| - 1]) * BASE + CharDigit(s[|s| - 1])
  }

  lemma {:induction false} PrintRoundTrip(n: nat)
    ensures Value(Encoded(n)) == n
    ensures '.' !in Encoded(n) && Encoded(n) != ""
  {
    var s := Encoded(n);
    if n < BASE {
      assert s[..0] == "";
    } else {
      PrintRoundTrip(n / BASE);
      assert s[..|s| - 1] == Encoded(n / BASE);
    }
  }

  // ---------- the generator ----------

  datatype Seen = Never | Last(encoded: string)

  class Generator {
    var seed: nat
    var prev: Seen

    constructor ()
      ensures seed == 0 && prev == Never
    {
      seed, prev := 0, Never;
    }

    /** A new id, at clock reading `now`. */
    method Next(now: nat) returns (id: string)
      modifies this
      ensures State(seed, prev) == Advance(State(old(seed), old(prev)), now).0
      ensures id == Advance(State(old(seed), old(prev)), now).1
    {
      var encoded := Encode(now);
      if Last(encoded) != prev {
        seed := 0;
        prev := Last(encoded);
        return encoded;
      }
      var suffix := Encode(seed);
      seed := seed + 1;
      return encoded + "." + suffix;
    }
  }

  datatype State = State(seed: nat, prev: Seen)

  function Advance(s: State, now: nat): (State, string) {
    if Last(Encoded(now)) != s.prev then (State(0, Last(Encoded(now))), Encoded(now))
    else (s.(seed := s.seed + 1), Encoded(now) + "." + Encoded(s.seed))
  }

  /** The state after a run of calls at the given clock readings, and the ids they returned. */
  function Run(clock: seq<nat>): (State, seq<string>) {
    if clock == [] then (State(0, Never), [])
    else
      var (s, ids) := Run(clock[..|clock| - 1]);
      var (s', id) := Advance(s, clock[|clock| - 1]);
      (s', ids + [id])
  }

  function Ids(clock: seq<nat>): (ids: seq<string>)
    ensures |ids| == |clock|
  {
    RunLength(clock);
    Run(clock).1
  }

  lemma RunLength(clock: seq<nat>)
    ensures |Run(clock).1| == |clock|
  {
  }

  lemma IdsSnoc(clock: seq<nat>, now: nat)
    ensures Ids(clock + [now]) == Ids(clock) + [Advance(Run(clock).0, now).1]
  {
    assert (clock + [now])[..|clock|] == clock;
  }

  ghost predicate NonDecreasing(clock: seq<nat>) {
    forall i, j | 0 <= i < j < |clock| :: clock[i] <= clock[j]
  }

  /** Equal readings are next to each other. */
  ghost predicate Contiguous(clock: seq<nat>) {
    forall i, j, k | 0 <= i < j < k < |clock| && clock[i] == clock[k] :: clock[j] == clock[i]
  }

  /** How many of the readings just before position `i` equal the one at `i`. */
  function Repeats(clock: seq<nat>, i: nat): nat
    requires i < |clock|
  {
    if i > 0 && clock[i - 1] == clock[i] then Repeats(clock, i - 1) + 1 else 0
  }

  function Render(t: nat, k: nat): string {
    if k == 0 then Encoded(t) else Encoded(t) + "." + Encoded(k - 1)
  }

  /** Every id spells out its reading and the number of equal readings just before. */
  lemma {:induction false} IdsAreRendered(clock: seq<nat>)
    ensures clock != [] ==>
              Run(clock).0 == State(Repeats(clock, |clock| - 1), Last(Encoded(clock[|clock| - 1])))
    ensures clock == [] ==> Run(clock).0 == State(0, Never)
    ensures forall i | 0 <= i < |clock| :: Ids(clock)[i] == Render(clock[i], Repeats(clock, i))
  {
    if clock != [] {
      var last := |clock| - 1;
      IdsAreRendered(clock[..last]);
      assert Ids(clock)[..last] == Ids(clock[..last]);
      forall i | 0 <= i < last ensures Repeats(clock[..last], i) == Repeats(clock, i) {
        RepeatsPrefix(clock, last, i);
      }
      if last > 0 {
        PrintRoundTrip(clock[last]);
        PrintRoundTrip(clock[last - 1]);
      }
    }
  }

  lemma RepeatsPrefix(clock: seq<nat>, n: nat, i: nat)
    requires i < n <= |clock|
    ensures Repeats(clock[..n], i) == Repeats(clock, i)
  {
  }

  function BeforeDot(s: string): string {
    if s == "" || s[0] == '.' then "" else [s[0]] + BeforeDot(s[1..])
  }

  lemma {:induction false} BeforeDotSplits(a: string, b: string)
    requires '.' !in a
    ensures BeforeDot(a + "." + b) == a && BeforeDot(a) == a
  {
    if a != "" {
      assert (a + "." + b)[1..] == a[1..] + "." + b;
      BeforeDotSplits(a[1..], b);
    }
  }

  lemma DottedInjective(a: string, b: string, a': string, b': string)
    requires '.' !in a && '.' !in a' && a + "." + b == a' + "." + b'
    ensures a == a' && b == b'
  {
    BeforeDotSplits(a, b);
    BeforeDotSplits(a', b');
    assert b == (a + "." + b)[|a| + 1..];
    assert b' == (a' + "." + b')[|a| + 1..];
  }

  lemma RenderInjective(t: nat, k: nat, t': nat, k': nat)
    requires Render(t, k) == Render(t', k')
    ensures t == t' && k == k'
  {
    PrintRoundTrip(t);
    PrintRoundTrip(t');
    if k == 0 || k' == 0 {
      UndottedInjective(t, k, t', k');
    } else {
      DottedInjective(Encoded(t), Encoded(k - 1), Encoded(t'), Encoded(k' - 1));
      PrintRoundTrip(k - 1);
      PrintRoundTrip(k' - 1);
    }
  }

  lemma UndottedInjective(t: nat, k: nat, t': nat, k': nat)
    requires Render(t, k) == Render(t', k') && (k == 0 || k' == 0)
    ensures Encoded(t) == Encoded(t') && k == k'
  {
    DotShowsCounter(t, k);
    DotShowsCounter(t', k');
  }

  lemma DotShowsCounter(t: nat, k: nat)
    ensures '.' in Render(t, k) <==> k > 0
  {
    PrintRoundTrip(t);
    if k > 0 {
      assert (Encoded(t) + "." + Encoded(k - 1))[|Encoded(t)|] == '.';
    }
  }

  /** The ids of a run are distinct exactly when no clock reading comes back after a different one. */
  lemma DistinctIffContiguous(clock: seq<nat>)
    ensures Distinct(Ids(clock)) <==> Contiguous(clock)
  {
    if Contiguous(clock) {
      forall i, j | 0 <= i < j < |clock| ensures Ids(clock)[i] != Ids(clock)[j] {
        ContiguousDiffer(clock, i, j);
      }
    } else {
      var i, j, k :| 0 <= i < j < k < |clock| && clock[i] == clock[k] && clock[j] != clock[i];
      ReturnRepeats(clock, i, j, k);
    }
  }

  lemma ContiguousDiffer(clock: seq<nat>, i: nat, j: nat)
    requires Contiguous(clock) && i < j < |clock|
    ensures Ids(clock)[i] != Ids(clock)[j]
  {
    IdsAreRendered(clock);
    if Ids(clock)[i] == Ids(clock)[j] {
      RenderInjective(clock[i], Repeats(clock, i), clock[j], Repeats(clock, j));
      RepeatsGrow(clock, i, j);
    }
  }

  lemma ReturnRepeats(clock: seq<nat>, i: nat, j: nat, k: nat)
    requires i < j < k < |clock| && clock[i] == clock[k] && clock[j] != clock[i]
    ensures !Distinct(Ids(clock))
  {
    IdsAreRendered(clock);
    var a := StartOfGroup(clock, i);
    var b := StartOfGroup(clock, k);
    assert Ids(clock)[a] == Ids(clock)[b];
  }

  lemma {:induction false} RepeatsGrow(clock: seq<nat>, i: nat, j: nat)
    requires i < j < |clock| && clock[i] == clock[j] && Contiguous(clock)
    ensures Repeats(clock, i) < Repeats(clock, j)
  {
    assert clock[j - 1] == clock[j] by {
      if i < j - 1 { assert clock[j - 1] == clock[i]; }
    }
    if i < j - 1 {
      RepeatsGrow(clock, i, j - 1);
    }
  }

  lemma {:induction false} StartOfGroup(clock: seq<nat>, i: nat) returns (a: nat)
    requires i < |clock|
    ensures a <= i && Repeats(clock, a) == 0
    ensures clock[a] == clock[i]
    ensures forall x | 0 <= x <= i && clock[x] != clock[i] :: x < a
  {
    if Repeats(clock, i) == 0 {
      a := i;
    } else {
      a := StartOfGroup(clock, i - 1);
    }
  }

  /** A clock that never goes back gives distinct ids. */
  lemma MonotoneClockGivesDistinctIds(clock: seq<nat>)
    requires NonDecreasing(clock)
    ensures Distinct(Ids(clock))
  {
    DistinctIffContiguous(clock);
  }

  /** A clock that steps back and forth does not. */
  lemma ClockStepBackRepeatsId()
    ensures !Distinct(Ids([5, 4, 5]))
  {
    var clock := [5, 4, 5];
    assert clock[0] == clock[2] && clock[1] != clock[0];
    DistinctIffContiguous(clock);
  }
}
