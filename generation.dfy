/** The first half of `EarTrainingGame.generate_test_sequence`: drawing the
    scale degrees, drawing one octave per position, and combining degree,
    octave and key into absolute MIDI notes.

    The calls into `random` are replaced by draw oracles: the k-th call of
    `random.choice(xs)` picks `xs[draws(k) % |xs|]`, `random.randint(1, n)`
    gives `1 + draws(0) % n`, and `low(k)` says whether the k-th
    `random.random()` fell below 0.75.  Every property below holds for every
    oracle, and the completeness lemmas show that every sequence allowed by
    the rules comes out of some oracle. */
module Generation {
  import opened Wrappers
  import Tables

  /** Why generation raises before any note is produced. */
  datatype GenError =
    | EmptyMode         // random.choice on the empty "Custom" mode: IndexError
    | NoNextDegree      // no degree of the mode differs from the previous one: IndexError
    | EmptyOctaveRange  // random.randint(1, octave_range) with octave_range < 1: ValueError

  /** The length the `while` loop reaches: the first note is drawn unconditionally. */
  function AtLeastOne(n: int): (m: nat)
    ensures m >= 1 && (n >= 1 ==> m == n)
  {
    if n < 1 then 1 else n
  }

  /** `[x for x in xs if x != y]`. */
  function Without(xs: seq<int>, y: int): (r: seq<int>)
    ensures forall x {:trigger x in r} :: x in r <==> x in xs && x != y
  {
    if xs == [] then [] else (if xs[0] == y then [] else [xs[0]]) + Without(xs[1..], y)
  }

  /** Nothing is left when every element is the excluded one. */
  lemma {:induction false} WithoutOnlyExcluded(xs: seq<int>, y: int)
    requires forall x :: x in xs ==> x == y
    ensures Without(xs, y) == []
  {
    if xs != [] {
      assert xs[0] in xs;
      assert forall x :: x in xs[1..] ==> x in xs;
      WithoutOnlyExcluded(xs[1..], y);
    }
  }

  /** `random.choice(xs)` driven by a draw. */
  function Pick(xs: seq<int>, draw: int): (x: int)
    requires |xs| > 0
    ensures x in xs
  {
    xs[draw % |xs|]
  }

  /** The position of `x` in `xs`: the draw that makes `Pick` return `x`. */
  function IndexOf(xs: seq<int>, x: int): (k: nat)
    requires x in xs
    ensures k < |xs| && xs[k] == x
  {
    if xs[0] == x then 0 else 1 + IndexOf(xs[1..], x)
  }

  /** A remainder by a larger divisor leaves the dividend alone. */
  lemma SmallRemainder(i: int, n: int)
    requires 0 <= i < n
    ensures i % n == i
  {
  }

  lemma PickIndexOf(xs: seq<int>, x: int)
    requires x in xs
    ensures Pick(xs, IndexOf(xs, x)) == x
  {
    var k := IndexOf(xs, x);
    assert k % |xs| == k;
  }

  ghost predicate NoAdjacentRepeat(s: seq<int>)
  {
    forall i, j :: 0 <= i < j < |s| && j == i + 1 ==> s[i] != s[j]
  }

  predicate DrawnFrom(s: seq<int>, mode: seq<int>)
  {
    forall i :: 0 <= i < |s| ==> s[i] in mode
  }

  /** A mode whose degrees are all one value (or that is empty). */
  predicate AllSame(mode: seq<int>)
  {
    forall i, j :: 0 <= i < |mode| && 0 <= j < |mode| ==> mode[i] == mode[j]
  }

  /** The first `len` scale degrees the `while` loop builds, or None when a
      `random.choice` meets an empty list. */
  function Degrees(mode: seq<int>, draws: int -> int, len: nat): (r: Option<seq<int>>)
    requires len >= 1
    ensures r.Some? ==> |r.value| == len
    decreases len
  {
    if len == 1 then
      if |mode| == 0 then None else Some([Pick(mode, draws(0))])
    else
      match Degrees(mode, draws, len - 1)
      case None => None
      case Some(s) =>
        var candidates := Without(mode, s[|s| - 1]);
        if |candidates| == 0 then None else Some(s + [Pick(candidates, draws(len - 1))])
  }

  /** Appending a degree of the mode that differs from the last keeps both rules. */
  lemma DegreesSnoc(s: seq<int>, x: int, mode: seq<int>)
    requires |s| >= 1 && DrawnFrom(s, mode) && NoAdjacentRepeat(s)
    requires x in mode && x != s[|s| - 1]
    ensures DrawnFrom(s + [x], mode) && NoAdjacentRepeat(s + [x])
  {
  }

  /** Every generated degree comes from the mode, and no degree follows itself. */
  lemma {:induction false} DegreesSound(mode: seq<int>, draws: int -> int, len: nat, s: seq<int>)
    requires len >= 1 && Degrees(mode, draws, len) == Some(s)
    ensures DrawnFrom(s, mode) && NoAdjacentRepeat(s)
    decreases len
  {
    if len == 1 {
      DegreesFirst(mode, draws);
    } else {
      var p := Degrees(mode, draws, len - 1).value;
      DegreesSound(mode, draws, len - 1, p);
      var last := p[|p| - 1];
      var x := Pick(Without(mode, last), draws(len - 1));
      DegreesStep(mode, draws, len, p, last, x);
      DegreesSnoc(p, x, mode);
    }
  }

  /** Generation fails exactly for the empty mode, and for a mode with a single
      value when more than one note is asked for; the draws play no part. */
  lemma {:induction false} DegreesFailure(mode: seq<int>, draws: int -> int, len: nat)
    requires len >= 1
    ensures Degrees(mode, draws, len).None? <==> |mode| == 0 || (len > 1 && AllSame(mode))
    decreases len
  {
    if len > 1 {
      DegreesFailure(mode, draws, len - 1);
      match Degrees(mode, draws, len - 1)
      case None =>
      case Some(s) =>
        var last := s[|s| - 1];
        assert last in mode;
        if AllSame(mode) {
          forall x | x in mode ensures x == last {
            var i :| 0 <= i < |mode| && mode[i] == x;
            var j :| 0 <= j < |mode| && mode[j] == last;
          }
          WithoutOnlyExcluded(mode, last);
        } else {
          var i, j :| 0 <= i < |mode| && 0 <= j < |mode| && mode[i] != mode[j];
          var other := if mode[i] != last then mode[i] else mode[j];
          assert other in Without(mode, last);
        }
    }
  }

  /** The draws that reproduce a given degree sequence. */
  function DegreeWitness(mode: seq<int>, s: seq<int>, k: int): nat
  {
    if k == 0 then
      if |s| > 0 && s[0] in mode then IndexOf(mode, s[0]) else 0
    else if 0 < k < |s| && s[k] in Without(mode, s[k - 1]) then IndexOf(Without(mode, s[k - 1]), s[k])
    else 0
  }

  /** The seed note. */
  lemma DegreesFirst(mode: seq<int>, draws: int -> int)
    requires |mode| > 0
    ensures Degrees(mode, draws, 1) == Some([Pick(mode, draws(0))])
  {
  }

  /** One more turn of the loop, when the previous note leaves a candidate. */
  lemma DegreesStep(mode: seq<int>, draws: int -> int, len: nat, prefix: seq<int>, last: int, x: int)
    requires len >= 2 && Degrees(mode, draws, len - 1) == Some(prefix)
    requires |prefix| >= 1 && prefix[|prefix| - 1] == last
    requires |Without(mode, last)| > 0 && Pick(Without(mode, last), draws(len - 1)) == x
    ensures Degrees(mode, draws, len) == Some(prefix + [x])
  {
  }

  lemma SliceSnoc(s: seq<int>, n: nat)
    requires 1 <= n <= |s|
    ensures s[..n] == s[..n - 1] + [s[n - 1]]
  {
  }

  /** The witness draw at position k picks `s[k]` among the degrees other than `s[k - 1]`. */
  lemma DegreeWitnessSteers(mode: seq<int>, s: seq<int>, k: nat)
    requires DrawnFrom(s, mode) && NoAdjacentRepeat(s) && 0 < k < |s|
    ensures |Without(mode, s[k - 1])| > 0 && Pick(Without(mode, s[k - 1]), DegreeWitness(mode, s, k)) == s[k]
  {
    assert s[k] in Without(mode, s[k - 1]);
    PickIndexOf(Without(mode, s[k - 1]), s[k]);
  }

  /** The witness draw makes the seed note `s[0]`. */
  lemma DegreesReproduceFirst(mode: seq<int>, s: seq<int>, draws: int -> int)
    requires 1 <= |s| && DrawnFrom(s, mode)
    requires draws(0) == DegreeWitness(mode, s, 0)
    ensures Degrees(mode, draws, 1) == Some(s[..1])
  {
    assert s[0] in mode;
    PickIndexOf(mode, s[0]);
    assert s[..1] == [s[0]];
  }

  /** Extending a rebuilt prefix by one witness draw. */
  lemma DegreesReproduceStep(mode: seq<int>, s: seq<int>, draws: int -> int, len: nat)
    requires 2 <= len <= |s| && DrawnFrom(s, mode) && NoAdjacentRepeat(s)
    requires draws(len - 1) == DegreeWitness(mode, s, len - 1)
    requires Degrees(mode, draws, len - 1) == Some(s[..len - 1])
    ensures Degrees(mode, draws, len) == Some(s[..len])
  {
    DegreeWitnessSteers(mode, s, len - 1);
    DegreesStep(mode, draws, len, s[..len - 1], s[len - 2], s[len - 1]);
    SliceSnoc(s, len);
  }

  /** Witness draws make the loop rebuild `s`, prefix by prefix. */
  lemma {:induction false} DegreesReproduce(mode: seq<int>, s: seq<int>, draws: int -> int, len: nat)
    requires 1 <= len <= |s| && DrawnFrom(s, mode) && NoAdjacentRepeat(s)
    requires forall k :: draws(k) == DegreeWitness(mode, s, k)
    ensures Degrees(mode, draws, len) == Some(s[..len])
    decreases len
  {
    if len == 1 {
      DegreesReproduceFirst(mode, s, draws);
    } else {
      DegreesReproduce(mode, s, draws, len - 1);
      DegreesReproduceStep(mode, s, draws, len);
    }
  }

  /** Every sequence of degrees from the mode without immediate repeats is
      the outcome of some draws: the model rules out nothing the source allows. */
  lemma DegreesComplete(mode: seq<int>, s: seq<int>)
    requires |s| >= 1 && DrawnFrom(s, mode) && NoAdjacentRepeat(s)
    ensures exists draws: int -> int :: Degrees(mode, draws, |s|) == Some(s)
  {
    var draws := (k: int) => DegreeWitness(mode, s, k);
    DegreesReproduce(mode, s, draws, |s|);
    assert s[..|s|] == s;
  }

  /** The loop raises only when every degree of the mode is the previous one. */
  lemma NoCandidateMeansAllSame(mode: seq<int>, last: int)
    requires last in mode && |Without(mode, last)| == 0
    ensures AllSame(mode)
  {
    forall i, j | 0 <= i < |mode| && 0 <= j < |mode|
      ensures mode[i] == mode[j]
    {
      assert mode[i] !in Without(mode, last) && mode[j] !in Without(mode, last);
    }
  }

  lemma TwoDegreesNotAllSame(mode: seq<int>, a: int, b: int)
    requires a in mode && b in mode && a != b
    ensures !AllSame(mode)
  {
  }

  /** Lines 244-249: the seed note, then the `while` loop of appends. */
  method GenerateDegrees(mode: seq<int>, numberOfNotes: int, draws: int -> int)
    returns (r: Result<seq<int>, GenError>)
    ensures r.Failure? <==> |mode| == 0 || (numberOfNotes > 1 && AllSame(mode))
    ensures r.Failure? ==> r.error == if |mode| == 0 then EmptyMode else NoNextDegree
    ensures r.Success? ==> Degrees(mode, draws, AtLeastOne(numberOfNotes)) == Some(r.value)
    ensures r.Success? ==> |r.value| == AtLeastOne(numberOfNotes)
    ensures r.Success? ==> DrawnFrom(r.value, mode) && NoAdjacentRepeat(r.value)
  {
    if |mode| == 0 {
      return Failure(EmptyMode);
    }
    var last := Pick(mode, draws(0));
    var sequence := [last];
    DegreesFirst(mode, draws);
    var n := 1;
    while n < numberOfNotes
      invariant 1 <= n <= AtLeastOne(numberOfNotes) && |sequence| == n
      invariant Degrees(mode, draws, n) == Some(sequence)
      invariant sequence[n - 1] == last && last in mode
      invariant n > 1 ==> !AllSame(mode)
      decreases numberOfNotes - n
    {
      var candidates := Without(mode, last);
      if |candidates| == 0 {
        NoCandidateMeansAllSame(mode, last);
        return Failure(NoNextDegree);
      }
      var next := Pick(candidates, draws(n));
      DegreesStep(mode, draws, n + 1, sequence, last, next);
      TwoDegreesNotAllSame(mode, last, next);
      sequence := sequence + [next];
      last := next;
      n := n + 1;
    }
    DegreesSound(mode, draws, n, sequence);
    return Success(sequence);
  }

  /** `[octave for octave in range(1, hi + 1) if octave != prev]`. */
  function OtherOctaves(hi: int, prev: int): (r: seq<int>)
    ensures forall x {:trigger x in r} :: x in r <==> 1 <= x <= hi && x != prev
  {
    if hi < 1 then [] else OtherOctaves(hi - 1, prev) + (if hi == prev then [] else [hi])
  }

  /** Below the excluded octave the list is 1..hi in order. */
  lemma {:induction false} OtherOctavesBelow(hi: int, prev: int)
    requires 0 <= hi < prev
    ensures |OtherOctaves(hi, prev)| == hi
    ensures forall i :: 0 <= i < hi ==> OtherOctaves(hi, prev)[i] == i + 1
    decreases hi
  {
    if hi > 0 {
      OtherOctavesBelow(hi - 1, prev);
    }
  }

  /** Position i holds octave i + 1 below the excluded octave and i + 2 from it on. */
  lemma {:induction false} OtherOctavesAt(hi: int, prev: int)
    requires 1 <= prev <= hi
    ensures |OtherOctaves(hi, prev)| == hi - 1
    ensures forall i :: 0 <= i < hi - 1 ==> OtherOctaves(hi, prev)[i] == if i + 1 < prev then i + 1 else i + 2
    decreases hi
  {
    if hi == prev {
      OtherOctavesBelow(hi - 1, prev);
    } else {
      OtherOctavesAt(hi - 1, prev);
    }
  }

  predicate OctavesWithin(octaves: seq<int>, octaveRange: int)
  {
    forall i :: 0 <= i < |octaves| ==> 1 <= octaves[i] <= octaveRange
  }

  /** After an octave other than 1 the next octave changes. */
  ghost predicate OctavePolicy(octaves: seq<int>)
  {
    forall i, j :: 0 <= i < j < |octaves| && j == i + 1 && octaves[i] != 1 ==> octaves[j] != octaves[i]
  }

  /** One pass of the `for` loop body (lines 259-266). */
  function NextOctave(prev: int, octaveRange: int, low: bool, draw: int): (o: int)
    requires octaveRange >= 1
    ensures 1 <= o <= octaveRange
    ensures prev != 1 ==> o != prev
    ensures octaveRange == 1 ==> o == 1
  {
    var others := OtherOctaves(octaveRange, prev);
    if prev == 1 then
      if low then 1
      else if |others| == 0 then 1  // the IndexError of random.choice([]) is caught
      else Pick(others, draw)
    else
      assert 1 in others;
      Pick(others, draw)
  }

  /** The first `len` octaves the `for` loop builds, or None when the
      initial `random.randint` has an empty range. */
  function Octaves(octaveRange: int, low: int -> bool, draws: int -> int, len: nat): (r: Option<seq<int>>)
    requires len >= 1
    ensures r.Some? <==> octaveRange >= 1
    ensures r.Some? ==> |r.value| == len
    decreases len
  {
    if len == 1 then
      if octaveRange < 1 then None else Some([1 + draws(0) % octaveRange])
    else
      match Octaves(octaveRange, low, draws, len - 1)
      case None => None
      case Some(s) => Some(s + [NextOctave(s[|s| - 1], octaveRange, low(len - 1), draws(len - 1))])
  }

  /** Appending an octave that obeys the rule keeps the whole list within it. */
  lemma OctavesSnoc(s: seq<int>, x: int, octaveRange: int)
    requires |s| >= 1 && OctavesWithin(s, octaveRange) && OctavePolicy(s)
    requires 1 <= x <= octaveRange && (s[|s| - 1] != 1 ==> x != s[|s| - 1])
    ensures OctavesWithin(s + [x], octaveRange) && OctavePolicy(s + [x])
  {
  }

  /** One more octave keeps the list within the rule. */
  lemma OctavesSoundStep(octaveRange: int, low: int -> bool, draws: int -> int, len: nat, s: seq<int>)
    requires len >= 2 && octaveRange >= 1 && Octaves(octaveRange, low, draws, len - 1) == Some(s)
    requires OctavesWithin(s, octaveRange) && OctavePolicy(s)
    ensures OctavesWithin(Octaves(octaveRange, low, draws, len).value, octaveRange)
    ensures OctavePolicy(Octaves(octaveRange, low, draws, len).value)
  {
    var last := s[|s| - 1];
    var x := NextOctave(last, octaveRange, low(len - 1), draws(len - 1));
    OctavesStep(octaveRange, low, draws, len, s, last, x);
    OctavesSnoc(s, x, octaveRange);
  }

  /** Every octave lies in 1..octave_range, and after an octave other than 1
      the next one differs. */
  lemma {:induction false} OctavesSound(octaveRange: int, low: int -> bool, draws: int -> int, len: nat)
    requires len >= 1 && octaveRange >= 1
    ensures OctavesWithin(Octaves(octaveRange, low, draws, len).value, octaveRange)
    ensures OctavePolicy(Octaves(octaveRange, low, draws, len).value)
    decreases len
  {
    if len == 1 {
      OctavesFirst(octaveRange, low, draws);
    } else {
      OctavesSound(octaveRange, low, draws, len - 1);
      OctavesSoundStep(octaveRange, low, draws, len, Octaves(octaveRange, low, draws, len - 1).value);
    }
  }

  /** With a range of one octave every octave is 1. */
  lemma SingleOctaveRange(low: int -> bool, draws: int -> int, len: nat)
    requires len >= 1
    ensures Octaves(1, low, draws, len).Some?
    ensures forall i :: 0 <= i < len ==> Octaves(1, low, draws, len).value[i] == 1
  {
    OctavesSound(1, low, draws, len);
  }

  /** The coin and the draws that reproduce a given octave sequence. */
  function OctaveCoin(octaves: seq<int>, k: int): bool
  {
    0 <= k < |octaves| && octaves[k] == 1
  }

  function OctaveWitness(octaves: seq<int>, octaveRange: int, k: int): nat
  {
    if k == 0 then
      if |octaves| > 0 && octaves[0] >= 1 then octaves[0] - 1 else 0
    else if 0 < k < |octaves| && 1 <= octaves[k] < octaves[k - 1] then octaves[k] - 1
    else if 0 < k < |octaves| && octaves[k] > octaves[k - 1] >= 1 then octaves[k] - 2
    else 0
  }

  /** The initial `randint`. */
  lemma OctavesFirst(octaveRange: int, low: int -> bool, draws: int -> int)
    requires octaveRange >= 1
    ensures Octaves(octaveRange, low, draws, 1) == Some([1 + draws(0) % octaveRange])
  {
  }

  /** One more pass of the loop. */
  lemma OctavesStep(octaveRange: int, low: int -> bool, draws: int -> int, len: nat, prefix: seq<int>, last: int, x: int)
    requires len >= 2 && octaveRange >= 1 && Octaves(octaveRange, low, draws, len - 1) == Some(prefix)
    requires |prefix| >= 1 && prefix[|prefix| - 1] == last
    requires NextOctave(last, octaveRange, low(len - 1), draws(len - 1)) == x
    ensures Octaves(octaveRange, low, draws, len) == Some(prefix + [x])
  {
  }

  /** Which draw makes `random.choice` over the other octaves return `next`. */
  lemma OtherOctavesPick(hi: int, prev: int, next: int)
    requires 1 <= prev <= hi && 1 <= next <= hi && next != prev
    ensures |OtherOctaves(hi, prev)| == hi - 1
    ensures Pick(OtherOctaves(hi, prev), if next < prev then next - 1 else next - 2) == next
  {
    var others := OtherOctaves(hi, prev);
    OtherOctavesAt(hi, prev);
    var i := if next < prev then next - 1 else next - 2;
    SmallRemainder(i, |others|);
    assert others[i] == next;
  }

  /** The witness coin and draw at position k lead from `o[k - 1]` to `o[k]`. */
  lemma OctaveWitnessSteers(octaveRange: int, o: seq<int>, k: nat)
    requires OctavesWithin(o, octaveRange) && OctavePolicy(o) && 0 < k < |o|
    ensures octaveRange >= 1
    ensures NextOctave(o[k - 1], octaveRange, OctaveCoin(o, k), OctaveWitness(o, octaveRange, k)) == o[k]
  {
    var prev, next := o[k - 1], o[k];
    assert 1 <= prev <= octaveRange && 1 <= next <= octaveRange;
    if prev != 1 || next != 1 {
      assert next != prev;
      OtherOctavesPick(octaveRange, prev, next);
    }
  }

  /** The witness draw makes the initial `randint` return `o[0]`. */
  lemma OctavesReproduceFirst(octaveRange: int, o: seq<int>, low: int -> bool, draws: int -> int)
    requires 1 <= |o| && OctavesWithin(o, octaveRange)
    requires draws(0) == OctaveWitness(o, octaveRange, 0)
    ensures Octaves(octaveRange, low, draws, 1) == Some(o[..1])
  {
    assert 1 <= o[0] <= octaveRange;
    assert (o[0] - 1) % octaveRange == o[0] - 1;
    assert o[..1] == [o[0]];
  }

  /** Extending a rebuilt prefix by one witness coin and draw. */
  lemma OctavesReproduceStep(octaveRange: int, o: seq<int>, low: int -> bool, draws: int -> int, len: nat)
    requires 2 <= len <= |o| && OctavesWithin(o, octaveRange) && OctavePolicy(o)
    requires low(len - 1) == OctaveCoin(o, len - 1) && draws(len - 1) == OctaveWitness(o, octaveRange, len - 1)
    requires Octaves(octaveRange, low, draws, len - 1) == Some(o[..len - 1])
    ensures Octaves(octaveRange, low, draws, len) == Some(o[..len])
  {
    OctaveWitnessSteers(octaveRange, o, len - 1);
    OctavesStep(octaveRange, low, draws, len, o[..len - 1], o[len - 2], o[len - 1]);
    SliceSnoc(o, len);
  }

  /** Witness coins and draws make the loop rebuild `o`, prefix by prefix. */
  lemma {:induction false} OctavesReproduce(octaveRange: int, o: seq<int>, low: int -> bool, draws: int -> int, len: nat)
    requires 1 <= len <= |o| && OctavesWithin(o, octaveRange) && OctavePolicy(o)
    requires forall k :: low(k) == OctaveCoin(o, k)
    requires forall k :: draws(k) == OctaveWitness(o, octaveRange, k)
    ensures Octaves(octaveRange, low, draws, len) == Some(o[..len])
    decreases len
  {
    if len == 1 {
      OctavesReproduceFirst(octaveRange, o, low, draws);
    } else {
      OctavesReproduce(octaveRange, o, low, draws, len - 1);
      OctavesReproduceStep(octaveRange, o, low, draws, len);
    }
  }

  lemma OctavesRebuild(octaveRange: int, o: seq<int>, low: int -> bool, draws: int -> int)
    requires 1 <= |o| && OctavesWithin(o, octaveRange) && OctavePolicy(o)
    requires forall k :: low(k) == OctaveCoin(o, k)
    requires forall k :: draws(k) == OctaveWitness(o, octaveRange, k)
    ensures Octaves(octaveRange, low, draws, |o|) == Some(o)
  {
    OctavesReproduce(octaveRange, o, low, draws, |o|);
    assert o[..|o|] == o;
  }

  /** Every octave sequence inside the range that obeys the policy is the
      outcome of some coins and draws; in particular, after octave 1 both the
      "stay at 1" branch and the "move to another octave" branch occur. */
  lemma OctavesComplete(octaveRange: int, o: seq<int>)
    requires |o| >= 1 && OctavesWithin(o, octaveRange) && OctavePolicy(o)
    ensures exists low: int -> bool, draws: int -> int :: Octaves(octaveRange, low, draws, |o|) == Some(o)
  {
    var low := (k: int) => OctaveCoin(o, k);
    var draws := (k: int) => OctaveWitness(o, octaveRange, k);
    OctavesRebuild(octaveRange, o, low, draws);
  }

  /** Lines 257-267: the initial `randint`, then the `for` loop of appends. */
  method AssignOctaves(octaveRange: int, numberOfNotes: int, low: int -> bool, draws: int -> int)
    returns (r: Result<seq<int>, GenError>)
    ensures r.Failure? <==> octaveRange < 1
    ensures r.Failure? ==> r.error == EmptyOctaveRange
    ensures r.Success? ==> Octaves(octaveRange, low, draws, AtLeastOne(numberOfNotes)) == Some(r.value)
    ensures r.Success? ==> |r.value| == AtLeastOne(numberOfNotes)
    ensures r.Success? ==> OctavesWithin(r.value, octaveRange) && OctavePolicy(r.value)
  {
    if octaveRange < 1 {
      return Failure(EmptyOctaveRange);
    }
    var octaves := [1 + draws(0) % octaveRange];
    OctavesFirst(octaveRange, low, draws);
    var i := 1;
    while i < numberOfNotes
      invariant 1 <= i <= AtLeastOne(numberOfNotes) && |octaves| == i
      invariant Octaves(octaveRange, low, draws, i) == Some(octaves)
    {
      var last := octaves[i - 1];
      var next := NextOctave(last, octaveRange, low(i), draws(i));
      OctavesStep(octaveRange, low, draws, i + 1, octaves, last, next);
      octaves := octaves + [next];
      i := i + 1;
    }
    assert i == AtLeastOne(numberOfNotes);
    OctavesSound(octaveRange, low, draws, i);
    return Success(octaves);
  }

  function Min(a: int, b: int): int { if a < b then a else b }

  /** `notes_plus_octave`: `zip` of degrees and octaves, each degree raised
      by its octave. */
  function ApplyOctaves(degrees: seq<int>, octaves: seq<int>): (notes: seq<int>)
    ensures |notes| == Min(|degrees|, |octaves|)
  {
    seq(Min(|degrees|, |octaves|), i requires 0 <= i < Min(|degrees|, |octaves|) =>
      degrees[i] + (octaves[i] - 1) * 12)
  }

  /** `adjusted_notes`: every note shifted by the key. */
  function Transpose(notes: seq<int>, key: int): (adjusted: seq<int>)
    ensures |adjusted| == |notes|
  {
    seq(|notes|, i requires 0 <= i < |notes| => notes[i] + key)
  }

  /** Shifting by the opposite amount gives the notes back. */
  lemma TransposeBack(notes: seq<int>, key: int)
    ensures Transpose(Transpose(notes, key), -key) == notes
  {
  }

  /** The absolute notes of a round. */
  function AbsoluteNotes(degrees: seq<int>, octaves: seq<int>, key: int): (notes: seq<int>)
    ensures |notes| == Min(|degrees|, |octaves|)
  {
    Transpose(ApplyOctaves(degrees, octaves), key)
  }

  lemma AbsoluteNoteAt(degrees: seq<int>, octaves: seq<int>, key: int, i: int)
    requires 0 <= i < |degrees| && i < |octaves|
    ensures AbsoluteNotes(degrees, octaves, key)[i] == degrees[i] + (octaves[i] - 1) * 12 + key
  {
  }

  /** The octave an absolute note was placed in. */
  function OctaveOf(note: int, key: int): int
  {
    (note - key - 60) / 12 + 1
  }

  lemma DecomposeNote(degree: int, octave: int, key: int)
    requires 60 <= degree <= 71 && octave >= 1
    ensures Tables.DegreeOf(degree + (octave - 1) * 12 + key, key) == degree
    ensures OctaveOf(degree + (octave - 1) * 12 + key, key) == octave
  {
    var q, r := octave - 1, degree - 60;
    assert degree + (octave - 1) * 12 + key - key - 60 == 12 * q + r;
    assert (12 * q + r) / 12 == q && (12 * q + r) % 12 == r by {
      Tables.DivModUnique(12 * q + r, q, r);
    }
  }

  /** Combining loses nothing: from the absolute notes and the key, the
      scale degrees (all in the solfege octave) and the octaves come back. */
  lemma AbsoluteNotesDecompose(degrees: seq<int>, octaves: seq<int>, key: int)
    requires |degrees| == |octaves|
    requires forall i :: 0 <= i < |degrees| ==> 60 <= degrees[i] <= 71
    requires forall i :: 0 <= i < |octaves| ==> octaves[i] >= 1
    ensures forall i :: 0 <= i < |degrees| ==>
      Tables.DegreeOf(AbsoluteNotes(degrees, octaves, key)[i], key) == degrees[i] &&
      OctaveOf(AbsoluteNotes(degrees, octaves, key)[i], key) == octaves[i]
  {
    forall i | 0 <= i < |degrees|
      ensures Tables.DegreeOf(AbsoluteNotes(degrees, octaves, key)[i], key) == degrees[i]
      ensures OctaveOf(AbsoluteNotes(degrees, octaves, key)[i], key) == octaves[i]
    {
      AbsoluteNoteAt(degrees, octaves, key, i);
      DecomposeNote(degrees[i], octaves[i], key);
    }
  }

  /** With one octave and key C the absolute notes are the scale degrees. */
  lemma SingleOctaveInC(degrees: seq<int>, octaves: seq<int>)
    requires |degrees| == |octaves|
    requires forall i :: 0 <= i < |octaves| ==> octaves[i] == 1
    ensures AbsoluteNotes(degrees, octaves, 0) == degrees
  {
  }
}
