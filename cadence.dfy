/** `EarTrainingGame.generate_reference_cadence`: the dominant and tonic
    chords played as the tonal reference before each test sequence. */
module Cadence {
  import Tables

  /** A three-note chord, lowest note first. */
  datatype Triad = Triad(low: int, middle: int, high: int)

  /** The `{'dominant': ..., 'tonic': ...}` dictionary. */
  datatype ReferenceCadence = ReferenceCadence(dominant: Triad, tonic: Triad)

  /** The root-position major triad on `root`: a major third, then a minor third. */
  function MajorTriad(root: int): Triad
  {
    Triad(root, root + 4, root + 7)
  }

  function Shift(t: Triad, d: int): Triad
  {
    Triad(t.low + d, t.middle + d, t.high + d)
  }

  function Notes(t: Triad): seq<int>
  {
    [t.low, t.middle, t.high]
  }

  /** The key note is "do" moved by the key adjustment; the dominant and the
      tonic are both major triads, the dominant rooted a fourth below. */
  function GenerateReferenceCadence(key: int): (c: ReferenceCadence)
    ensures c.tonic == MajorTriad(60 + key)
    ensures c.dominant == MajorTriad(60 + key - 5)
  {
    var keyNote := Tables.SolfegeToMidi["do"] + key;
    ReferenceCadence(
      Triad(keyNote - 5, keyNote - 1, keyNote + 2),
      Triad(keyNote, keyNote + 4, keyNote + 7))
  }

  /** Changing the key moves every note of the cadence by the same amount. */
  lemma CadenceTransposes(key: int, d: int)
    ensures GenerateReferenceCadence(key + d).tonic == Shift(GenerateReferenceCadence(key).tonic, d)
    ensures GenerateReferenceCadence(key + d).dominant == Shift(GenerateReferenceCadence(key).dominant, d)
  {
  }

  /** The key can be read back from the cadence, so different keys give
      different cadences. */
  lemma CadenceDeterminesKey(key1: int, key2: int)
    requires GenerateReferenceCadence(key1) == GenerateReferenceCadence(key2)
    ensures key1 == key2
  {
    assert GenerateReferenceCadence(key1).tonic.low == 60 + key1;
  }

  /** The dominant's root lies a fifth above the tonic's root (a fourth
      below it in pitch), and its middle note is the leading tone, one
      semitone under the key note. */
  lemma DominantResolvesToTonic(key: int)
    ensures Tables.DegreeOf(GenerateReferenceCadence(key).dominant.low, key) == 67
    ensures GenerateReferenceCadence(key).dominant.middle + 1 == GenerateReferenceCadence(key).tonic.low
  {
    var c := GenerateReferenceCadence(key);
    assert c.dominant.low - key - 60 == 12 * -1 + 7;
    Tables.DivModUnique(c.dominant.low - key - 60, -1, 7);
  }

  /** Every note of both chords is, after removing the key, a degree of the
      Ionian mode: the cadence stays inside the major scale of the key. */
  lemma CadenceWithinIonian(key: int)
    ensures forall n :: n in Notes(GenerateReferenceCadence(key).dominant) + Notes(GenerateReferenceCadence(key).tonic) ==>
      Tables.DegreeOf(n, key) in Tables.Modes["Ionian"]
  {
    var c := GenerateReferenceCadence(key);
    var offsets := [-5, -1, 2, 0, 4, 7];
    var degrees := [67, 71, 62, 60, 64, 67];
    var notes := Notes(c.dominant) + Notes(c.tonic);
    forall i | 0 <= i < 6
      ensures Tables.DegreeOf(notes[i], key) == degrees[i]
    {
      var q := if offsets[i] < 0 then -1 else 0;
      Tables.DivModUnique(notes[i] - key - 60, q, degrees[i] - 60);
    }
  }

  /** In C the cadence is G-B-D resolving to C-E-G around middle C. */
  lemma CadenceInC()
    ensures GenerateReferenceCadence(Tables.KeyToAdjustment["C"]) ==
      ReferenceCadence(Triad(55, 59, 62), Triad(60, 64, 67))
  {
  }
}
