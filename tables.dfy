/** The constant tables that EarTrainingGame keeps as class attributes:
    the chromatic solfege syllables, the key adjustments and the named modes. */
module Tables {

  /** `EarTrainingGame.solfege_to_midi`: lower-case chromatic syllables to
      the MIDI notes of the octave starting at middle C. */
  const SolfegeToMidi: map<string, int> := map[
    "do" := 60, "ra" := 61, "re" := 62, "me" := 63, "mi" := 64,
    "fa" := 65, "fi" := 66, "sol" := 67, "le" := 68, "la" := 69,
    "te" := 70, "ti" := 71]

  /** `EarTrainingGame.key_to_adjustment`: key names to semitone shifts. */
  const KeyToAdjustment: map<string, int> := map[
    "C" := 0, "C#" := 1, "Db" := 1, "D" := 2, "D#" := 2, "Eb" := 3,
    "E" := 4, "F" := 5, "F#" := 6, "Gb" := -6, "G" := -5, "G#" := -4,
    "Ab" := -4, "A" := -3, "A#" := -2, "Bb" := -2, "B" := -1]

  /** `EarTrainingGame.modes`: the scale degrees each named mode draws from. */
  const Modes: map<string, seq<int>> := map[
    "Ionian" := [60, 62, 64, 65, 67, 69, 71],
    "Dorian" := [60, 62, 63, 65, 67, 69, 70],
    "Phrygian" := [60, 61, 63, 65, 67, 68, 70],
    "Lydian" := [60, 62, 64, 66, 67, 69, 71],
    "Mixolydian" := [60, 62, 64, 65, 67, 69, 70],
    "Aeolian" := [60, 62, 63, 65, 67, 68, 70],
    "Locrian" := [60, 61, 63, 65, 66, 68, 70],
    "Melodic Minor" := [60, 62, 63, 65, 67, 69, 71],
    "Dorian b2" := [60, 61, 63, 65, 67, 69, 71],
    "Lydian Augmented" := [60, 62, 64, 66, 68, 69, 71],
    "Lydian Dominant" := [60, 62, 64, 66, 67, 69, 70],
    "Mixolydian b6" := [60, 62, 64, 65, 67, 68, 70],
    "Locrian #2" := [60, 62, 63, 65, 66, 68, 70],
    "Altered Scale" := [60, 61, 63, 64, 66, 68, 70],
    "Chromatic" := [60, 61, 62, 63, 64, 65, 66, 67, 68, 69, 70, 71],
    "Whole" := [60, 62, 64, 66, 68, 70],
    "Major Penta" := [60, 62, 64, 67, 69],
    "Minor Penta" := [60, 63, 64, 67, 70],
    "Custom" := []]

  /** A value of the octave that the solfege table spans. */
  predicate InOctave(x: int) { 60 <= x <= 71 }

  /** Every syllable maps into 60..71, and every note of 60..71 has a syllable:
      the guess alphabet is exactly one chromatic octave. */
  lemma SolfegeIsChromaticOctave()
    ensures forall t :: t in SolfegeToMidi ==> InOctave(SolfegeToMidi[t])
    ensures forall x :: InOctave(x) ==> exists t :: t in SolfegeToMidi && SolfegeToMidi[t] == x
  {
    forall x | InOctave(x) ensures exists t :: t in SolfegeToMidi && SolfegeToMidi[t] == x {
      var t := ["do", "ra", "re", "me", "mi", "fa", "fi", "sol", "le", "la", "te", "ti"][x - 60];
      assert t in SolfegeToMidi && SolfegeToMidi[t] == x;
    }
  }

  /** Every key shifts by at most a tritone either way. */
  lemma KeyAdjustmentsWithinTritone()
    ensures forall k :: k in KeyToAdjustment ==> -6 <= KeyToAdjustment[k] <= 6
  {
  }

  /** Every degree of every named mode lies in the solfege octave, so every
      generated scale degree can be answered by some syllable. */
  lemma ModesWithinSolfegeOctave()
    ensures forall name, x :: name in Modes && x in Modes[name] ==> InOctave(x)
    ensures forall name, x :: name in Modes && x in Modes[name] ==>
      exists t :: t in SolfegeToMidi && SolfegeToMidi[t] == x
  {
    SolfegeIsChromaticOctave();
    forall name, x | name in Modes && x in Modes[name]
      ensures exists t :: t in SolfegeToMidi && SolfegeToMidi[t] == x
    {
      assert InOctave(x);
    }
  }

  /** What the engine needs of a mode: it is empty, or its first two degrees
      differ (so every degree has another to move to); and every degree can
      be answered with a syllable. */
  predicate UsableMode(mode: seq<int>)
  {
    && (mode == [] || (|mode| >= 2 && mode[0] != mode[1]))
    && forall i :: 0 <= i < |mode| ==> InOctave(mode[i])
  }

  /** Every named mode is usable. */
  lemma NamedModesUsable()
    ensures forall name :: name in Modes ==> UsableMode(Modes[name])
  {
    ModesWithinSolfegeOctave();
    OnlyCustomModeIsEmpty();
    forall name | name in Modes
      ensures UsableMode(Modes[name])
    {
      var m := Modes[name];
      assert forall i :: 0 <= i < |m| ==> m[i] in m;
    }
  }

  /** Only the "Custom" mode is empty; all others offer at least two distinct degrees. */
  lemma OnlyCustomModeIsEmpty()
    ensures forall name :: name in Modes && name != "Custom" ==>
      |Modes[name]| >= 2 && Modes[name][0] != Modes[name][1]
    ensures Modes["Custom"] == []
  {
  }

  /** The scale degree an absolute note was made from, for degrees in 60..71. */
  function DegreeOf(note: int, key: int): (d: int)
    ensures 60 <= d <= 71
  {
    60 + (note - key - 60) % 12
  }

  lemma DivModUnique(n: int, q: int, r: int)
    requires n == 12 * q + r && 0 <= r < 12
    ensures n / 12 == q && n % 12 == r
  {
  }
}
