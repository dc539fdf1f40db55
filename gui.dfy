/** The module-level `solfege_to_midi` of the GUI file, which turns the
    capitalised button labels into MIDI notes, and the two label tables the
    GUI hands to the engine. */
module Gui {
  import Tables

  /** The capitalised labels and their notes. */
  const GuiSolfegeMap: map<string, int> := map[
    "Do" := 60, "Ra" := 61, "Re" := 62, "Me" := 63, "Mi" := 64,
    "Fa" := 65, "Fi" := 66, "Sol" := 67, "Le" := 68, "La" := 69,
    "Te" := 70, "Ti" := 71]

  /** The label-to-syllable table of `update_input`. */
  const UpdateInputTable: map<string, string> := map[
    "Do" := "do", "Ra" := "ra", "Re" := "re", "Me" := "me", "Mi" := "mi",
    "Fa" := "fa", "Fi" := "fi", "Sol" := "sol", "Le" := "le", "La" := "la",
    "Te" := "te", "Ti" := "ti"]

  /** The mode buttons of the two mode screens. */
  const MajorModeNames: seq<string> :=
    ["Ionian", "Dorian", "Phrygian", "Lydian", "Mixolydian", "Aeolian", "Locrian"]
  const MelodicMinorModeNames: seq<string> :=
    ["Melodic Minor", "Dorian b2", "Lydian Augmented", "Lydian Dominant", "Mixolydian b6", "Locrian #2", "Altered"]

  /** `[solfege_map[note] for note in solfege if note in solfege_map]`. */
  function SolfegeToMidi(solfege: seq<string>): (notes: seq<int>)
    ensures |notes| <= |solfege|
    ensures forall x :: x in notes ==> Tables.InOctave(x)
  {
    if solfege == [] then []
    else (if solfege[0] in GuiSolfegeMap then [GuiSolfegeMap[solfege[0]]] else []) + SolfegeToMidi(solfege[1..])
  }

  /** Filtering a concatenation is concatenating the filtered parts: the
      output keeps the order of the input. */
  lemma {:induction false} SolfegeToMidiAppend(a: seq<string>, b: seq<string>)
    ensures SolfegeToMidi(a + b) == SolfegeToMidi(a) + SolfegeToMidi(b)
    decreases |a|
  {
    if a == [] {
      assert a + b == b;
    } else {
      SolfegeToMidiAppend(a[1..], b);
      assert (a + b)[0] == a[0] && (a + b)[1..] == a[1..] + b;
    }
  }

  /** Nothing is dropped exactly when every token is a known label. */
  lemma {:induction false} SolfegeToMidiLength(solfege: seq<string>)
    ensures |SolfegeToMidi(solfege)| == |solfege| <==> forall i :: 0 <= i < |solfege| ==> solfege[i] in GuiSolfegeMap
    decreases |solfege|
  {
    if solfege != [] {
      SolfegeToMidiLength(solfege[1..]);
      if forall i :: 0 <= i < |solfege| ==> solfege[i] in GuiSolfegeMap {
        assert forall i :: 0 <= i < |solfege[1..]| ==> solfege[1..][i] in GuiSolfegeMap by {
          forall i | 0 <= i < |solfege[1..]| ensures solfege[1..][i] in GuiSolfegeMap {
            assert solfege[1..][i] == solfege[i + 1];
          }
        }
      } else if solfege[0] in GuiSolfegeMap {
        var i :| 0 <= i < |solfege| && solfege[i] !in GuiSolfegeMap;
        assert solfege[1..][i - 1] == solfege[i];
      }
    }
  }

  /** When every token is known, the output is the tokens' notes position by position. */
  lemma {:induction false} SolfegeToMidiAllKnown(solfege: seq<string>)
    requires forall i :: 0 <= i < |solfege| ==> solfege[i] in GuiSolfegeMap
    ensures SolfegeToMidi(solfege) == seq(|solfege|, i requires 0 <= i < |solfege| => GuiSolfegeMap[solfege[i]])
    decreases |solfege|
  {
    if solfege != [] {
      SolfegeToMidiAllKnown(solfege[1..]);
    }
  }

  /** The engine's lower-case syllables are not labels here: they are dropped. */
  lemma LowercaseDropped(t: string)
    requires t in Tables.SolfegeToMidi
    ensures SolfegeToMidi([t]) == []
  {
    assert 'a' <= t[0] <= 'z';
    assert forall k :: k in GuiSolfegeMap ==> 'A' <= k[0] <= 'Z';
  }

  /** For every label of `update_input`, this filter and the engine's table
      give the same note, and the two label sets coincide. */
  lemma TablesAgree()
    ensures UpdateInputTable.Keys == GuiSolfegeMap.Keys
    ensures forall name :: name in UpdateInputTable ==>
      UpdateInputTable[name] in Tables.SolfegeToMidi &&
      SolfegeToMidi([name]) == [Tables.SolfegeToMidi[UpdateInputTable[name]]]
  {
    LabelTablesShareKeys();
    LabelsGiveSameNotes();
    forall name | name in GuiSolfegeMap {
      SingleLabel(name);
    }
  }

  /** Both GUI tables are keyed by the same twelve labels. */
  lemma LabelTablesShareKeys()
    ensures UpdateInputTable.Keys == GuiSolfegeMap.Keys
  {
  }

  /** A label's note here is the engine's note of its lower-case syllable. */
  lemma LabelsGiveSameNotes()
    ensures forall name :: name in UpdateInputTable ==>
      UpdateInputTable[name] in Tables.SolfegeToMidi && name in GuiSolfegeMap &&
      GuiSolfegeMap[name] == Tables.SolfegeToMidi[UpdateInputTable[name]]
  {
  }

  /** One token: its note when it is a label, nothing otherwise. */
  lemma SingleLabel(name: string)
    ensures SolfegeToMidi([name]) == if name in GuiSolfegeMap then [GuiSolfegeMap[name]] else []
  {
    assert [name][1..] == [];
  }

  /** Every mode button names a mode of the engine except "Altered", which
      `set_mode` ignores because the engine calls it "Altered Scale". */
  lemma ModeButtonsKnown()
    ensures forall i :: 0 <= i < |MajorModeNames| ==> MajorModeNames[i] in Tables.Modes
    ensures forall i :: 0 <= i < |MelodicMinorModeNames| - 1 ==> MelodicMinorModeNames[i] in Tables.Modes
    ensures MelodicMinorModeNames[|MelodicMinorModeNames| - 1] == "Altered"
    ensures "Altered" !in Tables.Modes && "Altered Scale" in Tables.Modes
  {
  }
}
