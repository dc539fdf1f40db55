# Ear-training session engine

A Dafny model of the session engine of an ear-training game (`EarTrainingGame`
in `EarTraining.py`), plus the GUI file's module-level `solfege_to_midi`
filter. In each round the engine does the following:

- It draws a sequence of scale degrees from the selected mode, with no degree
  following itself.
- It gives every position an octave under the "previous octave is 1 / is not 1"
  rule.
- It turns degree, octave and key into absolute MIDI notes, and joins them into
  a `_`-separated string that `string_to_list` reads back.
- It builds a reference cadence (dominant, then tonic) from the key.

The learner fills a guess buffer with solfège syllables. Validation compares the
buffer with the pre-octave degrees, turns the fraction of hits into points, and
levels up once the points strictly exceed a growing requirement. A level-up
scales the active difficulty dictionary in place.

Modules, one per file:

- `Wrappers`: `Option` and `Result`; Python's exceptions become `Failure` values.
- `Tables`: the class-level syllable, key and mode tables, and the scale degree
  of an absolute note.
- `Notation`: `str`/`int` on notes, `"_".join`, `split('_')`, `string_to_list`.
- `Generation`: the degree loop, the octave loop and the note combination.
  Randomness is an explicit oracle:
  - the k-th `random.choice(xs)` returns `xs[draws(k) % |xs|]`;
  - `random.randint(1, n)` returns `1 + draws(0) % n`;
  - `low(k)` says whether the k-th `random.random()` fell below 0.75.

  Every property holds for every oracle. Completeness lemmas show that every
  sequence the rules allow is produced by some oracle, so both octave branches
  do occur.
- `Cadence`: `generate_reference_cadence`.
- `Scoring`: the comparison and points rule of `validate_user_input`, on values.
- `Progression`: `level_up` / `check_for_level_up` on values, the difficulty
  profile, and Python's `int()` truncation.
- `Game`: three classes.
  - `Difficulty`: one difficulty dictionary, updated in place.
  - `DifficultyTiers`: the five class-level dictionaries, shared by every game.
  - `EarTrainingGame`: the engine. Its methods are proved against the value
    functions above.
- `Gui`: the GUI's `solfege_to_midi`, its `update_input` table and its mode
  button names.
- `Selections`: `process_user_solfege_selections`, as a free function with the
  twelve-slot marker list as an array.

Points, scalars and difficulty values are exact `real`s. `int()` is
truncation toward zero (`Progression.Trunc`).

## Behaviour worth knowing

- **Shared tiers.** `self.difficulty` is the class-level tier dictionary
  itself, and `level_up` scales it in place. A level-up therefore changes the
  tier for every later selection and every other game.
  `Game.SharedTierScenario` shows a second game choosing "Easy" and getting
  2.6 notes.
- **Guess buffer.** Nothing bounds the guess buffer. Extra guesses make
  `overall_match` 0, yet the points still pay the 1.3 bonus
  (`Scoring.LongerGuessesScoreBonus`).
- **Sequence length.** The length is `int(number_of_notes)`, so 2.6 notes
  gives 2 (`Progression.EasyTierNoteCounts`).
- **Unknown mode names.** `set_mode` ignores an unknown name and keeps the
  current mode. The GUI's "Altered" button sends one of them, because the
  table calls that mode "Altered Scale".
- **Unknown syllables.** `add_user_guess` raises `KeyError` on a syllable
  outside the table. The model returns that error and leaves the buffer
  unchanged.

## Model

| member | source | states |
|---|---|---|
| Tables.SolfegeIsChromaticOctave | EarTraining.py:16-20 | the syllable table maps onto exactly the octave 60..71: every value is in it and every note of it has a syllable |
| Tables.KeyAdjustmentsWithinTritone | EarTraining.py:23-27 | every key adjustment lies in -6..6 |
| Tables.ModesWithinSolfegeOctave | EarTraining.py:63-84 | every degree of every mode lies in 60..71 and so can be answered with some syllable |
| Tables.OnlyCustomModeIsEmpty | EarTraining.py:63-84 | "Custom" is the only empty mode; every other mode has two distinct degrees |
| Tables.NamedModesUsable | EarTraining.py:63-84 | every named mode is empty or starts with two distinct degrees, and all its degrees lie in 60..71 |
| Notation.NatToString | EarTraining.py:274 | `str` of a natural is a non-empty string of digits with no leading zero |
| Notation.IntToString | EarTraining.py:274 | `str` of any note is non-empty and never contains the separator `_` |
| Notation.ParseInt | EarTraining.py:218 | `int(piece)` succeeds only on a non-empty piece, and a negative result needs a leading minus |
| Notation.Join | EarTraining.py:274 | the joined text is empty exactly when there are no notes |
| Notation.Split | EarTraining.py:218 | `split('_')` yields one more piece than there are separators, so "" yields one piece |
| Notation.ParseAll | EarTraining.py:218 | parsing every piece keeps the count; a failure names a piece of the input that `int` rejects |
| Notation.StringToList | EarTraining.py:217-218 | `string_to_list` returns as many notes as there are pieces |
| Notation.DigitsValueOfNatToString | EarTraining.py:218 | reading back the digits of `str(n)` gives `n` |
| Notation.ParseNatString | EarTraining.py:218 | `int` reads back `str(n)` for every natural n |
| Notation.ParseNegativeString | EarTraining.py:218 | `int` reads back a minus sign followed by the digits of a positive n as -n |
| Notation.ParseIntToString | EarTraining.py:218 | `int(str(i)) == i` for every integer, negative ones included |
| Notation.StrAll | EarTraining.py:274 | `map(str, xs)` has one piece per note |
| Notation.SplitJoin | EarTraining.py:217-218 | splitting the joined text gives `str` of each note, in order |
| Notation.ParseAllStrings | EarTraining.py:218 | parsing `str` of each note gives the notes back |
| Notation.StringToListOfJoin | EarTraining.py:217-218 | `string_to_list("_".join(map(str, xs))) == xs` for every non-empty list |
| Notation.StringToListOfEmptyJoin | EarTraining.py:217-218 | the empty list joins to "", which fails with the ValueError of `int("")` |
| Notation.AudioFileName | EarTraining.py:213 | the name ends in `_audiofile.wav`, and for a non-empty list the part before it reads back through `string_to_list` as the notes |
| Notation.AudioFileNameInjective | EarTraining.py:213 | different non-empty note lists never share an audio file name |
| Generation.AtLeastOne | EarTraining.py:244-249 | the loop reaches `max(1, n)` notes |
| Generation.Without | EarTraining.py:248 | the candidates are exactly the mode's degrees other than the previous one |
| Generation.Pick | EarTraining.py:244 | `random.choice` returns an element of its list |
| Generation.Degrees | EarTraining.py:244-249 | the degrees built so far have the requested length |
| Generation.DegreesSound | EarTraining.py:244-249 | every degree comes from the mode and no degree follows itself |
| Generation.DegreesFailure | EarTraining.py:244-249 | generation fails exactly for an empty mode, or for more than one note from a mode with a single value |
| Generation.DegreesReproduce | EarTraining.py:244-249 | draws that steer each choice make the loop rebuild a given sequence |
| Generation.DegreesComplete | EarTraining.py:244-249 | every sequence from the mode without immediate repeats comes out of some draws |
| Generation.GenerateDegrees | EarTraining.py:244-249 | the `while` loop fails (with the right error) iff the mode is empty or offers no second degree; otherwise it returns `max(1, n)` degrees from the mode with no immediate repeat |
| Generation.OtherOctaves | EarTraining.py:261 | the comprehension holds exactly the octaves 1..r other than the previous one |
| Generation.OtherOctavesAt | EarTraining.py:261 | with the previous octave in 1..r, the list has r - 1 entries and entry i is i + 1 below the previous octave and i + 2 from it on |
| Generation.OtherOctavesPick | EarTraining.py:264-266 | every octave other than the previous one is returned by some draw of `random.choice` |
| Generation.NextOctave | EarTraining.py:259-266 | one pass gives an octave in 1..r that differs from a previous octave other than 1, and gives 1 when r is 1 (the caught IndexError) |
| Generation.Octaves | EarTraining.py:257-267 | octave assignment fails iff `int(octave_range) < 1`, and otherwise has the requested length |
| Generation.OctavesSound | EarTraining.py:257-267 | every octave lies in 1..r, and after an octave other than 1 the next one differs |
| Generation.SingleOctaveRange | EarTraining.py:257-267 | with a range of 1 every octave is 1 |
| Generation.OctavesReproduce | EarTraining.py:257-267 | coins and draws that steer each pass make the loop rebuild a given octave list |
| Generation.OctavesComplete | EarTraining.py:257-267 | every octave list inside the range that obeys the rule comes out of some coins and draws, so both branches after octave 1 occur |
| Generation.AssignOctaves | EarTraining.py:257-267 | the `for` loop fails iff the range is empty; otherwise it returns `max(1, n)` octaves in range that obey the rule |
| Generation.ApplyOctaves | EarTraining.py:271 | `zip` stops at the shorter list |
| Generation.Transpose | EarTraining.py:272 | shifting by the key keeps the number of notes |
| Generation.TransposeBack | EarTraining.py:272 | shifting by the key and then by its opposite gives the notes back |
| Generation.AbsoluteNotes | EarTraining.py:271-272 | the absolute notes are as many as the zipped pairs |
| Generation.AbsoluteNoteAt | EarTraining.py:271-272 | each absolute note is `degree + (octave - 1) * 12 + key` |
| Generation.DecomposeNote | EarTraining.py:271-272 | degree and octave can be recovered from an absolute note and the key |
| Generation.AbsoluteNotesDecompose | EarTraining.py:271-272 | combining loses nothing: degrees and octaves come back from the notes and the key |
| Generation.SingleOctaveInC | EarTraining.py:271-272 | with every octave 1 and key C the notes are the degrees themselves |
| Cadence.GenerateReferenceCadence | EarTraining.py:299-304 | the tonic is the major triad on `60 + key`; the dominant is the major triad a fourth below |
| Cadence.CadenceTransposes | EarTraining.py:299-304 | changing the key moves every chord note by the same amount |
| Cadence.CadenceDeterminesKey | EarTraining.py:299-304 | different keys give different cadences |
| Cadence.DominantResolvesToTonic | EarTraining.py:299-304 | the dominant's root is the fifth degree and its middle note is the leading tone, a semitone under the key note |
| Cadence.CadenceWithinIonian | EarTraining.py:299-304 | every cadence note lies in the major (Ionian) scale of the key |
| Cadence.CadenceInC | EarTraining.py:299-304 | in C the cadence is 55-59-62 then 60-64-67 |
| Scoring.OverallMatch | EarTraining.py:309 | `overall_match` is 0 or 1, and 1 only when there are exactly as many guesses as canonical degrees |
| Scoring.Sum | EarTraining.py:317 | a sum of 0/1 flags lies between 0 and the number of flags |
| Scoring.Delta | EarTraining.py:322-330 | the delta is 0 or at least 0.7, and every position right earns exactly 1.3 |
| Scoring.DetailedMatch | EarTraining.py:312 | one flag per canonical position |
| Scoring.Validate | EarTraining.py:307-334 | validation fails iff there are no canonical degrees or fewer guesses than degrees; otherwise it returns one flag per degree |
| Scoring.DetailedMatchFlags | EarTraining.py:312 | a flag is 1 exactly where the guess equals the canonical degree, and 0 elsewhere |
| Scoring.SumOfDetailedMatch | EarTraining.py:312-317 | the hit count lies in 0..len, and equals len iff the guesses start with the canonical degrees |
| Scoring.DeltaIsFraction | EarTraining.py:328-330 | a fraction in [0.7, 1) scores itself |
| Scoring.DeltaBelowThreshold | EarTraining.py:322-324 | a fraction under 0.7 scores 0 |
| Scoring.DeltaPerfect | EarTraining.py:325-327 | a fraction of 1 scores exactly 1.3 |
| Scoring.DeltaAtThreshold | EarTraining.py:322-330 | exactly 70% scores 0.7, not 0 |
| Scoring.DeltaRange | EarTraining.py:322-330 | the delta is 0 or lies in [0.7, 1.3] |
| Scoring.DeltaMonotone | EarTraining.py:322-330 | more hits never score fewer points |
| Scoring.OverallIffAllDetailed | EarTraining.py:309-312 | with equal lengths, `overall_match` is 1 iff every flag is 1 |
| Scoring.PerfectGuess | EarTraining.py:307-334 | guessing the canonical degrees gives overall 1, all flags 1 and 1.3 points |
| Scoring.LongerGuessesScoreBonus | EarTraining.py:309-330 | extra trailing guesses are accepted: overall 0, yet the full 1.3 bonus |
| Scoring.ValidatePointsBounded | EarTraining.py:319-330 | the returned points rise by 0 to 1.3 |
| Progression.LevelUp | EarTraining.py:337-350 | the level rises by one, the requirement is paid out of the points, a due level-up leaves positive points, and a positive requirement strictly grows |
| Progression.LevelUpDue | EarTraining.py:353 | points equal to the requirement are not enough |
| Progression.CheckForLevelUp | EarTraining.py:352-354 | the check either changes nothing or makes exactly one level-up that leaves positive points |
| Progression.Trunc | EarTraining.py:240-241 | `int()` truncates toward zero: for x >= 0 the result is the floor, for x < 0 the ceiling |
| Progression.ScaleProfile | EarTraining.py:341-343 | scaling keeps a profile valid, never lowers note count or range, and strictly shortens the duration |
| Progression.CheckFiresIff | EarTraining.py:352-354 | the level rises by one iff points strictly exceed the requirement; otherwise nothing changes |
| Progression.NoLevelUpAtEquality | EarTraining.py:353 | points equal to the requirement do not level up |
| Progression.PowAtLeastOne | EarTraining.py:350 | powers of a scalar of at least 1 are at least 1 |
| Progression.LevelUpKeepsSchedule | EarTraining.py:337-350 | after a level-up the requirement is still 4 * 1.1^level and has strictly grown |
| Progression.ScoringKeepsSteady | EarTraining.py:319-354 | adding at most 1.3 points to a steady state and checking once leaves no level-up owed: a single check always suffices |
| Progression.InitialSteady | EarTraining.py:86-90 | the initial points state is steady |
| Progression.SingleCheckCanLeaveLevelUpDue | EarTraining.py:352-354 | off the steady states the single-shot check can leave a level-up owed |
| Progression.TruncAtLeastOne | EarTraining.py:356-357 | `int()` of a count of at least 1 is at least 1 |
| Progression.TruncMonotone | EarTraining.py:240-241 | `int()` is monotone on non-negative values |
| Progression.ScalingNeverShrinksCounts | EarTraining.py:240-241 | a level-up never lowers the note count or the octave range used for generation |
| Progression.EasyTierNoteCounts | EarTraining.py:240 | the easy tier's 2 notes scale to 2.6 and then 3.38, which truncate to 2 and 3 |
| Game.Difficulty.constructor | EarTraining.py:30-58 | a dictionary holds the three given values |
| Game.TierNamed | EarTraining.py:377-385 | no name selects the custom tier |
| Game.DifficultyTiers.constructor | EarTraining.py:30-58 | five distinct, valid tier dictionaries with the source's values |
| Game.AddGuess | EarTraining.py:152-155 | a known syllable appends its note (in 60..71) and keeps the earlier guesses; an unknown one is a KeyError |
| Game.RemoveGuess | EarTraining.py:158-162 | removal drops only the last guess, and an empty buffer stays empty |
| Game.RemoveUndoesAdd | EarTraining.py:152-162 | removing right after a successful add restores the buffer |
| Game.GuessesStayInOctave | EarTraining.py:152-162 | adding and removing keep every guess in 60..71 |
| Game.UsableModeFailsOnlyWhenEmpty | EarTraining.py:244-249 | with a usable mode (every named one is), generation fails only for the empty "Custom" mode |
| Game.EarTrainingGame.constructor | EarTraining.py:86-103 | a new game starts with the custom tier, Minor Penta, key C, 0 of 4 points at level 0, and an empty buffer and round |
| Game.EarTrainingGame.AddUserGuess | EarTraining.py:152-155 | a known syllable appends exactly its note; an unknown one returns KeyError and leaves the buffer; nothing else changes |
| Game.EarTrainingGame.RemoveUserGuess | EarTraining.py:158-162 | drops only the last guess, does nothing on an empty buffer, and changes nothing else |
| Game.EarTrainingGame.LevelUp | EarTraining.py:337-350 | the level rises by 1; the shared dictionary is scaled in place; the points drop by the old requirement; the requirement grows by 1.1 |
| Game.EarTrainingGame.CheckForLevelUp | EarTraining.py:352-354 | levels up exactly when the points strictly exceed the requirement |
| Game.EarTrainingGame.ValidateUserInput | EarTraining.py:307-334 | returns the value outcome of the comparison, with the points taken before the level-up check; records the flags; levels up at most once and leaves none owed; errors leave the points alone, and ZeroDivisionError has already cleared the flags |
| Game.EarTrainingGame.GetNumberOfNotes | EarTraining.py:356-357 | the active note count truncated, always at least 1 |
| Game.EarTrainingGame.SetMode | EarTraining.py:365-374 | a known name selects its mode; an unknown one changes nothing |
| Game.EarTrainingGame.SetDifficulty | EarTraining.py:377-385 | a tier name points the game at that shared tier; other names change nothing; the custom tier is never re-entered |
| Game.EarTrainingGame.GenerateTestSequence | EarTraining.py:236-278 | fails iff the mode is empty, leaving the round untouched; otherwise stores a round that satisfies `Game.RoundFollows`: the degrees are the draws' sequence of length `max(1, int(n))`, come from the mode and never repeat side by side; the octaves are the coins' and draws' sequence, lie in 1..range and only repeat at octave 1; the notes are `degree + (octave - 1) * 12 + key`, and their text reads back through `string_to_list` as the notes. It keeps `detailed_match`, the guesses, the settings and the points |
| Game.EarTrainingGame.RestartGame | EarTraining.py:290-296 | empties the guess buffer; fails iff the mode is empty, leaving the round untouched; otherwise stores a round that satisfies `Game.RoundFollows`, as `GenerateTestSequence` does, and keeps `detailed_match`, the settings, the points and `running` |
| Game.EarTrainingGame.StartGame | EarTraining.py:106-113 | sets `running` and empties the guess buffer; fails iff the mode is empty, leaving the round untouched; otherwise stores a round that satisfies `Game.RoundFollows` and keeps `detailed_match`, the settings and the points |
| Game.EarTrainingGame.StopGame | EarTraining.py:126-128 | marks the game stopped and changes nothing else |
| Game.SharedTierScenario | EarTraining.py:92 | after one game levels up at "Easy", another game selecting "Easy" gets 2.6 notes instead of 2.0 |
| Gui.SolfegeToMidi | EarTraining_GUI.py:336-342 | the output is never longer than the input, and every note lies in 60..71 |
| Gui.SolfegeToMidiAppend | EarTraining_GUI.py:342 | filtering a concatenation concatenates the filtered parts, so input order is kept |
| Gui.SolfegeToMidiLength | EarTraining_GUI.py:342 | nothing is dropped iff every token is one of the twelve labels |
| Gui.SolfegeToMidiAllKnown | EarTraining_GUI.py:337-342 | when every token is known, the output is each token's note, position by position |
| Gui.LowercaseDropped | EarTraining_GUI.py:337-342 | the engine's lower-case syllables, such as "do", are dropped |
| Gui.SingleLabel | EarTraining_GUI.py:342 | a single token gives its note when it is a label and nothing otherwise |
| Gui.TablesAgree | EarTraining_GUI.py:318 | both tables have the same labels, and every label gives the same note through either path |
| Gui.ModeButtonsKnown | EarTraining_GUI.py:92-106 | every mode button names a known mode except "Altered"; the table has "Altered Scale" instead |
| Selections.Slot | EarTraining.py:180-181 | a Python index in -12..11 names slot `index` or `index + 12` |
| Selections.Collected | EarTraining.py:184 | the collected syllables are at most the number of slots scanned |
| Selections.ProcessUserSolfegeSelections | EarTraining.py:169-187 | fails with IndexError iff some index is outside -12..11; otherwise returns the marked syllables in slot order |
| Selections.CollectedMembers | EarTraining.py:180-184 | a syllable is returned iff some selection names its slot |
| Selections.CollectedInChromaticOrder | EarTraining.py:184 | the syllables come out in strictly ascending pitch, so each appears at most once |
| Selections.SelectionOrderIrrelevant | EarTraining.py:180-184 | only the set of named slots matters, not the order or repetition of the selections |
| Selections.SyllablesAreGuessTokens | EarTraining.py:171-175 | the twelve syllables are the engine's guess tokens, in pitch order 60..71 |

## Left out

- Audio: `list_to_audiofile` and `generate_silence` build numpy waveforms through an external synthesis module and write a WAV file. Only the file name is modelled (`Notation.AudioFileName`).
- `play_audio` and `clear_folder`: pygame playback and filesystem enumeration or deletion are I/O.
- Threads and time: the `_game_clock` thread, `elapsed_time`, the `threading.Lock` and `stop_game`'s `join`. The model is sequential; `running` is kept as a plain flag.
- `notify_gui`, the `print` calls, and the getters `get_detailed_match` and `get_pre_octave_key_list`. The model's fields are readable directly.
- The module-level MIDI playback functions, `main` and everything in `EarTrainerApp` apart from the two tables and the mode button names used above. These are device, console and widget I/O.
- Probabilities: the 0.75 weighting and the uniformity of `random`. Draws are arbitrary oracles.
- Floating point: scores, scalars and difficulty values are exact rationals. The model does not claim float-exact results, such as `4 * 1.1**n` after rounding.
- The key: no method of the engine changes `key`, so it stays at C (0). Generation is still proved for any key value.
- Notation.ParseInt: does not accept the surrounding whitespace, `_` digit grouping or non-ASCII digits that Python's `int()` also accepts. No such text can reach it from `"_".join(map(str, ...))`.
- Selections.ProcessUserSolfegeSelections: indices are integers. Python's acceptance of `bool` indices and its TypeError for other types are not modelled. The function is declared without `self`, so it is modelled as a free function, as it behaves when called through the class.
- Game.EarTrainingGame.GenerateTestSequence: the octave stage's ValueError (`randint(1, 0)`) cannot happen under the engine's invariant (octave range at least 1). For that reason this method does not state that `pre_octave_key_list` is already updated on that path. `Generation.AssignOctaves` models the error itself.
