/** The session engine `EarTrainingGame`: its configuration (mode, key and
    the shared difficulty dictionaries), the guess buffer, the round being
    played, and the points state that validation and levelling update. */
module Game {
  import opened Wrappers
  import Tables
  import Notation
  import Generation
  import Cadence
  import Scoring
  import Progression

  /** The KeyError raised by `solfege_to_midi[solfege]` for an unknown syllable. */
  datatype KeyError = KeyError(key: string)

  /** One difficulty dictionary. `level_up` rewrites its entries in place. */
  class Difficulty {
    var numberOfNotes: real
    var octaveRange: real
    var duration: real

    constructor (numberOfNotes: real, octaveRange: real, duration: real)
      ensures Profile() == Progression.Profile(numberOfNotes, octaveRange, duration)
    {
      this.numberOfNotes := numberOfNotes;
      this.octaveRange := octaveRange;
      this.duration := duration;
    }

    function Profile(): Progression.Profile
      reads this
    {
      Progression.Profile(numberOfNotes, octaveRange, duration)
    }
  }

  /** The named tiers `set_difficulty` understands; "custom" has no name. */
  datatype Tier = Easy | Medium | Hard | Impossible | Custom

  /** The names accepted by `set_difficulty` (lines 375-383). */
  function TierNamed(chosen: string): (t: Option<Tier>)
    ensures t != Some(Custom)
  {
    if chosen == "Easy" then Some(Easy)
    else if chosen == "Medium" then Some(Medium)
    else if chosen == "Hard" then Some(Hard)
    else if chosen == "Impossible" then Some(Impossible)
    else None
  }

  /** The class-level dictionaries `settings_easy` ... `settings_custom`.
      Being class attributes, they are shared by every game. */
  class DifficultyTiers {
    const easy: Difficulty
    const medium: Difficulty
    const hard: Difficulty
    const impossible: Difficulty
    const custom: Difficulty
    ghost const Repr: set<Difficulty>

    ghost predicate Valid()
      reads Repr
    {
      && Repr == {easy, medium, hard, impossible, custom}
      && easy != medium && easy != hard && easy != impossible && easy != custom
      && medium != hard && medium != impossible && medium != custom
      && hard != impossible && hard != custom && impossible != custom
      && forall d :: d in Repr ==> Progression.ProfileValid(d.Profile())
    }

    function Get(t: Tier): Difficulty
    {
      match t
      case Easy => easy
      case Medium => medium
      case Hard => hard
      case Impossible => impossible
      case Custom => custom
    }

    /** Lines 30-58. */
    constructor ()
      ensures Valid()
      ensures easy.Profile() == Progression.Profile(2.0, 1.0, 2.0)
      ensures medium.Profile() == Progression.Profile(3.0, 1.0, 1.5)
      ensures hard.Profile() == Progression.Profile(5.0, 2.0, 1.0)
      ensures impossible.Profile() == Progression.Profile(16.0, 3.0, 0.5)
      ensures custom.Profile() == Progression.Profile(7.0, 1.0, 0.5)
      ensures fresh(Repr)
    {
      easy := new Difficulty(2.0, 1.0, 2.0);
      medium := new Difficulty(3.0, 1.0, 1.5);
      hard := new Difficulty(5.0, 2.0, 1.0);
      impossible := new Difficulty(16.0, 3.0, 0.5);
      custom := new Difficulty(7.0, 1.0, 0.5);
      Repr := {easy, medium, hard, impossible, custom};
      new;
      assert forall d :: d in Repr ==> d == easy || d == medium || d == hard || d == impossible || d == custom;
    }
  }

  /** `user_guesses + [solfege_to_midi[solfege]]`, or the KeyError. */
  function AddGuess(guesses: seq<int>, solfege: string): (r: Result<seq<int>, KeyError>)
    ensures r.Success? <==> solfege in Tables.SolfegeToMidi
    ensures r.Failure? ==> r.error == KeyError(solfege)
    ensures r.Success? ==> |r.value| == |guesses| + 1 && r.value[..|guesses|] == guesses
    ensures r.Success? ==> Tables.InOctave(r.value[|guesses|])
  {
    if solfege in Tables.SolfegeToMidi then
      Tables.SolfegeIsChromaticOctave();
      Success(guesses + [Tables.SolfegeToMidi[solfege]])
    else Failure(KeyError(solfege))
  }

  /** `user_guesses.pop()` when the list is not empty. */
  function RemoveGuess(guesses: seq<int>): (r: seq<int>)
    ensures |r| == if guesses == [] then 0 else |guesses| - 1
    ensures r == guesses[..|r|]
  {
    if guesses == [] then [] else guesses[..|guesses| - 1]
  }

  /** Removing right after a successful add gives the buffer back. */
  lemma RemoveUndoesAdd(guesses: seq<int>, solfege: string)
    requires solfege in Tables.SolfegeToMidi
    ensures RemoveGuess(AddGuess(guesses, solfege).value) == guesses
  {
  }

  /** The buffer only ever holds notes of the solfege octave. */
  lemma GuessesStayInOctave(guesses: seq<int>, solfege: string)
    requires forall g :: g in guesses ==> Tables.InOctave(g)
    ensures AddGuess(guesses, solfege).Success? ==> forall g :: g in AddGuess(guesses, solfege).value ==> Tables.InOctave(g)
    ensures forall g :: g in RemoveGuess(guesses) ==> Tables.InOctave(g)
  {
    if AddGuess(guesses, solfege).Success? {
      var r := AddGuess(guesses, solfege).value;
      assert r == guesses + [r[|guesses|]];
    }
  }

  /** Generation from a usable mode (every named one is) fails only for the
      empty "Custom" mode: every other mode offers a second degree to move to. */
  lemma UsableModeFailsOnlyWhenEmpty(mode: seq<int>, n: int)
    requires Tables.UsableMode(mode)
    ensures |mode| == 0 || (n > 1 && Generation.AllSame(mode)) <==> mode == []
  {
    if mode != [] {
      assert mode[0] != mode[1];
    }
  }

  /** The generation result: the `(midi_test_notes, pre_octave_key_list)`
      pair, with the octaves and absolute notes that lead to the string. */
  datatype GeneratedRound = GeneratedRound(midiTestNotes: string, preOctaveKeyList: seq<int>, octaves: seq<int>, notes: seq<int>)

  /** What lines 236-278 promise of a round generated in `mode` and `key`
      with the truncated note count and octave range: the degrees are the
      draws' sequence, come from the mode and never repeat side by side; the
      octaves are the coins' and draws' sequence, lie in the range and only
      repeat at octave 1; the notes combine the two and the key, and their
      text reads back as the same notes. */
  ghost predicate RoundFollows(g: GeneratedRound, mode: seq<int>, key: int, numberOfNotes: int, octaveRange: int,
                               degreeDraws: int -> int, octaveCoins: int -> bool, octaveDraws: int -> int)
  {
    var len := Generation.AtLeastOne(numberOfNotes);
    && Generation.Degrees(mode, degreeDraws, len) == Some(g.preOctaveKeyList)
    && |g.preOctaveKeyList| == len
    && Generation.DrawnFrom(g.preOctaveKeyList, mode)
    && Generation.NoAdjacentRepeat(g.preOctaveKeyList)
    && Generation.Octaves(octaveRange, octaveCoins, octaveDraws, len) == Some(g.octaves)
    && |g.octaves| == len
    && Generation.OctavesWithin(g.octaves, octaveRange)
    && Generation.OctavePolicy(g.octaves)
    && g.notes == Generation.AbsoluteNotes(g.preOctaveKeyList, g.octaves, key)
    && g.midiTestNotes == Notation.Join(g.notes)
    && Notation.StringToList(g.midiTestNotes) == Success(g.notes)
  }

  /** What one round left behind. */
  datatype RoundState = RoundState(midiTestNotes: string, preOctaveKeyList: seq<int>, detailedMatch: seq<int>)

  /** The settings generation reads. */
  datatype Configuration = Configuration(difficulty: Difficulty, mode: seq<int>, key: int)

  class EarTrainingGame {
    const tiers: DifficultyTiers
    var difficulty: Difficulty
    var mode: seq<int>
    var key: int
    var gamepoints: real
    var requiredGamepoints: real
    var currentLevel: int
    var userGuesses: seq<int>
    var midiTestNotes: string
    var preOctaveKeyList: seq<int>
    var detailedMatch: seq<int>
    var running: bool

    function Progress(): Progression.Progress
      reads this
    {
      Progression.Progress(gamepoints, requiredGamepoints, currentLevel)
    }

    function Round(): RoundState
      reads this
    {
      RoundState(midiTestNotes, preOctaveKeyList, detailedMatch)
    }

    function Config(): Configuration
      reads this
    {
      Configuration(difficulty, mode, key)
    }

    /** What every method keeps: the shared tiers are sound, the active
        difficulty is one of them (not a copy), the mode is usable,
        the requirement follows its schedule, and the buffer holds only
        notes of the solfege octave. */
    ghost predicate Wf()
      reads this, tiers.Repr
    {
      && tiers.Valid()
      && difficulty in tiers.Repr
      && Tables.UsableMode(mode)
      && Progression.OnSchedule(Progress())
      && forall g :: g in userGuesses ==> Tables.InOctave(g)
    }

    /** Between two validations no level-up is owed. */
    ghost predicate Valid()
      reads this, tiers.Repr
    {
      Wf() && 0.0 <= gamepoints <= requiredGamepoints
    }

    /** `__init__` together with the class-level defaults of lines 85-98. */
    constructor (tiers: DifficultyTiers)
      requires tiers.Valid()
      ensures Valid()
      ensures this.tiers == tiers && difficulty == tiers.custom
      ensures mode == Tables.Modes["Minor Penta"] && key == Tables.KeyToAdjustment["C"]
      ensures Progress() == Progression.Progress(0.0, Progression.InitialRequired, 0)
      ensures userGuesses == [] && Round() == RoundState("", [], []) && !running
    {
      this.tiers := tiers;
      difficulty := tiers.custom;
      mode := Tables.Modes["Minor Penta"];
      key := Tables.KeyToAdjustment["C"];
      gamepoints := 0.0;
      requiredGamepoints := Progression.InitialRequired;
      currentLevel := 0;
      userGuesses := [];
      midiTestNotes := "";
      preOctaveKeyList := [];
      detailedMatch := [];
      running := false;
      new;
      Progression.InitialSteady();
      Tables.NamedModesUsable();
    }

    /** Lines 152-155. */
    method AddUserGuess(solfege: string) returns (err: Option<KeyError>)
      requires Wf()
      modifies this
      ensures Wf()
      ensures err.None? <==> solfege in Tables.SolfegeToMidi
      ensures err.None? ==> userGuesses == old(userGuesses) + [Tables.SolfegeToMidi[solfege]]
      ensures err.Some? ==> err.value == KeyError(solfege) && userGuesses == old(userGuesses)
      ensures userGuesses == (match AddGuess(old(userGuesses), solfege)
                              case Success(g) => g
                              case Failure(_) => old(userGuesses))
      ensures Config() == old(Config()) && Progress() == old(Progress()) && Round() == old(Round())
      ensures running == old(running)
    {
      GuessesStayInOctave(userGuesses, solfege);
      match AddGuess(userGuesses, solfege)
      case Success(g) =>
        userGuesses := g;
        return None;
      case Failure(e) =>
        return Some(e);
    }

    /** Lines 158-162. */
    method RemoveUserGuess()
      requires Wf()
      modifies this
      ensures Wf()
      ensures userGuesses == RemoveGuess(old(userGuesses))
      ensures old(userGuesses) == [] ==> userGuesses == []
      ensures old(userGuesses) != [] ==> old(userGuesses) == userGuesses + [old(userGuesses)[|old(userGuesses)| - 1]]
      ensures Config() == old(Config()) && Progress() == old(Progress()) && Round() == old(Round())
      ensures running == old(running)
    {
      GuessesStayInOctave(userGuesses, "");
      if userGuesses != [] {
        userGuesses := userGuesses[..|userGuesses| - 1];
      }
    }

    /** Lines 337-350: the level rises, the active difficulty dictionary
        (which is one of the shared tiers) is scaled in place, and the
        points pay for the level. */
    method LevelUp()
      requires Wf()
      modifies this, difficulty
      ensures Wf()
      ensures Progress() == Progression.LevelUp(old(Progress()))
      ensures difficulty == old(difficulty)
      ensures difficulty.Profile() == Progression.ScaleProfile(old(difficulty.Profile()))
      ensures mode == old(mode) && key == old(key) && userGuesses == old(userGuesses)
      ensures Round() == old(Round()) && running == old(running)
    {
      Progression.LevelUpKeepsSchedule(Progress());
      currentLevel := currentLevel + 1;
      difficulty.octaveRange := difficulty.octaveRange * Progression.ParameterScalar;
      difficulty.duration := difficulty.duration / Progression.ParameterScalar;
      difficulty.numberOfNotes := difficulty.numberOfNotes * Progression.ParameterScalar;
      gamepoints := gamepoints - requiredGamepoints;
      requiredGamepoints := requiredGamepoints * Progression.LevelUpScalar;
    }

    /** Lines 352-354. */
    method CheckForLevelUp()
      requires Wf()
      modifies this, difficulty
      ensures Wf()
      ensures Progress() == Progression.CheckForLevelUp(old(Progress()))
      ensures difficulty == old(difficulty)
      ensures difficulty.Profile() ==
        (if Progression.LevelUpDue(old(Progress())) then Progression.ScaleProfile(old(difficulty.Profile()))
         else old(difficulty.Profile()))
      ensures mode == old(mode) && key == old(key) && userGuesses == old(userGuesses)
      ensures Round() == old(Round()) && running == old(running)
    {
      if gamepoints > requiredGamepoints {
        LevelUp();
      }
    }

    /** Lines 307-334: compare, record the flags, add the delta, check once
        for a level-up, and return the points from before that check. */
    method ValidateUserInput() returns (r: Result<Scoring.Validation, Scoring.ValidateError>)
      requires Valid()
      modifies this, difficulty
      ensures Valid()
      ensures r == Scoring.Validate(old(preOctaveKeyList), old(userGuesses), old(gamepoints))
      ensures r.Success? ==> detailedMatch == r.value.detailedMatch
      ensures r.Success? ==> Progress() == Progression.CheckForLevelUp(old(Progress()).(gamepoints := r.value.points))
      ensures r.Success? ==> !Progression.LevelUpDue(Progress())
      ensures r.Success? ==>
                difficulty.Profile() ==
                (if currentLevel == old(currentLevel) + 1 then Progression.ScaleProfile(old(difficulty.Profile()))
                 else old(difficulty.Profile()))
      ensures r == Failure(Scoring.ZeroDivisionError) ==> detailedMatch == [] && Progress() == old(Progress())
      ensures r == Failure(Scoring.IndexError) ==> detailedMatch == old(detailedMatch) && Progress() == old(Progress())
      ensures r.Failure? ==> difficulty.Profile() == old(difficulty.Profile())
      ensures Config() == old(Config()) && userGuesses == old(userGuesses) && running == old(running)
      ensures midiTestNotes == old(midiTestNotes) && preOctaveKeyList == old(preOctaveKeyList)
    {
      var pre, guesses := preOctaveKeyList, userGuesses;
      var overallMatch := if pre == guesses then 1 else 0;
      if |pre| == 0 {
        detailedMatch := [];
        return Failure(Scoring.ZeroDivisionError);
      }
      if |guesses| < |pre| {
        return Failure(Scoring.IndexError);
      }
      var matches := Scoring.DetailedMatch(pre, guesses);
      detailedMatch := matches;
      var delta := Scoring.Delta(Scoring.Sum(matches), |pre|);
      var localGamepoints := gamepoints + delta;
      gamepoints := gamepoints + delta;
      Scoring.ValidatePointsBounded(pre, guesses, old(gamepoints));
      Progression.ScoringKeepsSteady(old(Progress()), delta);
      CheckForLevelUp();
      return Success(Scoring.Validation(overallMatch, matches, localGamepoints));
    }

    /** Lines 356-357: `int` of the active note count. */
    method GetNumberOfNotes() returns (n: int)
      requires Wf()
      ensures n >= 1
      ensures n as real <= difficulty.numberOfNotes < n as real + 1.0
    {
      n := Progression.Trunc(difficulty.numberOfNotes);
    }

    /** Lines 365-374: a known name selects its mode; any other name is ignored. */
    method SetMode(name: string)
      requires Wf()
      modifies this
      ensures Wf()
      ensures name in Tables.Modes ==> mode == Tables.Modes[name]
      ensures name !in Tables.Modes ==> mode == old(mode)
      ensures difficulty == old(difficulty) && key == old(key) && userGuesses == old(userGuesses)
      ensures Progress() == old(Progress()) && Round() == old(Round()) && running == old(running)
    {
      if name in Tables.Modes {
        Tables.NamedModesUsable();
        mode := Tables.Modes[name];
      }
    }

    /** Lines 377-385: a known tier name points the game at that shared
        tier; any other name is ignored, and no name leads back to the
        custom tier. */
    method SetDifficulty(chosen: string)
      requires Wf()
      modifies this
      ensures Wf()
      ensures difficulty == match TierNamed(chosen)
                            case Some(t) => tiers.Get(t)
                            case None => old(difficulty)
      ensures difficulty == tiers.custom ==> old(difficulty) == tiers.custom
      ensures mode == old(mode) && key == old(key) && userGuesses == old(userGuesses)
      ensures Progress() == old(Progress()) && Round() == old(Round()) && running == old(running)
    {
      if chosen == "Easy" {
        difficulty := tiers.easy;
      } else if chosen == "Medium" {
        difficulty := tiers.medium;
      } else if chosen == "Hard" {
        difficulty := tiers.hard;
      } else if chosen == "Impossible" {
        difficulty := tiers.impossible;
      }
    }

    /** Lines 236-278 up to the rendering: the degrees, then
        `pre_octave_key_list`, the octaves, the absolute notes and their
        text, which reads back as the same notes. */
    method GenerateTestSequence(degreeDraws: int -> int, octaveCoins: int -> bool, octaveDraws: int -> int)
      returns (r: Result<GeneratedRound, Generation.GenError>)
      requires Wf()
      modifies this
      ensures Wf()
      ensures r.Failure? <==> mode == []
      ensures r.Failure? ==> r.error == Generation.EmptyMode && Round() == old(Round())
      ensures r.Success? ==>
        RoundFollows(r.value, mode, key, Progression.Trunc(difficulty.numberOfNotes), Progression.Trunc(difficulty.octaveRange),
                     degreeDraws, octaveCoins, octaveDraws)
      ensures r.Success? ==> midiTestNotes == r.value.midiTestNotes && preOctaveKeyList == r.value.preOctaveKeyList
      ensures r.Success? ==> detailedMatch == old(detailedMatch)
      ensures Config() == old(Config()) && userGuesses == old(userGuesses)
      ensures Progress() == old(Progress()) && running == old(running)
    {
      var numberOfNotes := Progression.Trunc(difficulty.numberOfNotes);
      var octaveRange := Progression.Trunc(difficulty.octaveRange);
      Progression.TruncAtLeastOne(difficulty.numberOfNotes);
      Progression.TruncAtLeastOne(difficulty.octaveRange);
      UsableModeFailsOnlyWhenEmpty(mode, numberOfNotes);
      var degrees := Generation.GenerateDegrees(mode, numberOfNotes, degreeDraws);
      if degrees.Failure? {
        return Failure(degrees.error);
      }
      var octaves := Generation.AssignOctaves(octaveRange, numberOfNotes, octaveCoins, octaveDraws);
      if octaves.Failure? {
        assert false;
      }
      var notes := Generation.AbsoluteNotes(degrees.value, octaves.value, key);
      var text := Notation.Join(notes);
      // Line 252 stores the degrees before the octave stage, which cannot fail here.
      preOctaveKeyList, midiTestNotes := degrees.value, text;
      Notation.StringToListOfJoin(notes);
      r := Success(GeneratedRound(text, degrees.value, octaves.value, notes));
    }

    /** Lines 290-296: a new round with an empty buffer. The cadence is
        computed and discarded, as in the source. */
    method RestartGame(degreeDraws: int -> int, octaveCoins: int -> bool, octaveDraws: int -> int)
      returns (r: Result<GeneratedRound, Generation.GenError>)
      requires Wf()
      modifies this
      ensures Wf()
      ensures userGuesses == []
      ensures r.Failure? <==> mode == []
      ensures r.Failure? ==> r.error == Generation.EmptyMode && Round() == old(Round())
      ensures r.Success? ==>
        RoundFollows(r.value, mode, key, Progression.Trunc(difficulty.numberOfNotes), Progression.Trunc(difficulty.octaveRange),
                     degreeDraws, octaveCoins, octaveDraws)
      ensures r.Success? ==> midiTestNotes == r.value.midiTestNotes && preOctaveKeyList == r.value.preOctaveKeyList
      ensures r.Success? ==> detailedMatch == old(detailedMatch)
      ensures Config() == old(Config()) && Progress() == old(Progress()) && running == old(running)
    {
      userGuesses := [];
      var _ := Cadence.GenerateReferenceCadence(key);
      // Line 294 stores the pair again; GenerateTestSequence has already
      // stored the same two values, so the second store changes nothing.
      r := GenerateTestSequence(degreeDraws, octaveCoins, octaveDraws);
    }

    /** Lines 106-113 without the clock thread: mark the game running and
        play a first round. */
    method StartGame(degreeDraws: int -> int, octaveCoins: int -> bool, octaveDraws: int -> int)
      returns (r: Result<GeneratedRound, Generation.GenError>)
      requires Wf()
      modifies this
      ensures Wf()
      ensures running && userGuesses == []
      ensures r.Failure? <==> mode == []
      ensures r.Failure? ==> r.error == Generation.EmptyMode && Round() == old(Round())
      ensures r.Success? ==>
        RoundFollows(r.value, mode, key, Progression.Trunc(difficulty.numberOfNotes), Progression.Trunc(difficulty.octaveRange),
                     degreeDraws, octaveCoins, octaveDraws)
      ensures r.Success? ==> midiTestNotes == r.value.midiTestNotes && preOctaveKeyList == r.value.preOctaveKeyList
      ensures r.Success? ==> detailedMatch == old(detailedMatch)
      ensures Config() == old(Config()) && Progress() == old(Progress())
    {
      running := true;
      r := RestartGame(degreeDraws, octaveCoins, octaveDraws);
    }

    /** Lines 126-128 without the thread join and the folder clean-up. */
    method StopGame()
      requires Wf()
      modifies this
      ensures Wf() && !running
      ensures Config() == old(Config()) && Progress() == old(Progress())
      ensures userGuesses == old(userGuesses) && Round() == old(Round())
    {
      running := false;
    }
  }

  /** The tiers are shared and scaled in place: after one game at the easy
      tier levels up, a second game that selects "Easy" gets 2.6 notes, not
      the 2.0 of the class definition. The first game calls `level_up`
      directly, from 0 points, rather than through validated rounds, so its
      points go to -4; only the difficulty matters here. */
  method SharedTierScenario() returns (before: real, after: real)
    ensures before == 2.0 && after == 2.6
  {
    var tiers := new DifficultyTiers();
    var first := new EarTrainingGame(tiers);
    var second := new EarTrainingGame(tiers);
    first.SetDifficulty("Easy");
    before := first.difficulty.numberOfNotes;
    first.LevelUp();
    second.SetDifficulty("Easy");
    after := second.difficulty.numberOfNotes;
  }
}
