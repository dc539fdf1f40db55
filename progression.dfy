/** The levelling rule of `check_for_level_up` and `level_up`, on values:
    the points state, the difficulty profile that a level-up scales, and
    Python's `int()` that turns the profile into note and octave counts. */
module Progression {

  /** `EarTrainingGame.level_up_scalar`. */
  const LevelUpScalar: real := 1.1
  /** `EarTrainingGame.parameter_scalar`. */
  const ParameterScalar: real := 1.3
  /** The initial `required_gamepoints`. */
  const InitialRequired: real := 4.0

  /** Python's `int(x)` on a float: truncation toward zero. */
  function Trunc(x: real): (n: int)
    ensures 0.0 <= x ==> 0 <= n && n as real <= x < n as real + 1.0
    ensures x < 0.0 ==> n <= 0 && n as real - 1.0 < x <= n as real
  {
    if x >= 0.0 then x.Floor else -((-x).Floor)
  }

  /** The three entries of a difficulty dictionary. */
  datatype Profile = Profile(numberOfNotes: real, octaveRange: real, duration: real)

  /** A profile that asks for at least one note in at least one octave, each
      of positive duration. */
  predicate ProfileValid(f: Profile)
  {
    f.numberOfNotes >= 1.0 && f.octaveRange >= 1.0 && f.duration > 0.0
  }

  /** Lines 341-343: range and length grow by the parameter scalar, the
      duration shrinks by it. */
  function ScaleProfile(f: Profile): (g: Profile)
    ensures ProfileValid(f) ==> ProfileValid(g)
    ensures f.numberOfNotes >= 0.0 ==> g.numberOfNotes >= f.numberOfNotes
    ensures f.octaveRange >= 0.0 ==> g.octaveRange >= f.octaveRange
    ensures f.duration > 0.0 ==> 0.0 < g.duration < f.duration
  {
    Profile(f.numberOfNotes * ParameterScalar, f.octaveRange * ParameterScalar, f.duration / ParameterScalar)
  }

  /** The levelling part of the engine's state. */
  datatype Progress = Progress(gamepoints: real, required: real, level: int)

  /** Lines 339, 349-350, with the pre-transition values on the right. */
  function LevelUp(p: Progress): (r: Progress)
    ensures r.level == p.level + 1
    ensures r.gamepoints + p.required == p.gamepoints
    ensures p.gamepoints > p.required ==> r.gamepoints > 0.0
    ensures p.required > 0.0 ==> r.required > p.required
  {
    Progress(p.gamepoints - p.required, p.required * LevelUpScalar, p.level + 1)
  }

  /** The strict comparison of line 353. */
  predicate LevelUpDue(p: Progress): (due: bool)
    ensures p.gamepoints == p.required ==> !due
  {
    p.gamepoints > p.required
  }

  /** `check_for_level_up`: one transition at most. */
  function CheckForLevelUp(p: Progress): (r: Progress)
    ensures r == p || (r.level == p.level + 1 && r.gamepoints > 0.0)
  {
    if LevelUpDue(p) then LevelUp(p) else p
  }

  function Pow(x: real, n: nat): real
  {
    if n == 0 then 1.0 else x * Pow(x, n - 1)
  }

  /** `required_gamepoints` as a function of the level: 4 * 1.1^level. */
  ghost predicate OnSchedule(p: Progress)
  {
    p.level >= 0 && p.required == InitialRequired * Pow(LevelUpScalar, p.level)
  }

  /** The state between validations: on schedule, and no level-up owed. */
  ghost predicate Steady(p: Progress)
  {
    OnSchedule(p) && 0.0 <= p.gamepoints <= p.required
  }

  /** The level rises by one exactly when the points strictly exceed the
      requirement, and otherwise nothing changes. */
  lemma CheckFiresIff(p: Progress)
    ensures CheckForLevelUp(p).level == p.level + 1 <==> p.gamepoints > p.required
    ensures CheckForLevelUp(p) == p <==> p.gamepoints <= p.required
  {
  }

  /** Equal points and requirement do not level up. */
  lemma NoLevelUpAtEquality(g: real, level: int)
    ensures CheckForLevelUp(Progress(g, g, level)) == Progress(g, g, level)
  {
  }

  lemma {:induction false} PowAtLeastOne(x: real, n: nat)
    requires x >= 1.0
    ensures Pow(x, n) >= 1.0
  {
    if n > 0 {
      PowAtLeastOne(x, n - 1);
      assert x * Pow(x, n - 1) >= Pow(x, n - 1) by {
        assert (x - 1.0) * Pow(x, n - 1) >= 0.0;
      }
    }
  }

  /** A level-up keeps the requirement on its schedule and raises it. */
  lemma LevelUpKeepsSchedule(p: Progress)
    requires OnSchedule(p)
    ensures OnSchedule(LevelUp(p))
    ensures LevelUp(p).required > p.required >= InitialRequired
  {
    PowAtLeastOne(LevelUpScalar, p.level);
    assert Pow(LevelUpScalar, p.level + 1) == LevelUpScalar * Pow(LevelUpScalar, p.level);
  }

  /** Adding a round's points (at most 1.3) to a steady state and checking
      once gives a steady state again: a single check always suffices, so
      no level-up is left owed after a validation. */
  lemma ScoringKeepsSteady(p: Progress, delta: real)
    requires Steady(p) && 0.0 <= delta <= 1.3
    ensures Steady(CheckForLevelUp(p.(gamepoints := p.gamepoints + delta)))
    ensures !LevelUpDue(CheckForLevelUp(p.(gamepoints := p.gamepoints + delta)))
  {
    var q := p.(gamepoints := p.gamepoints + delta);
    LevelUpKeepsSchedule(q);
  }

  /** The session starts steady. */
  lemma InitialSteady()
    ensures Steady(Progress(0.0, InitialRequired, 0))
  {
  }

  /** Off the steady states a single check can leave a level-up owed:
      the check does not loop. */
  lemma SingleCheckCanLeaveLevelUpDue()
    ensures LevelUpDue(CheckForLevelUp(Progress(10.0, 4.0, 0)))
  {
  }

  /** `int` of a profile value of at least 1 is at least 1. */
  lemma TruncAtLeastOne(x: real)
    requires x >= 1.0
    ensures Trunc(x) >= 1
  {
  }

  lemma TruncMonotone(x: real, y: real)
    requires 0.0 <= x <= y
    ensures Trunc(x) <= Trunc(y)
  {
  }

  /** Level-ups never shorten the sequence or narrow the octave range. */
  lemma ScalingNeverShrinksCounts(f: Profile)
    requires ProfileValid(f)
    ensures Trunc(ScaleProfile(f).numberOfNotes) >= Trunc(f.numberOfNotes) >= 1
    ensures Trunc(ScaleProfile(f).octaveRange) >= Trunc(f.octaveRange) >= 1
  {
    TruncMonotone(f.numberOfNotes, ScaleProfile(f).numberOfNotes);
    TruncMonotone(f.octaveRange, ScaleProfile(f).octaveRange);
  }

  /** Truncation, not rounding: the easy tier's 2 notes become 2.6 after one
      level-up, which still yields 2 notes, and 3.38 after the second. */
  lemma EasyTierNoteCounts()
    ensures Trunc(ScaleProfile(Profile(2.0, 1.0, 2.0)).numberOfNotes) == 2
    ensures Trunc(ScaleProfile(ScaleProfile(Profile(2.0, 1.0, 2.0))).numberOfNotes) == 3
  {
  }
}
