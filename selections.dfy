/** `process_user_solfege_selections`: marks the selected positions of a
    twelve-slot list (Python indices, so -12..-1 count from the end) and
    reads the marked syllables back in chromatic order. */
module Selections {
  import opened Wrappers
  import Tables

  /** The IndexError of `interface_list[index] = 1` for an index outside -12..11. */
  datatype IndexError = IndexError(index: int)

  const AllSolfege: seq<string> := ["do", "ra", "re", "me", "mi", "fa", "fi", "sol", "le", "la", "te", "ti"]

  /** An index Python accepts for a list of twelve. */
  predicate InRange(index: int) { -12 <= index < 12 }

  /** The slot a Python index refers to. */
  function Slot(index: int): (s: int)
    requires InRange(index)
    ensures 0 <= s < 12
    ensures s == index || s == index + 12
  {
    if index < 0 then index + 12 else index
  }

  /** Some selection among the first `k` marks slot `i`. */
  predicate MarkedBy(selected: seq<int>, k: int, i: int)
    requires 0 <= k <= |selected|
    requires forall j :: 0 <= j < k ==> InRange(selected[j])
  {
    exists j :: 0 <= j < k && Slot(selected[j]) == i
  }

  /** The marked syllables among the first `n` slots, in slot order. */
  function Collected(selected: seq<int>, n: int): (r: seq<string>)
    requires 0 <= n <= 12
    requires forall j :: 0 <= j < |selected| ==> InRange(selected[j])
    ensures |r| <= n
  {
    if n == 0 then []
    else Collected(selected, n - 1) + (if MarkedBy(selected, |selected|, n - 1) then [AllSolfege[n - 1]] else [])
  }

  method ProcessUserSolfegeSelections(selected: seq<int>) returns (r: Result<seq<string>, IndexError>)
    ensures r.Failure? <==> exists j :: 0 <= j < |selected| && !InRange(selected[j])
    ensures r.Failure? ==> r.error.index in selected && !InRange(r.error.index)
    ensures r.Success? ==> r.value == Collected(selected, 12)
  {
    var interfaceList := new int[12](_ => 0);
    for k := 0 to |selected|
      invariant forall j :: 0 <= j < k ==> InRange(selected[j])
      invariant forall i :: 0 <= i < 12 ==> interfaceList[i] == if MarkedBy(selected, k, i) then 1 else 0
    {
      var index := selected[k];
      if !InRange(index) {
        return Failure(IndexError(index));
      }
      interfaceList[Slot(index)] := 1;
    }
    var result: seq<string> := [];
    for i := 0 to 12
      invariant result == Collected(selected, i)
    {
      if interfaceList[i] == 1 {
        result := result + [AllSolfege[i]];
      }
    }
    return Success(result);
  }

  /** A syllable is in the result exactly when some selection names its slot. */
  lemma {:induction false} CollectedMembers(selected: seq<int>, n: int, t: string)
    requires 0 <= n <= 12
    requires forall j :: 0 <= j < |selected| ==> InRange(selected[j])
    ensures t in Collected(selected, n) <==> exists i :: 0 <= i < n && AllSolfege[i] == t && MarkedBy(selected, |selected|, i)
  {
    if n > 0 {
      CollectedMembers(selected, n - 1, t);
      var marked := MarkedBy(selected, |selected|, n - 1);
      var added := if marked then [AllSolfege[n - 1]] else [];
      assert Collected(selected, n) == Collected(selected, n - 1) + added;
      if t in Collected(selected, n - 1) {
        var i :| 0 <= i < n - 1 && AllSolfege[i] == t && MarkedBy(selected, |selected|, i);
        assert 0 <= i < n;
      } else if t in Collected(selected, n) {
        assert AllSolfege[n - 1] == t && marked;
      }
      if exists i :: 0 <= i < n && AllSolfege[i] == t && MarkedBy(selected, |selected|, i) {
        var i :| 0 <= i < n && AllSolfege[i] == t && MarkedBy(selected, |selected|, i);
        if i == n - 1 {
          assert t in added;
        }
      }
    }
  }

  /** The result lists syllables in chromatic order, each at most once:
      their notes in the engine's table strictly increase. */
  lemma {:induction false} CollectedInChromaticOrder(selected: seq<int>, n: int)
    requires 0 <= n <= 12
    requires forall j :: 0 <= j < |selected| ==> InRange(selected[j])
    ensures forall k :: 0 <= k < |Collected(selected, n)| ==>
      Collected(selected, n)[k] in Tables.SolfegeToMidi && Tables.SolfegeToMidi[Collected(selected, n)[k]] < 60 + n
    ensures forall a, b :: 0 <= a < b < |Collected(selected, n)| ==>
      Tables.SolfegeToMidi[Collected(selected, n)[a]] < Tables.SolfegeToMidi[Collected(selected, n)[b]]
  {
    if n > 0 {
      CollectedInChromaticOrder(selected, n - 1);
      SyllablesAreGuessTokens();
    }
  }

  /** The order and repetition of the selections do not matter: only the
      set of slots they name does. */
  lemma {:induction false} SelectionOrderIrrelevant(s1: seq<int>, s2: seq<int>, n: int)
    requires 0 <= n <= 12
    requires forall j :: 0 <= j < |s1| ==> InRange(s1[j])
    requires forall j :: 0 <= j < |s2| ==> InRange(s2[j])
    requires forall i :: 0 <= i < 12 ==> (MarkedBy(s1, |s1|, i) <==> MarkedBy(s2, |s2|, i))
    ensures Collected(s1, n) == Collected(s2, n)
  {
    if n > 0 {
      SelectionOrderIrrelevant(s1, s2, n - 1);
    }
  }

  /** The syllables are the engine's guess alphabet. */
  lemma SyllablesAreGuessTokens()
    ensures forall i :: 0 <= i < 12 ==> AllSolfege[i] in Tables.SolfegeToMidi
    ensures forall i :: 0 <= i < 12 ==> Tables.SolfegeToMidi[AllSolfege[i]] == 60 + i
  {
  }
}
