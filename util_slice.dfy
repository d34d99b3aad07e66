/**
 * Slice helpers of the `util` package: the in-place shuffle and the conversion
 * of a reflected slice into a slice of `interface{}` values. The random index of
 * each shuffle step is a nondeterministic choice; the choices made are returned
 * as a ghost record so that the result can be stated exactly.
 */
module UtilSlice {
  import opened Wrappers
  import opened GoValues

  /** Panic messages. */
  const NOT_A_SLICE: string := "InterfaceSlice() given a non-slice type"

  /** `s` with the entries at i and j exchanged. */
  function Swap<T>(s: seq<T>, i: nat, j: nat): (r: seq<T>)
    requires i < |s| && j < |s|
    ensures |r| == |s| && r[i] == s[j] && r[j] == s[i]
    ensures forall k :: 0 <= k < |s| && k != i && k != j ==> r[k] == s[k]
  {
    s[i := s[j]][j := s[i]]
  }

  /** Exchanging two entries keeps the multiset of entries. */
  lemma SwapIsPermutation<T>(s: seq<T>, i: nat, j: nat)
    requires i < |s| && j < |s|
    ensures multiset(Swap(s, i, j)) == multiset(s)
  {
    var t := s[i := s[j]];
    assert multiset(t) == multiset(s) - multiset{s[i]} + multiset{s[j]};
    assert multiset(t[j := s[i]]) == multiset(t) - multiset{t[j]} + multiset{s[i]};
  }

  /** Partner choices a shuffle of length-n slice can make: the i-th partner lies in [0, i]. */
  predicate ValidChoices(choices: seq<nat>, n: nat) {
    |choices| <= n && forall i :: 0 <= i < |choices| ==> choices[i] <= i
  }

  /** The slice after the swaps `s[i], s[choices[i]]` for i = 0, 1, ..., |choices|-1, in that order. */
  function Shuffled<T>(s: seq<T>, choices: seq<nat>): (r: seq<T>)
    requires ValidChoices(choices, |s|)
    ensures |r| == |s|
    decreases |choices|
  {
    if |choices| == 0 then s
    else
      var k := |choices| - 1;
      Swap(Shuffled(s, choices[..k]), k, choices[k])
  }

  /** Whatever the choices, shuffling only rearranges the entries. */
  lemma {:induction false} ShuffledIsPermutation<T>(s: seq<T>, choices: seq<nat>)
    requires ValidChoices(choices, |s|)
    ensures multiset(Shuffled(s, choices)) == multiset(s)
    decreases |choices|
  {
    if |choices| > 0 {
      var k := |choices| - 1;
      ShuffledIsPermutation(s, choices[..k]);
      SwapIsPermutation(Shuffled(s, choices[..k]), k, choices[k]);
    }
  }

  /** One more swap extends the record of choices by one. */
  lemma ShuffledSnoc<T>(s: seq<T>, choices: seq<nat>, j: nat)
    requires ValidChoices(choices, |s|) && |choices| < |s| && j <= |choices|
    ensures ValidChoices(choices + [j], |s|)
    ensures Shuffled(s, choices + [j]) == Swap(Shuffled(s, choices), |choices|, j)
  {
    var extended := choices + [j];
    assert extended[..|choices|] == choices;
    forall i | 0 <= i < |extended|
      ensures extended[i] <= i
    {
      if i < |choices| {
        assert extended[i] == choices[i];
      }
    }
  }

  /**
   * `ShuffleSlice`: for every index i in order, swaps `slice[i]` with `slice[j]` for a
   * random j with `0 <= j <= i`. The new contents are the old ones shuffled by the
   * recorded choices, hence a permutation of them.
   */
  method ShuffleSlice<T>(slice: array<T>) returns (ghost choices: seq<nat>)
    modifies slice
    ensures |choices| == slice.Length && ValidChoices(choices, slice.Length)
    ensures slice[..] == Shuffled(old(slice[..]), choices)
    ensures multiset(slice[..]) == multiset(old(slice[..]))
  {
    ghost var original := slice[..];
    choices := [];
    var i := 0;
    while i < slice.Length
      invariant 0 <= i <= slice.Length
      invariant |choices| == i && ValidChoices(choices, slice.Length)
      invariant slice[..] == Shuffled(original, choices)
    {
      var j :| 0 <= j <= i;
      ShuffledSnoc(original, choices, j);
      slice[i], slice[j] := slice[j], slice[i];
      choices := choices + [j];
      i := i + 1;
    }
    ShuffledIsPermutation(original, choices);
  }

  /**
   * The same Fisher-Yates pass over a private list of point ids, returning the
   * shuffled list (the `util.ShuffleIntSlice` that the stochastic optimizer calls).
   */
  method ShuffleIntSlice(points: seq<int>) returns (shuffled: seq<int>, ghost choices: seq<nat>)
    ensures |choices| == |points| && ValidChoices(choices, |points|)
    ensures shuffled == Shuffled(points, choices)
    ensures multiset(shuffled) == multiset(points)
  {
    shuffled := points;
    choices := [];
    var i := 0;
    while i < |shuffled|
      invariant 0 <= i <= |shuffled| == |points|
      invariant |choices| == i && ValidChoices(choices, |points|)
      invariant shuffled == Shuffled(points, choices)
    {
      var j :| 0 <= j <= i;
      ShuffledSnoc(points, choices, j);
      shuffled := Swap(shuffled, i, j);
      choices := choices + [j];
      i := i + 1;
    }
    ShuffledIsPermutation(points, choices);
  }

  /** What reflection sees in the argument of `InterfaceSlice`: a slice with its elements, or anything else. */
  datatype Reflected = SliceValue(elems: seq<Raw>) | NonSlice(value: Raw)

  /**
   * `InterfaceSlice`: panics unless the argument is a slice; otherwise copies its
   * elements, in order, into a new slice of the same length.
   */
  method InterfaceSlice(slice: Reflected) returns (r: Result<seq<Raw>>)
    ensures r.Panic? <==> slice.NonSlice?
    ensures r.Ok? ==> r.value == slice.elems
  {
    if !slice.SliceValue? {
      return Panic(NOT_A_SLICE);
    }
    var s := slice.elems;
    var ret := new Raw[|s|];
    var i := 0;
    while i < |s|
      invariant 0 <= i <= |s|
      invariant forall k :: 0 <= k < i ==> ret[k] == s[k]
    {
      ret[i] := s[i];
      i := i + 1;
    }
    return Ok(ret[..]);
  }
}
