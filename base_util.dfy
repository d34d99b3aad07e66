/**
 * Utilities of the `base` package: the concurrency setting, the tuple shuffle,
 * index selection and class stripping. In this revision a tuple is a value with
 * feature data and a feature class that `SetClass(nil)` clears.
 */
module BaseUtil {
  import opened Wrappers
  import opened GoValues
  import opened UtilHelpers
  import opened UtilSlice

  /** Panic messages. */
  const INDEX_OUT_OF_RANGE: string := "index out of range"

  /** A tuple of this revision; `classFeature == None` is a nil class. */
  datatype Tuple = Tuple(data: seq<Feature>, classFeature: Option<Feature>)

  /** A tuple whose data are numbers. */
  datatype NumericTuple = NumericTuple(data: seq<real>, classFeature: Option<Feature>)

  /**
   * The package variables `maxProcs` and `machineMaxProcs`. Both start at the
   * machine's `GOMAXPROCS`, which is a parameter of the constructor.
   */
  class ProcSettings {
    var maxProcs: int
    const machineMaxProcs: int

    ghost predicate Valid()
      reads this
    {
      0 <= maxProcs <= machineMaxProcs
    }

    constructor (gomaxprocs: int)
      requires gomaxprocs >= 1
      ensures Valid()
      ensures maxProcs == gomaxprocs && machineMaxProcs == gomaxprocs
    {
      maxProcs := gomaxprocs;
      machineMaxProcs := gomaxprocs;
    }

    /** `GetMaxProcs`. */
    function GetMaxProcs(): (n: int)
      reads this
      requires Valid()
      ensures 0 <= n <= machineMaxProcs
    {
      maxProcs
    }

    /**
     * `SetMaxProcs`: stores and returns the request clamped to `[0, machineMaxProcs]`;
     * a request inside that range is kept exactly.
     */
    method SetMaxProcs(max: int) returns (used: int)
      requires Valid()
      modifies this
      ensures Valid()
      ensures used == maxProcs == MinInt(MaxInt(max, 0), machineMaxProcs)
      ensures 0 <= max <= machineMaxProcs ==> used == max
      ensures max < 0 ==> used == 0
      ensures max > machineMaxProcs ==> used == machineMaxProcs
    {
      maxProcs := MinInt(MaxInt(max, 0), machineMaxProcs);
      return maxProcs;
    }
  }

  /** The clamp of SetMaxProcs lands in `[0, machine]` and is idempotent. */
  lemma ClampBoundsAndIdempotent(max: int, machine: int)
    requires machine >= 0
    ensures 0 <= MinInt(MaxInt(max, 0), machine) <= machine
    ensures MinInt(MaxInt(MinInt(MaxInt(max, 0), machine), 0), machine) == MinInt(MaxInt(max, 0), machine)
  {
  }

  /**
   * `ShuffleTuples`: the same Fisher-Yates pass as the slice shuffle, swapping
   * `slice[i]` with a random `slice[j]`, `0 <= j <= i`, for every i in order.
   */
  method ShuffleTuples(slice: array<Tuple>) returns (ghost choices: seq<nat>)
    modifies slice
    ensures |choices| == slice.Length && ValidChoices(choices, slice.Length)
    ensures slice[..] == Shuffled(old(slice[..]), choices)
    ensures multiset(slice[..]) == multiset(old(slice[..]))
  {
    choices := ShuffleSlice(slice);
  }

  /** Every index is a position of a list of length n. */
  predicate IndexesInRange(indexes: seq<int>, n: nat) {
    forall i :: 0 <= i < |indexes| ==> 0 <= indexes[i] < n
  }

  /**
   * `SelectTuples`: `len(indexes)` tuples, the i-th being `tuples[indexes[i]]`; an
   * index out of range panics.
   */
  method SelectTuples<T>(tuples: seq<T>, indexes: seq<int>) returns (r: Result<seq<T>>)
    ensures r.Ok? <==> IndexesInRange(indexes, |tuples|)
    ensures r.Ok? ==> |r.value| == |indexes|
    ensures r.Ok? ==> forall i :: 0 <= i < |indexes| ==> r.value[i] == tuples[indexes[i]]
  {
    var rtn: seq<T> := [];
    var i := 0;
    while i < |indexes|
      invariant 0 <= i <= |indexes|
      invariant IndexesInRange(indexes[..i], |tuples|)
      invariant |rtn| == i
      invariant forall k :: 0 <= k < i ==> rtn[k] == tuples[indexes[k]]
    {
      var chosenIndex := indexes[i];
      if !(0 <= chosenIndex < |tuples|) {
        return Panic(INDEX_OUT_OF_RANGE);
      }
      rtn := rtn + [tuples[chosenIndex]];
      assert indexes[..i + 1] == indexes[..i] + [chosenIndex];
      i := i + 1;
    }
    assert indexes[..i] == indexes;
    return Ok(rtn);
  }

  /** `SelectNumericTuples`: SelectTuples on a list of numeric tuples. */
  method SelectNumericTuples(tuples: seq<NumericTuple>, indexes: seq<int>) returns (r: Result<seq<NumericTuple>>)
    ensures r.Ok? <==> IndexesInRange(indexes, |tuples|)
    ensures r.Ok? ==> |r.value| == |indexes|
    ensures r.Ok? ==> forall i :: 0 <= i < |indexes| ==> r.value[i] == tuples[indexes[i]]
  {
    r := SelectTuples(tuples, indexes);
  }

  /**
   * `StripClasses`: copies of the tuples with a nil class and their data unchanged,
   * and the classes in the original order.
   */
  method StripClasses(tuples: seq<Tuple>) returns (rtnTuples: seq<Tuple>, rtnClasses: seq<Option<Feature>>)
    ensures |rtnTuples| == |tuples| && |rtnClasses| == |tuples|
    ensures forall i :: 0 <= i < |tuples| ==>
              rtnTuples[i] == Tuple(tuples[i].data, None) && rtnClasses[i] == tuples[i].classFeature
  {
    var copies := new Tuple[|tuples|](i requires 0 <= i < |tuples| => tuples[i]);
    var classes := new Option<Feature>[|tuples|];
    var i := 0;
    while i < |tuples|
      invariant 0 <= i <= |tuples|
      invariant forall k :: 0 <= k < i ==> copies[k] == Tuple(tuples[k].data, None) && classes[k] == tuples[k].classFeature
      invariant forall k :: i <= k < |tuples| ==> copies[k] == tuples[k]
    {
      classes[i] := copies[i].classFeature;
      copies[i] := copies[i].(classFeature := None);
      i := i + 1;
    }
    return copies[..], classes[..];
  }

  /** Restoring the stripped classes gives back the original tuples. */
  lemma StripClassesRoundTrip(tuples: seq<Tuple>, rtnTuples: seq<Tuple>, rtnClasses: seq<Option<Feature>>)
    requires |rtnTuples| == |tuples| && |rtnClasses| == |tuples|
    requires forall i :: 0 <= i < |tuples| ==>
               rtnTuples[i] == Tuple(tuples[i].data, None) && rtnClasses[i] == tuples[i].classFeature
    ensures forall i :: 0 <= i < |tuples| ==> rtnTuples[i].(classFeature := rtnClasses[i]) == tuples[i]
  {
  }
}
