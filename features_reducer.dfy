/**
 * The feature reducers a classifier can be given: `NoReducer`, which keeps
 * every feature, and the mRMR reducer. Neither changes a tuple in this
 * revision; only the mRMR reducer's `Init` can panic.
 */
module FeaturesReducer {
  import opened Wrappers
  import BaseDiscretize
  import FeaturesMRMR

  type Tuple = BaseDiscretize.Tuple

  datatype Reducer = NoReducer | MRMRReducer

  /** Every tuple is a `NumericTuple`. */
  predicate AllNumeric(tuples: seq<Tuple>) {
    forall i :: 0 <= i < |tuples| ==> tuples[i].NumericTuple?
  }

  /** Every tuple has the first tuple's `DataSize`. */
  predicate SameDataSize(tuples: seq<Tuple>) {
    forall i :: 0 <= i < |tuples| ==> BaseDiscretize.DataSize(tuples[i]) == BaseDiscretize.DataSize(tuples[0])
  }

  /** What the mRMR reducer's `Init` needs not to panic. */
  predicate MRMRAccepts(tuples: seq<Tuple>) {
    && |tuples| > 0
    && BaseDiscretize.NumericColumnsReadable(tuples)
    && forall i :: 0 <= i < |tuples| ==> BaseDiscretize.DataSize(tuples[0]) <= BaseDiscretize.DataSize(tuples[i])
  }

  /** The tuples a reducer's `Init` takes without panicking. */
  predicate Accepts(reducer: Reducer, tuples: seq<Tuple>) {
    reducer.NoReducer? || MRMRAccepts(tuples)
  }

  /**
   * `reducer.Init(tuples)`: nothing for NoReducer; the mRMR reducer discretises
   * the tuples and builds its tables, panicking exactly when mRMR's Init does.
   */
  method Init(reducer: Reducer, tuples: seq<Tuple>) returns (r: Result<()>)
    ensures reducer.NoReducer? ==> r.Ok?
    ensures reducer.MRMRReducer? ==> (r.Ok? <==> MRMRAccepts(tuples))
    ensures r.Ok? <==> Accepts(reducer, tuples)
  {
    if reducer.NoReducer? {
      return Ok(());
    }
    var init, _ := FeaturesMRMR.Init(tuples);
    if init.Panic? {
      return Panic(init.reason);
    }
    return Ok(());
  }

  /** `reducer.Reduce(tuples)`: both reducers return the tuples as they are. */
  function Reduce(reducer: Reducer, tuples: seq<Tuple>): (r: seq<Tuple>)
    ensures r == tuples
  {
    tuples
  }

  /** Numeric tuples of one common size are always accepted by the mRMR reducer. */
  lemma ConsistentTuplesPassMRMR(tuples: seq<Tuple>)
    requires |tuples| > 0 && AllNumeric(tuples) && SameDataSize(tuples)
    ensures MRMRAccepts(tuples)
  {
    forall j | 0 <= j < BaseDiscretize.DataSize(tuples[0]) && BaseDiscretize.DataIsNumeric(tuples[0], j)
      ensures BaseDiscretize.Readable(tuples, j)
    {
      forall i | 0 <= i < |tuples|
        ensures BaseDiscretize.GetNumericData(tuples[i], j).Ok?
      {
        assert BaseDiscretize.DataSize(tuples[i]) == |tuples[i].values|;
      }
    }
  }

  /** A nil reducer selects `NoReducer`. */
  function DefaultReducer(reducer: Option<Reducer>): (r: Reducer)
    ensures reducer.Some? ==> r == reducer.value
    ensures reducer.None? ==> r == NoReducer
  {
    if reducer.Some? then reducer.value else NoReducer
  }
}
