/** Tables as pandas holds them: labelled columns over rows, the errors a load
    can raise, and the `usecols` column projection shared by the CSV reads. */
module Frames {

  /** Why a read or a transform raises instead of producing a table. */
  datatype Error =
    | FileNotFound(path: string)     // the file is absent when it is read
    | WrongFormat(path: string)      // the file does not hold what the reader expects
    | MalformedCsv(path: string)     // a CSV record has another field count than the header
    | UsecolsMismatch(path: string)  // a name listed in `usecols` is not in the CSV header
    | NaNToInteger                   // `int(...)` of a missing coordinate
    | PreparationError(preparer: string)  // a preparer raised while regenerating the cache

  /** A DataFrame: its column labels in order, and its rows. */
  datatype Frame<R> = Frame(columns: seq<string>, rows: seq<R>)

  /** Every name in `usecols` is a label of `header`. */
  predicate Covers(header: seq<string>, usecols: set<string>) {
    forall c :: c in usecols ==> c in header
  }

  /** Positions, from `lo` on and in file order, of the header labels that `usecols` keeps. */
  function KeptFrom(header: seq<string>, usecols: set<string>, lo: nat): (idx: seq<nat>)
    requires lo <= |header|
    ensures forall k :: 0 <= k < |idx| ==> lo <= idx[k] < |header| && header[idx[k]] in usecols
    ensures forall i :: lo <= i < |header| && header[i] in usecols ==> i in idx
    ensures forall k, l :: 0 <= k < l < |idx| ==> idx[k] < idx[l]
    decreases |header| - lo
  {
    if lo == |header| then []
    else (if header[lo] in usecols then [lo] else []) + KeptFrom(header, usecols, lo + 1)
  }

  /** Positions of the columns `usecols` keeps; pandas ignores the order of `usecols`. */
  function KeptIndices(header: seq<string>, usecols: set<string>): seq<nat>
  {
    KeptFrom(header, usecols, 0)
  }

  /** The cells of `row` at the positions `idx`. */
  function Select<T>(row: seq<T>, idx: seq<nat>): (r: seq<T>)
    requires forall k :: 0 <= k < |idx| ==> idx[k] < |row|
  {
    seq(|idx|, k requires 0 <= k < |idx| => row[idx[k]])
  }

  /** The projected header holds exactly the labels of `header` named in `usecols`. */
  lemma ProjectedLabels(header: seq<string>, usecols: set<string>)
    ensures forall c :: c in Select(header, KeptIndices(header, usecols)) <==> c in header && c in usecols
  {
    var idx := KeptIndices(header, usecols);
    var cols := Select(header, idx);
    forall c | c in header && c in usecols
      ensures c in cols
    {
      var i :| 0 <= i < |header| && header[i] == c;
      var k :| 0 <= k < |idx| && idx[k] == i;
      assert cols[k] == c;
    }
  }
}
