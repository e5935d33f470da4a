/** The home-to-work flow table: `FD_MOBPRO_2019.csv` projected onto its four `usecols`. */
module Flows {
  import opened Wrappers
  import opened Frames

  const FlowUsecols: set<string> := {"COMMUNE", "DCLT", "IPONDI", "TRANS"}

  /** A CSV file as text fields: its header and its records. */
  datatype Csv = Csv(header: seq<string>, records: seq<seq<string>>)

  /** Every record has one field per header label. */
  predicate Rectangular(csv: Csv) {
    forall k :: 0 <= k < |csv.records| ==> |csv.records[k]| == |csv.header|
  }

  /** The columns of a rectangular file at the positions `usecols` keeps. */
  function Project(csv: Csv, usecols: set<string>): Frame<seq<string>>
    requires Rectangular(csv)
  {
    var idx := KeptIndices(csv.header, usecols);
    Frame(Select(csv.header, idx),
          seq(|csv.records|, k requires 0 <= k < |csv.records| => Select(csv.records[k], idx)))
  }

  /** The projection keeps every record, gives each one cell per kept column, and takes each
      cell from the source column of the same label. */
  lemma ProjectCells(csv: Csv, usecols: set<string>)
    requires Rectangular(csv)
    ensures var f := Project(csv, usecols);
      |f.rows| == |csv.records| &&
      (forall k :: 0 <= k < |f.rows| ==> |f.rows[k]| == |f.columns|) &&
      (forall k, j :: 0 <= k < |f.rows| && 0 <= j < |f.columns| ==>
        exists i :: 0 <= i < |csv.header| && csv.header[i] == f.columns[j] && f.rows[k][j] == csv.records[k][i])
  {
    var idx := KeptIndices(csv.header, usecols);
    var f := Project(csv, usecols);
    forall k, j | 0 <= k < |f.rows| && 0 <= j < |f.columns|
      ensures exists i :: 0 <= i < |csv.header| && csv.header[i] == f.columns[j] && f.rows[k][j] == csv.records[k][i]
    {
      var i := idx[j];
      assert csv.header[i] == f.columns[j] && f.rows[k][j] == csv.records[k][i];
    }
  }

  /** A CSV read restricted to a set of columns: fails when a listed column is absent from the
      header (checked first, as the header is read before any record) or on a ragged file;
      otherwise keeps exactly the listed columns, in file order, and every record. */
  function ReadCsv(path: string, csv: Csv, usecols: set<string>): (r: Result<Frame<seq<string>>, Error>)
    ensures r.Ok? <==> Rectangular(csv) && Covers(csv.header, usecols)
    ensures r.Err? ==> r.error == if Covers(csv.header, usecols) then MalformedCsv(path) else UsecolsMismatch(path)
    ensures r.Ok? ==> forall c :: c in r.value.columns <==> c in usecols
    ensures r.Ok? ==> |r.value.rows| == |csv.records|
    ensures r.Ok? ==> forall k :: 0 <= k < |r.value.rows| ==> |r.value.rows[k]| == |r.value.columns|
    ensures r.Ok? ==> forall k, j :: 0 <= k < |r.value.rows| && 0 <= j < |r.value.columns| ==>
      exists i :: 0 <= i < |csv.header| && csv.header[i] == r.value.columns[j] && r.value.rows[k][j] == csv.records[k][i]
  {
    if !Covers(csv.header, usecols) then Err(UsecolsMismatch(path))
    else if !Rectangular(csv) then Err(MalformedCsv(path))
    else
      ProjectedLabels(csv.header, usecols);
      ProjectCells(csv, usecols);
      Ok(Project(csv, usecols))
  }

  /** The flow table keeps exactly `COMMUNE`, `DCLT`, `IPONDI` and `TRANS` and every record. */
  function ReadFlows(path: string, csv: Csv): (r: Result<Frame<seq<string>>, Error>)
  {
    ReadCsv(path, csv, FlowUsecols)
  }

  /** On a header of distinct labels that has every `usecols` name, the projection has one
      column per name. */
  lemma ProjectedWidth(header: seq<string>, usecols: set<string>)
    requires Covers(header, usecols)
    requires forall i, j :: 0 <= i < j < |header| ==> header[i] != header[j]
    ensures |Select(header, KeptIndices(header, usecols))| == |usecols|
  {
    var idx := KeptIndices(header, usecols);
    var cols := Select(header, idx);
    forall k, l | 0 <= k < l < |cols| ensures cols[k] != cols[l] {
      assert idx[k] < idx[l];
    }
    ProjectedLabels(header, usecols);
    DistinctCover(cols, usecols);
  }

  /** On a file with a header of distinct labels, the flow table has exactly four columns. */
  lemma FlowsHaveFourColumns(path: string, csv: Csv)
    requires ReadFlows(path, csv).Ok?
    requires forall i, j :: 0 <= i < j < |csv.header| ==> csv.header[i] != csv.header[j]
    ensures |ReadFlows(path, csv).value.columns| == 4
  {
    assert Rectangular(csv) && Covers(csv.header, FlowUsecols);
    assert ReadFlows(path, csv).value == Project(csv, FlowUsecols);
    ProjectedWidth(csv.header, FlowUsecols);
    FlowUsecolsSize();
  }

  lemma FlowUsecolsSize()
    ensures |FlowUsecols| == 4
  {
  }

  /** A sequence of distinct elements whose elements are exactly a set has that set's size. */
  lemma {:induction false} DistinctCover(s: seq<string>, u: set<string>)
    requires forall k, l :: 0 <= k < l < |s| ==> s[k] != s[l]
    requires forall c :: c in s <==> c in u
    ensures |s| == |u|
  {
    if s != [] {
      var rest := s[1..];
      forall c | c in rest ensures c in u - {s[0]} {
        var k :| 0 <= k < |rest| && rest[k] == c;
        assert s[k + 1] == c;
      }
      forall c | c in u - {s[0]} ensures c in rest {
        var k :| 0 <= k < |s| && s[k] == c;
        assert k != 0;
        assert rest[k - 1] == c;
      }
      DistinctCover(rest, u - {s[0]});
    } else {
      assert forall c :: c !in u;
    }
  }
}
