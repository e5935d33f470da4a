/** The orchestration `get_insee_data`: the cache gate, the preparers it may trigger, the
    twelve reads, the coordinate normaliser and the assembly of the returned bundle. */
module InseeData {
  import opened Wrappers
  import opened Frames
  import opened Catalogue
  import opened CacheGate
  import opened Coordinates
  import opened Flows

  /** A work or facility parquet table, kept as stored: commune codes and `sink_volume`. */
  datatype Table = Table(depcom: seq<string>, sinkVolume: seq<int>)

  /** What a file on disk holds. */
  datatype FileContent =
    | ParquetFile(table: Table)
    | FlowsFile(csv: Csv)
    | CommunesFile(header: seq<string>, rows: seq<SourceRow>)  // rows already typed by `dtype`

  /** The cache directory: a path exists exactly when it is a key. */
  type Disk = map<Artifact, FileContent>

  datatype Dataset =
    | Facilities(table: Table)
    | FlowTable(flows: Frame<seq<string>>)
    | CoordinateTable(coords: Frame<CommuneRow>)

  type Bundle = map<string, Dataset>

  // ---------------------------------------------------------------- reads

  /** Reading a parquet artifact: a missing file fails, and so does a file of another kind. */
  function ReadParquet(disk: Disk, path: Artifact): (r: Result<Table, Error>)
    ensures r.Ok? <==> path in disk && disk[path].ParquetFile?
    ensures path !in disk ==> r == Err(FileNotFound(RelPath(path)))
  {
    if path !in disk then Err(FileNotFound(RelPath(path)))
    else match disk[path]
      case ParquetFile(t) => Ok(t)
      case _ => Err(WrongFormat(RelPath(path)))
  }

  /** Reading the semicolon-separated flows file, keeping only the four flow columns. */
  function ReadFlowsFile(disk: Disk, path: Artifact): Result<Frame<seq<string>>, Error> {
    if path !in disk then Err(FileNotFound(RelPath(path)))
    else match disk[path]
      case FlowsFile(csv) => ReadFlows(RelPath(path), csv)
      case _ => Err(WrongFormat(RelPath(path)))
  }

  /** Reading the comma-separated communes file, keeping only its four coordinate columns. */
  function ReadCommunes(disk: Disk, path: Artifact): Result<Frame<SourceRow>, Error> {
    if path !in disk then Err(FileNotFound(RelPath(path)))
    else match disk[path]
      case CommunesFile(header, rows) =>
        if Covers(header, CommuneUsecols)
        then Ok(Frame(Select(header, KeptIndices(header, CommuneUsecols)), rows))
        else Err(UsecolsMismatch(RelPath(path)))
      case _ => Err(WrongFormat(RelPath(path)))
  }

  // ---------------------------------------------------------------- loading and assembly

  /** The file at `p` holds a parquet table. */
  predicate ParquetLoads(disk: Disk, p: Artifact) {
    p in disk && disk[p].ParquetFile?
  }

  /** The parquet reads, one after the other; the first failure propagates. */
  function ReadParquets(disk: Disk, paths: seq<Artifact>): (r: Result<seq<Table>, Error>)
    ensures r.Ok? <==> forall i :: 0 <= i < |paths| ==> ParquetLoads(disk, paths[i])
    ensures r.Ok? ==> |r.value| == |paths| && forall i :: 0 <= i < |paths| ==> r.value[i] == disk[paths[i]].table
    ensures r.Err? ==>
      exists i :: 0 <= i < |paths| && !ParquetLoads(disk, paths[i]) &&
        (forall j :: 0 <= j < i ==> ParquetLoads(disk, paths[j])) &&
        r.error == if paths[i] in disk then WrongFormat(RelPath(paths[i])) else FileNotFound(RelPath(paths[i]))
  {
    if paths == [] then Ok([])
    else
      var t :- ReadParquet(disk, paths[0]);
      var rest :- ReadParquets(disk, paths[1..]);
      assert forall i :: 1 <= i < |paths| ==> paths[i] == paths[1..][i - 1];
      Ok([t] + rest)
  }

  /** The twelve entries of the returned mapping, keyed as the source keys them. */
  function Assemble(tables: seq<Table>, rawFlowDT: Frame<seq<string>>, coordonnees: Frame<CommuneRow>): (b: Bundle)
    requires |tables| == |ParquetArtifacts|
  {
    map[
      "jobs" := Facilities(tables[0]),
      "active_population" := Facilities(tables[1]),
      "shops" := Facilities(tables[2]),
      "schools" := Facilities(tables[3]),
      "admin" := Facilities(tables[4]),
      "sport" := Facilities(tables[5]),
      "care" := Facilities(tables[6]),
      "show" := Facilities(tables[7]),
      "museum" := Facilities(tables[8]),
      "restaurant" := Facilities(tables[9]),
      "raw_flowDT" := FlowTable(rawFlowDT),
      "coordonnees" := CoordinateTable(coordonnees)]
  }

  /** The bundle's key set is fixed: twelve keys, `restaurant` in the singular, no `malls`. */
  lemma AssembleKeys(tables: seq<Table>, rawFlowDT: Frame<seq<string>>, coordonnees: Frame<CommuneRow>)
    requires |tables| == |ParquetArtifacts|
    ensures Assemble(tables, rawFlowDT, coordonnees).Keys == BundleKeys
    ensures "malls" !in Assemble(tables, rawFlowDT, coordonnees)
    ensures "restaurants" !in Assemble(tables, rawFlowDT, coordonnees)
  {
  }

  /** Everything after the gate: the reads in source order, the first failure propagating,
      then the normaliser and the assembly. */
  function LoadBundle(disk: Disk): Result<Bundle, Error> {
    var tables :- ReadParquets(disk, ParquetArtifacts);
    var rawFlowDT :- ReadFlowsFile(disk, WorkHomeFlows);
    var raw :- ReadCommunes(disk, Communes);
    var coordonnees :- Normalize(raw);
    Ok(Assemble(tables, rawFlowDT, coordonnees))
  }

  /** Each of the twelve read files is there and readable by the reader the source uses for it. */
  predicate Readable(disk: Disk) {
    (forall i :: 0 <= i < |ParquetArtifacts| ==> ParquetLoads(disk, ParquetArtifacts[i])) &&
    WorkHomeFlows in disk && disk[WorkHomeFlows].FlowsFile? &&
    Rectangular(disk[WorkHomeFlows].csv) && Covers(disk[WorkHomeFlows].csv.header, FlowUsecols) &&
    Communes in disk && disk[Communes].CommunesFile? &&
    Covers(disk[Communes].header, CommuneUsecols)
  }

  /** The load succeeds exactly when the twelve read files are readable: the malls artifact
      plays no part and the normaliser never fails. */
  lemma LoadBundleSucceeds(disk: Disk)
    ensures LoadBundle(disk).Ok? <==> Readable(disk)
  {
    if ReadCommunes(disk, Communes).Ok? {
      NormalizeIsExpected(ReadCommunes(disk, Communes).value);
    }
  }

  /** Each bundle key holds the dataset it is assembled from. */
  lemma AssembleValues(tables: seq<Table>, rawFlowDT: Frame<seq<string>>, coordonnees: Frame<CommuneRow>)
    requires |tables| == |ParquetArtifacts|
    ensures var b := Assemble(tables, rawFlowDT, coordonnees);
      b["jobs"] == Facilities(tables[0]) && b["active_population"] == Facilities(tables[1]) &&
      b["shops"] == Facilities(tables[2]) && b["schools"] == Facilities(tables[3]) &&
      b["admin"] == Facilities(tables[4]) && b["sport"] == Facilities(tables[5]) &&
      b["care"] == Facilities(tables[6]) && b["show"] == Facilities(tables[7]) &&
      b["museum"] == Facilities(tables[8]) && b["restaurant"] == Facilities(tables[9]) &&
      b["raw_flowDT"] == FlowTable(rawFlowDT) && b["coordonnees"] == CoordinateTable(coordonnees)
  {
  }

  /** The parquet tables come back in reading order, each from its own file. */
  lemma ParquetTables(disk: Disk)
    requires ReadParquets(disk, ParquetArtifacts).Ok?
    ensures var t := ReadParquets(disk, ParquetArtifacts).value;
      |t| == 10 &&
      ParquetLoads(disk, Jobs) && t[0] == disk[Jobs].table &&
      ParquetLoads(disk, ActivePopulation) && t[1] == disk[ActivePopulation].table &&
      ParquetLoads(disk, Shops) && t[2] == disk[Shops].table &&
      ParquetLoads(disk, Schools) && t[3] == disk[Schools].table &&
      ParquetLoads(disk, Admin) && t[4] == disk[Admin].table &&
      ParquetLoads(disk, Sport) && t[5] == disk[Sport].table &&
      ParquetLoads(disk, Care) && t[6] == disk[Care].table &&
      ParquetLoads(disk, Show) && t[7] == disk[Show].table &&
      ParquetLoads(disk, Museum) && t[8] == disk[Museum].table &&
      ParquetLoads(disk, Restaurants) && t[9] == disk[Restaurants].table
  {
    assert ParquetArtifacts[0] == Jobs && ParquetArtifacts[1] == ActivePopulation;
    assert ParquetArtifacts[2] == Shops && ParquetArtifacts[3] == Schools;
    assert ParquetArtifacts[4] == Admin && ParquetArtifacts[5] == Sport;
    assert ParquetArtifacts[6] == Care && ParquetArtifacts[7] == Show;
    assert ParquetArtifacts[8] == Museum && ParquetArtifacts[9] == Restaurants;
  }

  /** A successful load is the assembly of what was read, the coordinates normalised. */
  lemma LoadBundleAssembles(disk: Disk)
    requires LoadBundle(disk).Ok?
    ensures ReadParquets(disk, ParquetArtifacts).Ok? && ReadFlowsFile(disk, WorkHomeFlows).Ok?
    ensures ReadCommunes(disk, Communes).Ok?
    ensures LoadBundle(disk).value ==
      Assemble(ReadParquets(disk, ParquetArtifacts).value, ReadFlowsFile(disk, WorkHomeFlows).value,
               Frame(NewOrder, Expected(ReadCommunes(disk, Communes).value.rows)))
  {
    NormalizeIsExpected(ReadCommunes(disk, Communes).value);
  }

  /** A successful bundle has exactly the twelve keys, and each key holds the table read from its
      own file; the coordinates are the normalised rows in the order `INSEE_COM, NOM_COM, y, x`. */
  lemma BundleContents(disk: Disk)
    requires LoadBundle(disk).Ok?
    ensures LoadBundle(disk).value.Keys == BundleKeys
    ensures "malls" !in LoadBundle(disk).value && "restaurants" !in LoadBundle(disk).value
    ensures ParquetLoads(disk, Jobs) && "jobs" in LoadBundle(disk).value && LoadBundle(disk).value["jobs"] == Facilities(disk[Jobs].table)
    ensures ParquetLoads(disk, ActivePopulation) &&
      "active_population" in LoadBundle(disk).value && LoadBundle(disk).value["active_population"] == Facilities(disk[ActivePopulation].table)
    ensures ParquetLoads(disk, Shops) && "shops" in LoadBundle(disk).value && LoadBundle(disk).value["shops"] == Facilities(disk[Shops].table)
    ensures ParquetLoads(disk, Schools) && "schools" in LoadBundle(disk).value && LoadBundle(disk).value["schools"] == Facilities(disk[Schools].table)
    ensures ParquetLoads(disk, Admin) && "admin" in LoadBundle(disk).value && LoadBundle(disk).value["admin"] == Facilities(disk[Admin].table)
    ensures ParquetLoads(disk, Sport) && "sport" in LoadBundle(disk).value && LoadBundle(disk).value["sport"] == Facilities(disk[Sport].table)
    ensures ParquetLoads(disk, Care) && "care" in LoadBundle(disk).value && LoadBundle(disk).value["care"] == Facilities(disk[Care].table)
    ensures ParquetLoads(disk, Show) && "show" in LoadBundle(disk).value && LoadBundle(disk).value["show"] == Facilities(disk[Show].table)
    ensures ParquetLoads(disk, Museum) && "museum" in LoadBundle(disk).value && LoadBundle(disk).value["museum"] == Facilities(disk[Museum].table)
    ensures ParquetLoads(disk, Restaurants) &&
      "restaurant" in LoadBundle(disk).value && LoadBundle(disk).value["restaurant"] == Facilities(disk[Restaurants].table)
    ensures WorkHomeFlows in disk && disk[WorkHomeFlows].FlowsFile?
    ensures "raw_flowDT" in LoadBundle(disk).value && LoadBundle(disk).value["raw_flowDT"] == FlowTable(ReadFlows(RelPath(WorkHomeFlows), disk[WorkHomeFlows].csv).value)
    ensures Communes in disk && disk[Communes].CommunesFile?
    ensures "coordonnees" in LoadBundle(disk).value && LoadBundle(disk).value["coordonnees"] == CoordinateTable(Frame(NewOrder, Expected(disk[Communes].rows)))
  {
    LoadBundleAssembles(disk);
    var tables := ReadParquets(disk, ParquetArtifacts).value;
    var flows := ReadFlowsFile(disk, WorkHomeFlows).value;
    var coords := Frame(NewOrder, Expected(ReadCommunes(disk, Communes).value.rows));
    ParquetTables(disk);
    AssembleKeys(tables, flows, coords);
    AssembleValues(tables, flows, coords);
  }

  /** Two disks that agree on a list of parquet paths read the same from them. */
  lemma {:induction false} ReadParquetsFrame(d1: Disk, d2: Disk, paths: seq<Artifact>)
    requires forall i :: 0 <= i < |paths| ==> (paths[i] in d1 <==> paths[i] in d2)
    requires forall i :: 0 <= i < |paths| && paths[i] in d1 ==> d1[paths[i]] == d2[paths[i]]
    ensures ReadParquets(d1, paths) == ReadParquets(d2, paths)
  {
    if paths != [] {
      ReadParquetsFrame(d1, d2, paths[1..]);
    }
  }

  /** Only the twelve read paths matter: two disks that agree on them load the same bundle. */
  lemma LoadBundleReadsOnlyLoadedArtifacts(d1: Disk, d2: Disk)
    requires forall i :: 0 <= i < |LoadedArtifacts| ==> (LoadedArtifacts[i] in d1 <==> LoadedArtifacts[i] in d2)
    requires forall i :: 0 <= i < |LoadedArtifacts| && LoadedArtifacts[i] in d1 ==> d1[LoadedArtifacts[i]] == d2[LoadedArtifacts[i]]
    ensures LoadBundle(d1) == LoadBundle(d2)
  {
    assert forall i :: 0 <= i < |ParquetArtifacts| ==> LoadedArtifacts[i] == ParquetArtifacts[i];
    ReadParquetsFrame(d1, d2, ParquetArtifacts);
    assert LoadedArtifacts[10] == WorkHomeFlows && LoadedArtifacts[11] == Communes;
    assert ReadFlowsFile(d1, WorkHomeFlows) == ReadFlowsFile(d2, WorkHomeFlows);
    assert ReadCommunes(d1, Communes) == ReadCommunes(d2, Communes);
  }

  /** `malls.parquet` is checked but never read: its presence or content changes nothing. */
  lemma MallsNeverRead(disk: Disk, content: FileContent)
    ensures LoadBundle(disk[Malls := content]) == LoadBundle(disk)
    ensures LoadBundle(disk - {Malls}) == LoadBundle(disk)
  {
    CatalogueShape();
    LoadBundleReadsOnlyLoadedArtifacts(disk[Malls := content], disk);
    LoadBundleReadsOnlyLoadedArtifacts(disk - {Malls}, disk);
  }

  /** The path an error is reported against, if any. */
  function ErrorPath(e: Error): Option<string> {
    match e
    case FileNotFound(p) => Some(p)
    case WrongFormat(p) => Some(p)
    case MalformedCsv(p) => Some(p)
    case UsecolsMismatch(p) => Some(p)
    case NaNToInteger => None
    case PreparationError(_) => None
  }

  /** A failure of the load is reported against one of the twelve read paths: it never comes
      from the normaliser. */
  lemma LoadErrorNamesReadPath(disk: Disk)
    requires LoadBundle(disk).Err?
    ensures exists i :: 0 <= i < |LoadedArtifacts| && ErrorPath(LoadBundle(disk).error) == Some(RelPath(LoadedArtifacts[i]))
  {
    if ReadCommunes(disk, Communes).Ok? {
      NormalizeIsExpected(ReadCommunes(disk, Communes).value);
    }
    if ReadParquets(disk, ParquetArtifacts).Err? {
      var e := ReadParquets(disk, ParquetArtifacts).error;
      var i :| 0 <= i < |ParquetArtifacts| && e == if ParquetArtifacts[i] in disk then WrongFormat(RelPath(ParquetArtifacts[i])) else FileNotFound(RelPath(ParquetArtifacts[i]));
      assert ParquetArtifacts[i] == LoadedArtifacts[i];
    } else if ReadFlowsFile(disk, WorkHomeFlows).Err? {
      ReaderErrorPaths(disk);
      assert LoadBundle(disk).error == ReadFlowsFile(disk, WorkHomeFlows).error;
      assert LoadedArtifacts[10] == WorkHomeFlows;
    } else {
      ReaderErrorPaths(disk);
      assert LoadBundle(disk).error == ReadCommunes(disk, Communes).error;
      assert LoadedArtifacts[11] == Communes;
    }
  }

  /** The flow and communes readers report their failures against their own path. */
  lemma ReaderErrorPaths(disk: Disk)
    ensures ReadFlowsFile(disk, WorkHomeFlows).Err? ==>
      ErrorPath(ReadFlowsFile(disk, WorkHomeFlows).error) == Some(RelPath(WorkHomeFlows))
    ensures ReadCommunes(disk, Communes).Err? ==>
      ErrorPath(ReadCommunes(disk, Communes).error) == Some(RelPath(Communes))
  {
    var path := RelPath(WorkHomeFlows);
    if WorkHomeFlows in disk && disk[WorkHomeFlows].FlowsFile? {
      var csv := disk[WorkHomeFlows].csv;
      var r := ReadFlows(path, csv);
      assert ReadFlowsFile(disk, WorkHomeFlows) == r;
      if r.Err? {
        assert r.error == MalformedCsv(path) || r.error == UsecolsMismatch(path);
      }
    }
  }

  /** When every checked path exists, no read fails for a missing file. */
  lemma CompleteCacheFindsEveryFile(disk: Disk)
    requires AllExist(disk.Keys, CheckedArtifacts)
    ensures LoadBundle(disk).Err? ==> !LoadBundle(disk).error.FileNotFound?
  {
    LoadedAreChecked();
    forall i | 0 <= i < |ParquetArtifacts| ensures ParquetArtifacts[i] in disk {
      assert ParquetArtifacts[i] == LoadedArtifacts[i];
      assert CheckedArtifacts[if i < 2 then i else i + 1] in disk;
    }
    assert CheckedArtifacts[11] in disk && CheckedArtifacts[12] in disk;
    var tables := ReadParquets(disk, ParquetArtifacts);
    var flows := ReadFlowsFile(disk, WorkHomeFlows);
    var raw := ReadCommunes(disk, Communes);
    assert tables.Err? ==> !tables.error.FileNotFound?;
    assert flows.Err? ==> !flows.error.FileNotFound?;
    assert raw.Err? ==> !raw.error.FileNotFound?;
    if tables.Ok? && flows.Ok? && raw.Ok? {
      NormalizeIsExpected(raw.value);
    }
  }

  // ---------------------------------------------------------------- the gate and the preparers

  /** What one preparer call leaves: the disk as it then is, and whether the call raised. A call
      that raises may already have written some files. */
  datatype Step = Step(disk: Disk, raised: bool)

  /** The outcome of running a list of preparers: the calls actually made, the disk they leave, and
      whether the last one made raised. */
  datatype Prepared = Prepared(made: seq<Preparer>, disk: Disk, raised: bool)

  /** The preparers in `calls`, in order, each on the disk the previous one left; `run` stands for
      their unseen code. A raising preparer ends the sequence: no later one is called. */
  function RunAll(calls: seq<Preparer>, disk: Disk, run: (Preparer, Disk) -> Step): (p: Prepared)
    ensures |p.made| <= |calls| && p.made == calls[..|p.made|]
    ensures !p.raised ==> p.made == calls
    ensures p.raised ==> p.made != []
    ensures calls == [] ==> p == Prepared([], disk, false)
  {
    if calls == [] then Prepared([], disk, false)
    else
      var s := run(calls[0], disk);
      if s.raised then Prepared([calls[0]], s.disk, true)
      else
        var rest := RunAll(calls[1..], s.disk, run);
        Prepared([calls[0]] + rest.made, rest.disk, rest.raised)
  }

  /** The last call made is the one that raised, and none of the calls before it raised. */
  lemma {:induction false} RaiseIsLast(calls: seq<Preparer>, disk: Disk, run: (Preparer, Disk) -> Step)
    requires RunAll(calls, disk, run).raised
    ensures var k := |RunAll(calls, disk, run).made| - 1;
      !RunAll(calls[..k], disk, run).raised && run(calls[k], RunAll(calls[..k], disk, run).disk).raised
  {
    var s := run(calls[0], disk);
    if !s.raised {
      var rest := RunAll(calls[1..], s.disk, run);
      RaiseIsLast(calls[1..], s.disk, run);
      var j := |rest.made| - 1;
      var k := j + 1;
      assert |RunAll(calls, disk, run).made| - 1 == k;
      assert calls[..k][0] == calls[0];
      assert calls[..k][1..] == calls[1..][..j];
      assert calls[k] == calls[1..][j];
      assert RunAll(calls[..k], disk, run) ==
        Prepared([calls[0]] + RunAll(calls[1..][..j], s.disk, run).made,
                 RunAll(calls[1..][..j], s.disk, run).disk, RunAll(calls[1..][..j], s.disk, run).raised);
    } else {
      assert calls[..0] == [];
    }
  }

  /** The three preparers run in order, each on the disk the previous one left, and the first one
      that raises stops the others. */
  lemma RunAllPreparers(disk: Disk, run: (Preparer, Disk) -> Step)
    ensures var s1 := run(PrepareJobActivePopulation, disk);
      var s2 := run(PrepareFacilities, s1.disk);
      var s3 := run(DownloadWorkHomeFlows, s2.disk);
      RunAll(AllPreparers, disk, run) ==
        if s1.raised then Prepared([PrepareJobActivePopulation], s1.disk, true)
        else if s2.raised then Prepared([PrepareJobActivePopulation, PrepareFacilities], s2.disk, true)
        else Prepared(AllPreparers, s3.disk, s3.raised)
  {
    var s1 := run(PrepareJobActivePopulation, disk);
    var s2 := run(PrepareFacilities, s1.disk);
    var s3 := run(DownloadWorkHomeFlows, s2.disk);
    assert RunAll([], s3.disk, run) == Prepared([], s3.disk, false);
    assert RunAll([DownloadWorkHomeFlows], s2.disk, run) == Prepared([DownloadWorkHomeFlows], s3.disk, s3.raised);
    if !s1.raised && !s2.raised {
      assert RunAll([PrepareFacilities, DownloadWorkHomeFlows], s1.disk, run) ==
        Prepared([PrepareFacilities, DownloadWorkHomeFlows], s3.disk, s3.raised);
    }
  }

  /** A complete cache is only read: no preparer runs and the disk is left as it is. */
  lemma CompleteCacheIsReadOnly(disk: Disk, run: (Preparer, Disk) -> Step)
    requires AllExist(disk.Keys, CheckedArtifacts)
    ensures RunAll(PreparerCalls(disk.Keys), disk, run) == Prepared([], disk, false)
  {
  }

  /** When the first preparer raises, it is the only call made. */
  lemma FirstRaiseStopsPreparation(disk: Disk, run: (Preparer, Disk) -> Step)
    requires !AllExist(disk.Keys, CheckedArtifacts)
    requires run(PrepareJobActivePopulation, disk).raised
    ensures RunAll(PreparerCalls(disk.Keys), disk, run).made == [PrepareJobActivePopulation]
    ensures RunAll(PreparerCalls(disk.Keys), disk, run).raised
  {
    RunAllPreparers(disk, run);
  }

  /** The result of the whole call: the preparation error of the preparer that raised, if one
      did, and otherwise the load of the disk the preparers left. */
  function Outcome(p: Prepared): (r: Result<Bundle, Error>)
    ensures p.raised && p.made != [] ==> r == Err(PreparationError(PreparerName(p.made[|p.made| - 1])))
    ensures !p.raised ==> r == LoadBundle(p.disk)
  {
    if p.raised && p.made != [] then Err(PreparationError(PreparerName(p.made[|p.made| - 1])))
    else LoadBundle(p.disk)
  }

  /** A successful call returns the twelve keys, whatever had to be regenerated: no preparer
      raised, and every preparer the gate asked for was called. */
  lemma WholeCallKeys(disk: Disk, run: (Preparer, Disk) -> Step)
    ensures var p := RunAll(PreparerCalls(disk.Keys), disk, run);
      Outcome(p).Ok? ==> !p.raised && p.made == PreparerCalls(disk.Keys) && Outcome(p).value.Keys == BundleKeys
  {
    var p := RunAll(PreparerCalls(disk.Keys), disk, run);
    if Outcome(p).Ok? {
      BundleContents(p.disk);
    }
  }

  /** Existence is not re-checked after the preparers: if they write nothing and do not raise,
      the first read fails. */
  lemma PreparersAreTrusted()
    ensures var run := (p: Preparer, d: Disk) => Step(d, false);
      Outcome(RunAll(PreparerCalls({}), map[], run)) == Err(FileNotFound(RelPath(Jobs)))
  {
    var run := (p: Preparer, d: Disk) => Step(d, false);
    OneMissingRunsAll({}, 0);
    RunAllPreparers(map[], run);
  }

  /** The cache directory and the log of preparer calls made against it. */
  class InseeCache {
    var disk: Disk
    var calls: seq<Preparer>

    constructor (initial: Disk)
      ensures disk == initial && calls == []
    {
      disk := initial;
      calls := [];
    }

    /** One preparer call: logged, the disk replaced by whatever it leaves behind, and whether
        it raised. */
    method Invoke(p: Preparer, run: (Preparer, Disk) -> Step) returns (raised: bool)
      modifies this
      ensures calls == old(calls) + [p]
      ensures disk == run(p, old(disk)).disk
      ensures raised == run(p, old(disk)).raised
    {
      calls := calls + [p];
      var s := run(p, disk);
      disk := s.disk;
      raised := s.raised;
    }

    /** The gate, then the preparers when something is missing; a raising preparer ends the
        sequence. */
    method Prepare(run: (Preparer, Disk) -> Step) returns (raised: bool)
      modifies this
      ensures calls == old(calls) + RunAll(PreparerCalls(old(disk).Keys), old(disk), run).made
      ensures disk == RunAll(PreparerCalls(old(disk).Keys), old(disk), run).disk
      ensures raised == RunAll(PreparerCalls(old(disk).Keys), old(disk), run).raised
    {
      ghost var d0 := disk;
      var checkFiles, _ := CheckFiles(disk.Keys);
      raised := false;
      if !checkFiles {
        RunAllPreparers(d0, run);
        raised := Invoke(PrepareJobActivePopulation, run);
        if raised {
          return;
        }
        raised := Invoke(PrepareFacilities, run);
        if raised {
          return;
        }
        raised := Invoke(DownloadWorkHomeFlows, run);
      }
    }

    /** `get_insee_data()`: the gate and the preparers, then, unless one raised, the loads, the
        normaliser and the bundle. */
    method GetInseeData(run: (Preparer, Disk) -> Step) returns (r: Result<Bundle, Error>)
      modifies this
      ensures calls == old(calls) + RunAll(PreparerCalls(old(disk).Keys), old(disk), run).made
      ensures disk == RunAll(PreparerCalls(old(disk).Keys), old(disk), run).disk
      ensures r == Outcome(RunAll(PreparerCalls(old(disk).Keys), old(disk), run))
    {
      var raised := Prepare(run);
      if raised {
        // the exception of the last preparer called propagates
        r := Err(PreparationError(PreparerName(calls[|calls| - 1])));
      } else {
        r := Load();
      }
    }

    /** The reads, the normaliser and the bundle, filled one key at a time. */
    method Load() returns (r: Result<Bundle, Error>)
      ensures r == LoadBundle(disk)
    {
      // jobs, active_population, shops, schools, admin, sport, care, show, museum, restaurant
      var tables :- ReadParquets(disk, ParquetArtifacts);
      var rawFlowDT :- ReadFlowsFile(disk, WorkHomeFlows);
      var raw :- ReadCommunes(disk, Communes);

      var coordonnees := Rename(raw);
      coordonnees := coordonnees.(rows := DropNa(coordonnees.rows));
      coordonnees := coordonnees.(rows := SanitizeNames(coordonnees.rows));
      coordonnees := Reindex(coordonnees);
      var x :- ApplyFloatToInt(coordonnees.rows, X);
      coordonnees := coordonnees.(rows := x);
      var y :- ApplyFloatToInt(coordonnees.rows, Y);
      coordonnees := coordonnees.(rows := y);

      var inseeData: Bundle := map[];
      inseeData := inseeData["jobs" := Facilities(tables[0])];
      inseeData := inseeData["active_population" := Facilities(tables[1])];
      inseeData := inseeData["shops" := Facilities(tables[2])];
      inseeData := inseeData["schools" := Facilities(tables[3])];
      inseeData := inseeData["admin" := Facilities(tables[4])];
      inseeData := inseeData["sport" := Facilities(tables[5])];
      inseeData := inseeData["care" := Facilities(tables[6])];
      inseeData := inseeData["show" := Facilities(tables[7])];
      inseeData := inseeData["museum" := Facilities(tables[8])];
      inseeData := inseeData["restaurant" := Facilities(tables[9])];
      inseeData := inseeData["raw_flowDT" := FlowTable(rawFlowDT)];
      inseeData := inseeData["coordonnees" := CoordinateTable(coordonnees)];
      r := Ok(inseeData);
    }
  }
}
