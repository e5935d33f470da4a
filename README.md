# get_insee_data, modelled in Dafny

This project models `get_insee_data` from `mobility/get_insee_data.py`. The function builds the
INSEE data bundle that the mobility model starts from.

- **The gate.** It probes thirteen cached artifacts under `data/insee` in a fixed order. A
  running `and` stops at the first missing one.
- **The preparers.** When any artifact is missing, it calls three preparers exactly once, in order.
- **The reads.** It reads twelve of the artifacts: ten parquet tables, the home-to-work flow CSV
  and the commune coordinate CSV. The malls table is checked for but never read.
- **The normaliser.** The coordinate table goes through five steps: rename, drop incomplete rows,
  strip spaces and apostrophes from names, reorder the columns, and scale both coordinates to
  integers.
- **The result.** It returns a twelve-key mapping.

Modules, one per file:

| file | module | what it holds |
|---|---|---|
| `wrappers.dfy` | `Wrappers` | `Option` and `Result`, with `:-` propagating the first failure |
| `frames.dfy` | `Frames` | tables as column labels over rows; the errors a load raises; the `usecols` projection |
| `catalogue.dfy` | `Catalogue` | the artifacts, their relative paths, the checked and read lists, the bundle keys |
| `cache_gate.dfy` | `CacheGate` | the existence gate as a loop (`CheckFiles`) with a short-circuit reference (`Probes`); the preparer calls it triggers |
| `coordinates.dfy` | `Coordinates` | the five normaliser steps, each as a function; a one-pass reference (`Expected`) and the proof that the steps compute it |
| `flows.dfy` | `Flows` | the flow CSV read with its column projection |
| `insee_data.dfy` | `InseeData` | the disk, the readers, the load specification `LoadBundle`, and the class `InseeCache` whose method `GetInseeData` runs the whole function |

The file system is a map from artifact to file content: an artifact exists exactly when it is a
key. The three preparers are outside this model. They are a parameter
`run: (Preparer, Disk) -> Step`: a call leaves a new disk and may raise. Nothing is assumed
about what they write. A preparer that raises ends the call with a `PreparationError` naming it.
No later preparer runs, and nothing is read.

`InseeCache.GetInseeData` follows the source step by step:

- the gate loop;
- up to three logged preparer calls, stopping at the first that raises;
- the reads, with the first failure propagating;
- the five normaliser steps on a local table;
- the mapping, filled one key at a time.

Its postcondition ties the final state and the result to the specification functions
`PreparerCalls`, `RunAll`, `Outcome` and `LoadBundle`. The lemmas around those functions state what the
source promises.

Where the code and its description disagree, the model follows the code:

- `float_to_int` truncates (`int(abs(v) * 1000)`); it does not round.
- The rename maps `latitude` to `x` and `longitude` to `y`.
- The bundle key is `restaurant`, in the singular.
- There is no `malls` key, although `malls.parquet` is part of the gate.
- `donneesCommunes.csv` is part of the gate.
- Nothing is re-checked after the preparers run. A file they fail to write surfaces as a read
  error.

## Model

| member | source | states |
|---|---|---|
| Frames.KeptFrom | mobility/get_insee_data.py:107-113 | the `usecols` positions: each kept position is inside the header and names a listed column, every such position is kept, and positions stay in file order |
| Frames.ProjectedLabels | mobility/get_insee_data.py:107-113 | the projected header holds exactly the header labels that `usecols` lists |
| Catalogue.CatalogueShape | mobility/get_insee_data.py:45-107 | thirteen distinct artifacts are checked, twelve are read and there are twelve bundle keys; the read artifacts are exactly the checked ones except malls |
| Catalogue.LoadedAreChecked | mobility/get_insee_data.py:45-111 | the read list is the checked list with its third entry (malls) skipped, order kept |
| Catalogue.RelPathInjective | mobility/get_insee_data.py:45-83 | distinct artifacts live at distinct relative paths |
| CacheGate.Probes | mobility/get_insee_data.py:45-83 | the short-circuit `and` chain probes a prefix of the catalogue: it probes everything when all exist, otherwise it stops at the first missing artifact |
| CacheGate.ProbesSnoc | mobility/get_insee_data.py:46-83 | one more `and` step probes its artifact exactly when every earlier one existed |
| CacheGate.CheckFiles | mobility/get_insee_data.py:45-83 | the running flag equals "every checked artifact exists", and the probes made equal the short-circuit reference |
| CacheGate.PreparersRunOnce | mobility/get_insee_data.py:86-90 | the gate requests each preparer exactly once when some checked path is missing and none when the cache is complete; RunAll and RaiseIsLast state which requested calls are actually made |
| CacheGate.OneMissingRunsAll | mobility/get_insee_data.py:45-90 | one missing artifact, whichever it is, triggers all three preparers in source order |
| CacheGate.PreparerCalls | mobility/get_insee_data.py:86-90 | the preparers the gate asks for; PreparersRunOnce and OneMissingRunsAll state that this is none on a complete cache and all three, once each, in source order otherwise |
| Coordinates.RenameColumns | mobility/get_insee_data.py:114 | latitude becomes x, longitude becomes y, code_commune_INSEE becomes INSEE_COM, nom_commune_postal becomes NOM_COM; other labels are kept; width is kept |
| Coordinates.RenameRows | mobility/get_insee_data.py:114 | each row is relabelled in place: same count, same order, values carried over |
| Coordinates.DropNa | mobility/get_insee_data.py:115 | the kept rows are exactly the source rows with a name and both coordinates, with their multiplicities |
| Coordinates.DropNaConcat | mobility/get_insee_data.py:115 | dropna commutes with concatenation, so relative order is kept |
| Coordinates.KeepsRowWithoutCode | mobility/get_insee_data.py:115 | a row without a commune code still survives: the code is not in `subset` |
| Coordinates.Replace | mobility/get_insee_data.py:116 | one `str.replace`: removes every occurrence of the character, adds nothing, and keeps the count of every other character |
| Coordinates.ReplaceConcat | mobility/get_insee_data.py:116 | a replacement distributes over concatenation |
| Coordinates.Sanitize | mobility/get_insee_data.py:116 | the cleaned name has no space and no apostrophe and keeps the count of every other character |
| Coordinates.SanitizeIsFilter | mobility/get_insee_data.py:116 | the two chained replacements equal a single one-pass filter of both characters |
| Coordinates.SanitizeKeepsClean | mobility/get_insee_data.py:116 | a name with neither character is left unchanged |
| Coordinates.SanitizeIdempotent | mobility/get_insee_data.py:116 | cleaning twice equals cleaning once |
| Coordinates.SanitizeConcat | mobility/get_insee_data.py:116 | cleaning distributes over concatenation |
| Coordinates.KeepNameCharsConcat | mobility/get_insee_data.py:116 | the reference filter distributes over concatenation |
| Coordinates.Rename | mobility/get_insee_data.py:114 | the rename of the table: RenameColumns pins its labels and RenameRows its rows; NormalizeIsExpected pins its part of the pipeline |
| Coordinates.SanitizeNames | mobility/get_insee_data.py:116 | only NOM_COM changes, row by row, and a missing name stays missing |
| Coordinates.Reindex | mobility/get_insee_data.py:117-118 | the column order becomes INSEE_COM, NOM_COM, y, x and the rows are kept; ReindexKeepsColumns shows that no column is invented |
| Coordinates.ReindexKeepsColumns | mobility/get_insee_data.py:112-118 | after the rename, the four columns are exactly the ones the reorder asks for, so reindexing invents no column |
| Coordinates.FloatToInt | mobility/get_insee_data.py:121-122 | the result is the integer part of abs(v)*1000: non-negative, at most the product and within one below it |
| Coordinates.FloatToIntIgnoresSign | mobility/get_insee_data.py:121-122 | the sign of the coordinate is discarded |
| Coordinates.FloatToIntTruncates | mobility/get_insee_data.py:121-122 | 48.8566 and -48.8566 both give 48856, and 2.3522 gives 2352 (truncated, not rounded) |
| Coordinates.ScaleCell | mobility/get_insee_data.py:121-126 | a present coordinate scales to a non-negative integer; a missing one cannot be converted |
| Coordinates.ApplyFloatToInt | mobility/get_insee_data.py:125-126 | the column conversion succeeds exactly when the column has no missing value; it converts every row's coordinate on that axis and leaves the rest of the row alone; a failure is the NaN-to-integer error |
| Coordinates.ScaleCoordinates | mobility/get_insee_data.py:125-126 | x is converted and then y; ScaleCoordinatesComplete and PipelineIsExpected state that it never fails on rows that survived dropna, and that it scales both coordinates of every row |
| Coordinates.Normalize | mobility/get_insee_data.py:114-126 | the whole normaliser, step by step; NormalizeIsExpected proves it never fails and equals the one-pass reference under columns INSEE_COM, NOM_COM, y, x |
| Coordinates.ExpectedRows | mobility/get_insee_data.py:114-126 | the normalised table has no more rows than the file, and every row has a cleaned name and two non-negative integer coordinates |
| Coordinates.ExpectedConcat | mobility/get_insee_data.py:114-126 | the normaliser works row by row: it commutes with concatenation |
| Coordinates.PipelineIsExpected | mobility/get_insee_data.py:115-126 | dropna, cleaning and both conversions in sequence equal the one-pass reference, and never fail |
| Coordinates.NormalizeIsExpected | mobility/get_insee_data.py:114-126 | the whole normaliser never fails and yields columns INSEE_COM, NOM_COM, y, x over the reference rows |
| Flows.ProjectCells | mobility/get_insee_data.py:107-109 | the projection keeps every record, gives it one cell per kept column, and takes each cell from the source column with that label |
| Flows.ReadCsv | mobility/get_insee_data.py:107-109 | the read succeeds exactly on a rectangular file whose header has every listed column; a missing column is reported before a ragged record; it keeps exactly the listed columns and every record; cells come from their own columns; a failure names the file |
| Flows.ReadFlows | mobility/get_insee_data.py:107-109 | the flow read is the CSV read with `usecols` COMMUNE, DCLT, IPONDI, TRANS; ReadCsv's contract and FlowsHaveFourColumns state what it keeps |
| Flows.ProjectedWidth | mobility/get_insee_data.py:107-108 | on a header of distinct labels, the projection has one column per listed name |
| Flows.FlowsHaveFourColumns | mobility/get_insee_data.py:107-108 | the flow table has exactly four columns |
| InseeData.ReadParquet | mobility/get_insee_data.py:95-106 | reading succeeds exactly on a present parquet file; an absent file is FileNotFound for its path |
| InseeData.ReadFlowsFile | mobility/get_insee_data.py:107-109 | an absent flow file is FileNotFound, a file of another kind is WrongFormat, and otherwise it is read as ReadFlows does; BundleContents and CompleteCacheFindsEveryFile use this |
| InseeData.ReadCommunes | mobility/get_insee_data.py:111-113 | an absent communes file is FileNotFound; a header without the four coordinate columns is UsecolsMismatch; otherwise it keeps those columns (ProjectedLabels) and every row; LoadBundleSucceeds states when it succeeds |
| InseeData.ReadParquets | mobility/get_insee_data.py:95-106 | the ten reads succeed exactly when every file loads, returning the tables in order; otherwise the error is that of the first failing read |
| InseeData.Assemble | mobility/get_insee_data.py:129-140 | the twelve-key mapping; AssembleKeys pins its keys and BundleContents its values |
| InseeData.AssembleKeys | mobility/get_insee_data.py:129-140 | the mapping has exactly the twelve keys, with no `malls` and no `restaurants` |
| InseeData.LoadBundle | mobility/get_insee_data.py:93-140 | everything after the preparers; LoadBundleSucceeds, BundleContents, MallsNeverRead, LoadErrorNamesReadPath and CompleteCacheFindsEveryFile state its meaning |
| InseeData.LoadBundleSucceeds | mobility/get_insee_data.py:95-126 | the load succeeds exactly when the twelve read files are readable; malls plays no part and the normaliser never fails |
| InseeData.ParquetTables | mobility/get_insee_data.py:95-106 | after a successful read, table k is the content of parquet artifact k |
| InseeData.LoadBundleAssembles | mobility/get_insee_data.py:93-142 | a successful load is the assembly of the three reads, with the coordinates normalised |
| InseeData.BundleContents | mobility/get_insee_data.py:93-142 | a returned bundle has the twelve keys; each holds the table read from its own file; the flows are the projected CSV; the coordinates are the normalised rows in column order INSEE_COM, NOM_COM, y, x |
| InseeData.ReadParquetsFrame | mobility/get_insee_data.py:95-106 | the parquet reads depend only on the files they name |
| InseeData.LoadBundleReadsOnlyLoadedArtifacts | mobility/get_insee_data.py:95-113 | two disks that agree on the twelve read artifacts load the same result |
| InseeData.MallsNeverRead | mobility/get_insee_data.py:50 | adding, changing or deleting `malls.parquet` never changes the load |
| InseeData.LoadErrorNamesReadPath | mobility/get_insee_data.py:95-126 | every failure names the path of one of the twelve read artifacts |
| InseeData.CompleteCacheFindsEveryFile | mobility/get_insee_data.py:45-113 | when the gate passes, no read fails with FileNotFound |
| InseeData.RunAll | mobility/get_insee_data.py:88-90 | the calls made are a prefix of the requested ones; when none raised, all of them are made; when one raised, at least one call was made; with no calls the disk is untouched |
| InseeData.RaiseIsLast | mobility/get_insee_data.py:88-90 | when the run ends in a raise, the last call made is the one that raised, on the disk the earlier calls left, and none of the earlier calls raised |
| InseeData.RunAllPreparers | mobility/get_insee_data.py:86-90 | the preparers run in order, each on the disk the previous one left; the first one that raises is the last one called |
| InseeData.CompleteCacheIsReadOnly | mobility/get_insee_data.py:86-90 | a complete cache triggers no preparer and leaves the disk unchanged |
| InseeData.FirstRaiseStopsPreparation | mobility/get_insee_data.py:86-90 | when the first preparer raises, it is the only call made |
| InseeData.Outcome | mobility/get_insee_data.py:86-142 | a raising preparer's exception ends the call, named after that preparer, and nothing is read; otherwise the result is the load of the disk the preparers left; WholeCallKeys states what a success implies |
| InseeData.WholeCallKeys | mobility/get_insee_data.py:86-142 | a successful call had no preparer raise, made every call the gate requested, and returns exactly the twelve bundle keys |
| InseeData.PreparersAreTrusted | mobility/get_insee_data.py:86-95 | existence is not re-checked: with an empty cache and preparers that write nothing and do not raise, the first parquet read fails |
| InseeData.InseeCache.Invoke | mobility/get_insee_data.py:88-90 | one preparer call is logged, replaces the disk by what it leaves, and reports whether it raised |
| InseeData.InseeCache.Prepare | mobility/get_insee_data.py:45-90 | the gate loop, then the preparers it asks for, logged in order and stopping at the first that raises; the new log, disk and raise flag are those of RunAll |
| InseeData.InseeCache.Load | mobility/get_insee_data.py:93-142 | the reads with the first failure propagating, the normaliser steps on a local table and the mapping filled key by key equal the load specification LoadBundle on the current disk |
| InseeData.InseeCache.GetInseeData | mobility/get_insee_data.py:12-142 | the call log grows by the preparers actually called, up to the first that raises; the disk is what they leave; the result is the preparation error or the load of that disk |

## Left out

- File-system access is modelled as a map from artifact to content. `Path(os.path.dirname(__file__))`
  resolution is not modelled. Neither are permissions, symbolic links, or races between the
  existence check and the reads.
- The three preparers' internals (parsing, downloads, writes) are not modelled. They are the
  `run` parameter, and the model assumes nothing about what they write or whether they raise.
  An exception is modelled only as "raised", named after its preparer, not by its type or
  message.
- The cache directory holds only the thirteen catalogued artifacts. A stray file under
  `data/insee` is not represented, so the model cannot state that such a file never affects the
  gate.
- The `print` before the preparers is not modelled: it has no effect on the result.
- Parquet decoding is not modelled. A parquet file is modelled as its table: commune codes and
  `sink_volume`.
- CSV tokenising and quoting of `FD_MOBPRO_2019.csv` are not modelled. That file is modelled as
  its header and records of text fields. The communes file is modelled differently: see below.
- A record of `FD_MOBPRO_2019.csv` with a different field count from the header is treated as
  an error. pandas would
  pad short rows with NaN.
- Duplicate header labels are not renamed as pandas would rename them.
- Flows.ReadFlows: the `dtype` coercion of the flow columns is not modelled. Flow cells stay
  text, and a conversion failure is not represented.
- The communes file is modelled with rows already typed: optional strings for the code and the
  name, optional reals for the coordinates. `dtype` parsing errors are not modelled.
- Coordinates are exact reals, not IEEE doubles. `int(abs(v) * 1000)` is therefore exact
  truncation. Double rounding in the product can differ at the last unit, so FloatToIntTruncates
  states the exact-real value.
- Coordinates.Reindex: the row datatype has fixed fields, so the reorder changes only the column
  labels. Column position is not represented inside a row.
- The DataFrame index (row labels kept across `dropna`) is not modelled. Rows are an ordered
  sequence.
- The 32-bit or 64-bit width of the integer coordinates is not modelled. French coordinates
  times 1000 fit easily.
- Bundle: the returned dict is a map, so its key insertion order (`jobs` first, `coordonnees`
  last) is not modelled. Only the key set and each key's value are.
- Concurrency: a second process writing the cache during a call is not modelled.
