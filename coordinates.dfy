/** The normaliser of the commune coordinate table: rename, drop incomplete rows,
    sanitise names, reorder, then scale both coordinates to integers. */
module Coordinates {
  import opened Wrappers
  import opened Frames

  /** A numeric cell: missing (NaN), a float, or an integer once scaled. */
  datatype Cell = NaN | Float(v: real) | Int(n: int)

  /** A row as read from `donneesCommunes.csv`, restricted to its four `usecols` and typed by `dtype`. */
  datatype SourceRow = SourceRow(
    codeCommuneInsee: Option<string>,
    nomCommunePostal: Option<string>,
    latitude: Option<real>,
    longitude: Option<real>)

  /** A row after the rename; `x` holds the latitude and `y` the longitude. */
  datatype CommuneRow = CommuneRow(inseeCom: Option<string>, nomCom: Option<string>, x: Cell, y: Cell)

  const CommuneUsecols: set<string> := {"code_commune_INSEE", "nom_commune_postal", "latitude", "longitude"}

  const RenameMap: map<string, string> :=
    map["code_commune_INSEE" := "INSEE_COM", "nom_commune_postal" := "NOM_COM", "latitude" := "x", "longitude" := "y"]

  const NewOrder: seq<string> := ["INSEE_COM", "NOM_COM", "y", "x"]

  // ---------------------------------------------------------------- rename

  function RenameLabel(c: string): string {
    if c in RenameMap then RenameMap[c] else c
  }

  /** `rename(columns=...)` on the labels: mapped labels change, the others stay. */
  function RenameColumns(cols: seq<string>): (r: seq<string>)
    ensures |r| == |cols|
    ensures forall i :: 0 <= i < |cols| && cols[i] == "latitude" ==> r[i] == "x"
    ensures forall i :: 0 <= i < |cols| && cols[i] == "longitude" ==> r[i] == "y"
    ensures forall i :: 0 <= i < |cols| && cols[i] == "code_commune_INSEE" ==> r[i] == "INSEE_COM"
    ensures forall i :: 0 <= i < |cols| && cols[i] == "nom_commune_postal" ==> r[i] == "NOM_COM"
    ensures forall i :: 0 <= i < |cols| && cols[i] !in RenameMap ==> r[i] == cols[i]
  {
    seq(|cols|, i requires 0 <= i < |cols| => RenameLabel(cols[i]))
  }

  function ToCell(v: Option<real>): Cell {
    match v
    case None => NaN
    case Some(f) => Float(f)
  }

  function RenameRow(r: SourceRow): CommuneRow {
    CommuneRow(r.codeCommuneInsee, r.nomCommunePostal, ToCell(r.latitude), ToCell(r.longitude))
  }

  /** The rename moves each value to its new label: latitude to `x`, longitude to `y`. */
  function RenameRows(rows: seq<SourceRow>): (out: seq<CommuneRow>)
    ensures |out| == |rows|
    ensures forall i :: 0 <= i < |rows| ==>
      out[i].inseeCom == rows[i].codeCommuneInsee && out[i].nomCom == rows[i].nomCommunePostal &&
      out[i].x == ToCell(rows[i].latitude) && out[i].y == ToCell(rows[i].longitude)
  {
    if rows == [] then [] else [RenameRow(rows[0])] + RenameRows(rows[1..])
  }

  function Rename(f: Frame<SourceRow>): Frame<CommuneRow> {
    Frame(RenameColumns(f.columns), RenameRows(f.rows))
  }

  // ---------------------------------------------------------------- dropna

  /** `dropna(subset=['NOM_COM', 'x', 'y'])` keeps a row when these three are present. */
  predicate Complete(r: CommuneRow) {
    r.nomCom.Some? && r.x != NaN && r.y != NaN
  }

  /** The rows with name and both coordinates, each as often as in the input. */
  function DropNa(rows: seq<CommuneRow>): (kept: seq<CommuneRow>)
    ensures |kept| <= |rows|
    ensures forall i :: 0 <= i < |kept| ==> Complete(kept[i])
    ensures forall r :: multiset(kept)[r] == if Complete(r) then multiset(rows)[r] else 0
  {
    if rows == [] then []
    else
      assert rows == [rows[0]] + rows[1..];
      (if Complete(rows[0]) then [rows[0]] else []) + DropNa(rows[1..])
  }

  /** Dropping distributes over concatenation, so the kept rows stay in their original order. */
  lemma {:induction false} DropNaConcat(a: seq<CommuneRow>, b: seq<CommuneRow>)
    ensures DropNa(a + b) == DropNa(a) + DropNa(b)
  {
    if a == [] {
      assert a + b == b;
    } else {
      assert (a + b)[0] == a[0];
      assert (a + b)[1..] == a[1..] + b;
      DropNaConcat(a[1..], b);
    }
  }

  /** A row whose only gap is its commune code is kept. */
  lemma KeepsRowWithoutCode(rows: seq<CommuneRow>, i: nat)
    requires i < |rows|
    requires rows[i].inseeCom.None? && rows[i].nomCom.Some? && rows[i].x.Float? && rows[i].y.Float?
    ensures rows[i] in DropNa(rows)
  {
    assert rows[i] in multiset(rows);
  }

  // ---------------------------------------------------------------- sanitise

  /** `str.replace(c, '')`: every occurrence of `c` removed. */
  function Replace(s: string, c: char): (r: string)
    ensures c !in r
    ensures |r| <= |s|
    ensures c !in s ==> r == s
    ensures forall d :: d in r ==> d in s
    ensures forall d :: d != c ==> multiset(r)[d] == multiset(s)[d]
  {
    if s == [] then []
    else
      assert s == [s[0]] + s[1..];
      (if s[0] == c then [] else [s[0]]) + Replace(s[1..], c)
  }

  lemma {:induction false} ReplaceConcat(a: string, b: string, c: char)
    ensures Replace(a + b, c) == Replace(a, c) + Replace(b, c)
  {
    if a == [] {
      assert a + b == b;
    } else {
      var head := if a[0] == c then [] else [a[0]];
      assert (a + b)[0] == a[0];
      calc {
        Replace(a + b, c);
        head + Replace((a + b)[1..], c);
        { assert (a + b)[1..] == a[1..] + b; }
        head + Replace(a[1..] + b, c);
        { ReplaceConcat(a[1..], b, c); }
        head + (Replace(a[1..], c) + Replace(b, c));
        Replace(a, c) + Replace(b, c);
      }
    }
  }

  predicate IsStripped(ch: char) {
    ch == ' ' || ch == '\''
  }

  /** The commune name with every space and then every apostrophe removed. */
  function Sanitize(s: string): (r: string)
    ensures ' ' !in r && '\'' !in r
    ensures |r| <= |s|
    ensures forall d :: !IsStripped(d) ==> multiset(r)[d] == multiset(s)[d]
  {
    Replace(Replace(s, ' '), '\'')
  }

  /** Reference definition: one pass keeping the characters that are neither space nor apostrophe. */
  function KeepNameChars(s: string): string {
    if s == [] then [] else (if IsStripped(s[0]) then [] else [s[0]]) + KeepNameChars(s[1..])
  }

  /** The two chained replacements equal the one-pass filter: the other characters keep their order. */
  lemma {:induction false} SanitizeIsFilter(s: string)
    ensures Sanitize(s) == KeepNameChars(s)
  {
    if s != [] {
      var head := if s[0] == ' ' then [] else [s[0]];
      assert Replace(s, ' ') == head + Replace(s[1..], ' ');
      ReplaceConcat(head, Replace(s[1..], ' '), '\'');
      assert Replace(head, '\'') == if IsStripped(s[0]) then [] else [s[0]] by {
        if s[0] != ' ' {
          assert head == [s[0]];
          assert Replace(head, '\'') == (if s[0] == '\'' then [] else [s[0]]) + Replace([], '\'');
        }
      }
      SanitizeIsFilter(s[1..]);
    }
  }

  /** A name with neither spaces nor apostrophes is left as it is. */
  lemma SanitizeKeepsClean(s: string)
    requires ' ' !in s && '\'' !in s
    ensures Sanitize(s) == s
  {
  }

  /** Sanitising twice gives the same name as sanitising once. */
  lemma SanitizeIdempotent(s: string)
    ensures Sanitize(Sanitize(s)) == Sanitize(s)
  {
    SanitizeKeepsClean(Sanitize(s));
  }

  function SanitizeRow(r: CommuneRow): CommuneRow {
    match r.nomCom
    case None => r
    case Some(s) => r.(nomCom := Some(Sanitize(s)))
  }

  /** `str.replace` on the `NOM_COM` column: names sanitised, missing names left missing, nothing else touched. */
  function SanitizeNames(rows: seq<CommuneRow>): (out: seq<CommuneRow>)
    ensures |out| == |rows|
    ensures forall i :: 0 <= i < |rows| ==>
      out[i].inseeCom == rows[i].inseeCom && out[i].x == rows[i].x && out[i].y == rows[i].y &&
      out[i].nomCom == (if rows[i].nomCom.Some? then Some(Sanitize(rows[i].nomCom.value)) else None)
  {
    if rows == [] then [] else [SanitizeRow(rows[0])] + SanitizeNames(rows[1..])
  }

  // ---------------------------------------------------------------- reorder

  /** `reindex(columns=new_order)`: the labels become `new_order`; each row keeps its named values. */
  function Reindex(f: Frame<CommuneRow>): Frame<CommuneRow> {
    Frame(NewOrder, f.rows)
  }

  // ---------------------------------------------------------------- float_to_int

  function AbsReal(v: real): real {
    if v < 0.0 then -v else v
  }

  /** `int(abs(val) * 1000)`: the magnitude in thousandths, truncated. */
  function FloatToInt(v: real): (n: int)
    ensures n >= 0
    ensures n as real <= AbsReal(v) * 1000.0 < n as real + 1.0
  {
    (AbsReal(v) * 1000.0).Floor
  }

  /** The sign is discarded. */
  lemma FloatToIntIgnoresSign(v: real)
    ensures FloatToInt(-v) == FloatToInt(v)
  {
  }

  /** Truncation, not rounding: 48.8566 degrees becomes 48856 and 2.3522 becomes 2352. */
  lemma FloatToIntTruncates()
    ensures FloatToInt(48.8566) == 48856
    ensures FloatToInt(-48.8566) == 48856
    ensures FloatToInt(2.3522) == 2352
  {
  }

  /** `float_to_int` applied to one cell; NaN has no integer value. */
  function ScaleCell(c: Cell): (r: Option<Cell>)
    ensures r.Some? <==> c != NaN
    ensures r.Some? ==> r.value.Int? && r.value.n >= 0
  {
    match c
    case NaN => None
    case Float(v) => Some(Int(FloatToInt(v)))
    case Int(n) => Some(Int(if n < 0 then -n * 1000 else n * 1000))
  }

  datatype Axis = X | Y

  function Coord(r: CommuneRow, a: Axis): Cell {
    match a
    case X => r.x
    case Y => r.y
  }

  function WithCoord(r: CommuneRow, a: Axis, c: Cell): CommuneRow {
    match a
    case X => r.(x := c)
    case Y => r.(y := c)
  }

  /** `coordonnees[a] = coordonnees[a].apply(float_to_int)`: fails on a missing value, else rescales that column only. */
  function ApplyFloatToInt(rows: seq<CommuneRow>, a: Axis): (r: Result<seq<CommuneRow>, Error>)
    ensures r.Ok? <==> forall i :: 0 <= i < |rows| ==> Coord(rows[i], a) != NaN
    ensures r.Err? ==> r.error == NaNToInteger
    ensures r.Ok? ==> |r.value| == |rows| && forall i :: 0 <= i < |rows| ==>
      r.value[i] == WithCoord(rows[i], a, ScaleCell(Coord(rows[i], a)).value)
  {
    if rows == [] then Ok([])
    else
      match ScaleCell(Coord(rows[0], a))
      case None => Err(NaNToInteger)
      case Some(c) =>
        var rest :- ApplyFloatToInt(rows[1..], a);
        Ok([WithCoord(rows[0], a, c)] + rest)
  }

  /** Both coordinate columns rescaled, `x` first. */
  function ScaleCoordinates(rows: seq<CommuneRow>): Result<seq<CommuneRow>, Error> {
    var xs :- ApplyFloatToInt(rows, X);
    ApplyFloatToInt(xs, Y)
  }

  // ---------------------------------------------------------------- pipeline

  /** The whole normaliser, step by step as the source applies it. */
  function Normalize(f: Frame<SourceRow>): Result<Frame<CommuneRow>, Error> {
    var renamed := Rename(f);
    var kept := renamed.(rows := DropNa(renamed.rows));
    var named := kept.(rows := SanitizeNames(kept.rows));
    var ordered := Reindex(named);
    var scaled :- ScaleCoordinates(ordered.rows);
    Ok(ordered.(rows := scaled))
  }

  /** Reference definition of one normalised row: a source row with a name and both
      coordinates yields its code, its sanitised name and its two scaled coordinates. */
  function NormalRow(r: SourceRow): Option<CommuneRow> {
    if r.nomCommunePostal.Some? && r.latitude.Some? && r.longitude.Some?
    then Some(CommuneRow(r.codeCommuneInsee, Some(Sanitize(r.nomCommunePostal.value)),
                         Int(FloatToInt(r.latitude.value)), Int(FloatToInt(r.longitude.value))))
    else None
  }

  /** Reference definition of the normalised rows, one source row at a time, in order. */
  function Expected(rows: seq<SourceRow>): seq<CommuneRow> {
    if rows == [] then []
    else (if NormalRow(rows[0]).Some? then [NormalRow(rows[0]).value] else []) + Expected(rows[1..])
  }

  /** What the reference rows promise: no more rows than the source, every name sanitised and
      present, every coordinate a non-negative integer. */
  lemma {:induction false} ExpectedRows(rows: seq<SourceRow>)
    ensures |Expected(rows)| <= |rows|
    ensures forall i :: 0 <= i < |Expected(rows)| ==>
      Expected(rows)[i].nomCom.Some? && ' ' !in Expected(rows)[i].nomCom.value && '\'' !in Expected(rows)[i].nomCom.value &&
      Expected(rows)[i].x.Int? && Expected(rows)[i].x.n >= 0 && Expected(rows)[i].y.Int? && Expected(rows)[i].y.n >= 0
  {
    if rows != [] {
      ExpectedRows(rows[1..]);
    }
  }

  lemma {:induction false} ExpectedConcat(a: seq<SourceRow>, b: seq<SourceRow>)
    ensures Expected(a + b) == Expected(a) + Expected(b)
  {
    if a == [] {
      assert a + b == b;
    } else {
      assert (a + b)[0] == a[0];
      assert (a + b)[1..] == a[1..] + b;
      ExpectedConcat(a[1..], b);
    }
  }

  /** A row with both coordinates present, after both columns are rescaled. */
  function ScaledRow(r: CommuneRow): CommuneRow
    requires r.x != NaN && r.y != NaN
  {
    r.(x := ScaleCell(r.x).value, y := ScaleCell(r.y).value)
  }

  function ScaledRows(rows: seq<CommuneRow>): (out: seq<CommuneRow>)
    requires forall i :: 0 <= i < |rows| ==> rows[i].x != NaN && rows[i].y != NaN
    ensures |out| == |rows| && forall i :: 0 <= i < |rows| ==> out[i] == ScaledRow(rows[i])
  {
    if rows == [] then [] else [ScaledRow(rows[0])] + ScaledRows(rows[1..])
  }

  /** Rows without missing coordinates always rescale. */
  lemma ScaleCoordinatesComplete(rows: seq<CommuneRow>)
    requires forall i :: 0 <= i < |rows| ==> rows[i].x != NaN && rows[i].y != NaN
    ensures ScaleCoordinates(rows) == Ok(ScaledRows(rows))
  {
    var xs := ApplyFloatToInt(rows, X);
    assert xs.Ok?;
    var ys := ApplyFloatToInt(xs.value, Y);
    assert ys.Ok?;
    assert ys.value == ScaledRows(rows);
  }

  /** The rows that reach the rescaling: renamed, complete, with sanitised names. */
  function Kept(rows: seq<SourceRow>): seq<CommuneRow> {
    SanitizeNames(DropNa(RenameRows(rows)))
  }

  lemma KeptComplete(rows: seq<SourceRow>)
    ensures forall i :: 0 <= i < |Kept(rows)| ==> Kept(rows)[i].x != NaN && Kept(rows)[i].y != NaN
  {
    var d := DropNa(RenameRows(rows));
    assert forall i :: 0 <= i < |d| ==> Complete(d[i]);
  }

  lemma KeptCons(rows: seq<SourceRow>)
    requires rows != []
    ensures Kept(rows) ==
      (if Complete(RenameRow(rows[0])) then [SanitizeRow(RenameRow(rows[0]))] else []) + Kept(rows[1..])
  {
    var rr := RenameRow(rows[0]);
    var tail := RenameRows(rows[1..]);
    assert RenameRows(rows) == [rr] + tail;
    assert ([rr] + tail)[0] == rr && ([rr] + tail)[1..] == tail;
    if Complete(rr) {
      assert DropNa([rr] + tail) == [rr] + DropNa(tail);
      var d := DropNa(tail);
      assert ([rr] + d)[0] == rr && ([rr] + d)[1..] == d;
    } else {
      assert DropNa([rr] + tail) == DropNa(tail);
    }
  }

  /** One source row goes through rename, dropna, sanitise and rescale as the reference says. */
  lemma NormalRowAgrees(r: SourceRow)
    ensures Complete(RenameRow(r)) <==> NormalRow(r).Some?
    ensures Complete(RenameRow(r)) ==> ScaledRow(SanitizeRow(RenameRow(r))) == NormalRow(r).value
  {
  }

  lemma ScaledRowsCons(h: CommuneRow, t: seq<CommuneRow>)
    requires h.x != NaN && h.y != NaN
    requires forall i :: 0 <= i < |t| ==> t[i].x != NaN && t[i].y != NaN
    ensures ScaledRows([h] + t) == [ScaledRow(h)] + ScaledRows(t)
  {
    assert ([h] + t)[0] == h && ([h] + t)[1..] == t;
  }

  lemma RowsAreExpectedStep(rows: seq<SourceRow>)
    requires rows != []
    requires forall i :: 0 <= i < |Kept(rows[1..])| ==> Kept(rows[1..])[i].x != NaN && Kept(rows[1..])[i].y != NaN
    requires ScaledRows(Kept(rows[1..])) == Expected(rows[1..])
    ensures forall i :: 0 <= i < |Kept(rows)| ==> Kept(rows)[i].x != NaN && Kept(rows)[i].y != NaN
    ensures ScaledRows(Kept(rows)) == Expected(rows)
  {
    KeptComplete(rows);
    KeptCons(rows);
    NormalRowAgrees(rows[0]);
    var rr := RenameRow(rows[0]);
    if Complete(rr) {
      ScaledRowsCons(SanitizeRow(rr), Kept(rows[1..]));
    }
  }

  /** The row pipeline, with the rescaling known to succeed, equals the reference. */
  lemma {:induction false} RowsAreExpected(rows: seq<SourceRow>)
    ensures forall i :: 0 <= i < |Kept(rows)| ==> Kept(rows)[i].x != NaN && Kept(rows)[i].y != NaN
    ensures ScaledRows(Kept(rows)) == Expected(rows)
  {
    if rows == [] {
      assert Kept(rows) == [];
    } else {
      RowsAreExpected(rows[1..]);
      RowsAreExpectedStep(rows);
    }
  }

  /** The row pipeline before reordering equals the reference. */
  lemma PipelineIsExpected(rows: seq<SourceRow>)
    ensures ScaleCoordinates(Kept(rows)) == Ok(Expected(rows))
  {
    RowsAreExpected(rows);
    ScaleCoordinatesComplete(Kept(rows));
  }

  /** The normalised table has the columns `INSEE_COM, NOM_COM, y, x` and exactly the reference rows; it never fails. */
  lemma NormalizeIsExpected(f: Frame<SourceRow>)
    ensures Normalize(f) == Ok(Frame(NewOrder, Expected(f.rows)))
  {
    PipelineIsExpected(f.rows);
  }

  /** Reordering loses and invents no column when the read kept exactly the four `usecols`. */
  lemma ReindexKeepsColumns(cols: seq<string>)
    requires forall c :: c in cols <==> c in CommuneUsecols
    ensures forall c :: c in RenameColumns(cols) <==> c in NewOrder
  {
    var r := RenameColumns(cols);
    forall c | c in r
      ensures c in NewOrder
    {
      var i :| 0 <= i < |r| && r[i] == c;
      assert cols[i] in CommuneUsecols;
    }
    forall c | c in NewOrder
      ensures c in r
    {
      var src := if c == "INSEE_COM" then "code_commune_INSEE"
                 else if c == "NOM_COM" then "nom_commune_postal"
                 else if c == "x" then "latitude" else "longitude";
      assert src in CommuneUsecols;
      var i :| 0 <= i < |cols| && cols[i] == src;
      assert r[i] == c;
    }
  }

  lemma {:induction false} KeepNameCharsConcat(a: string, b: string)
    ensures KeepNameChars(a + b) == KeepNameChars(a) + KeepNameChars(b)
  {
    if a == [] {
      assert a + b == b;
    } else {
      assert (a + b)[0] == a[0];
      assert (a + b)[1..] == a[1..] + b;
      KeepNameCharsConcat(a[1..], b);
    }
  }

  /** Sanitising a concatenation sanitises each part: no character moves across another. */
  lemma SanitizeConcat(a: string, b: string)
    ensures Sanitize(a + b) == Sanitize(a) + Sanitize(b)
  {
    SanitizeIsFilter(a + b);
    SanitizeIsFilter(a);
    SanitizeIsFilter(b);
    KeepNameCharsConcat(a, b);
  }
}
