/**
 * The cloud upload script (upload_csv.py): every CSV row is looked up by
 * flexible column names, cleaned, filtered, embedded by the remote service
 * with the bounded retry, shaped into a point and uploaded in batches of 50.
 *
 * The embedding service is an oracle from the text sent to the answers of
 * successive attempts, `float()` on a text cell is the oracle `parseFloat`
 * (`None` where Python raises), and each upsert call is recorded as one
 * element of the returned list of batches.
 */
module UploadCsv {
  import opened Base
  import opened Text
  import opened Retry
  import opened Cells
  import opened Batching

  const VectorSize: nat := 384
  const BatchSize: nat := 50
  const DescriptionLimit: nat := 500
  const MinDescription: nat := 20
  const MinImage: nat := 5
  const BrokenScheme: Str := "ttps://"
  const Scheme: Str := "https://"
  const PosterBase: Str := "https://image.tmdb.org/t/p/w500"
  const NoData: Str := "no data."
  const Ellipsis: Str := "..."

  /** The names tried, in priority order, for each field of a row. */
  datatype ColumnNames = ColumnNames(
    title: seq<Str>, description: seq<Str>, rating: seq<Str>, image: seq<Str>, mediaType: seq<Str>)

  const UploadColumns: ColumnNames := ColumnNames(
    ["title", "original_title", "Series_Title", "Name"],
    ["overview", "description", "summary", "plot", "Synopsis"],
    ["vote_average", "rating", "IMDB_Rating", "Score"],
    ["poster_path", "poster", "image", "Poster_Link"],
    ["media_type", "type", "Genre"])

  /** A row: its column names, in column order, with their cells. */
  type Row = seq<(Str, Cell)>

  // ---------------------------------------------------------------------
  // Store URL repair

  /** A store URL that lost its leading "h" has every "ttps://" replaced by
      "https://"; any other URL is kept. */
  function RepairUrl(url: Str): Str
  {
    if StartsWith(url, BrokenScheme) then ReplaceAll(url, BrokenScheme, Scheme) else url
  }

  /** A repaired URL starts with "https://"; other URLs are untouched; a
      second repair changes nothing; a URL with a single broken scheme gets
      back exactly its missing "h". */
  lemma RepairUrlContract(url: Str)
    ensures StartsWith(url, BrokenScheme) ==> StartsWith(RepairUrl(url), Scheme)
    ensures !StartsWith(url, BrokenScheme) ==> RepairUrl(url) == url
    ensures RepairUrl(RepairUrl(url)) == RepairUrl(url)
    ensures StartsWith(url, BrokenScheme) && !Contains(url[|BrokenScheme|..], BrokenScheme) ==>
      RepairUrl(url) == "h" + url
  {
    if StartsWith(url, BrokenScheme) {
      var rest := url[|BrokenScheme|..];
      assert RepairUrl(url) == Scheme + ReplaceAll(rest, BrokenScheme, Scheme);
      assert (Scheme + ReplaceAll(rest, BrokenScheme, Scheme))[..|Scheme|] == Scheme;
      assert RepairUrl(url)[0] == 'h';
      if !Contains(rest, BrokenScheme) {
        ReplaceAllAbsent(rest, BrokenScheme, Scheme);
        assert url == BrokenScheme + rest;
      }
    }
  }

  // ---------------------------------------------------------------------
  // Column lookup (`get_column_value`)

  /** The position of the first column whose name equals `name`, ignoring
      case. */
  function FirstColumn(row: Row, name: Str): (r: Option<nat>)
    ensures r.None? <==> forall k :: 0 <= k < |row| ==> !EqualsIgnoringCase(row[k].0, name)
    ensures r.Some? ==> r.value < |row| && EqualsIgnoringCase(row[r.value].0, name)
    ensures r.Some? ==> forall k :: 0 <= k < r.value ==> !EqualsIgnoringCase(row[k].0, name)
  {
    if row == [] then None
    else if EqualsIgnoringCase(row[0].0, name) then Some(0)
    else match FirstColumn(row[1..], name)
      case None => None
      case Some(k) => Some(k + 1)
  }

  /** A NaN or empty-text cell counts as absent. */
  predicate Blank(c: Cell)
  {
    c.Missing? || c == Text([])
  }

  /** `get_column_value`: the names are tried in priority order; the first
      one that matches a column decides, giving that column's cell, or the
      default when the cell is blank. */
  function GetColumnValue(row: Row, names: seq<Str>, default: Cell): (r: Cell)
    ensures r.Missing? ==> default.Missing?
    decreases |names|
  {
    if names == [] then default
    else match FirstColumn(row, names[0])
      case Some(k) => if Blank(row[k].1) then default else row[k].1
      case None => GetColumnValue(row, names[1..], default)
  }

  /** The lookup in terms of the first name that matches: the default when
      no name matches any column; otherwise the cell of the first column the
      first matching name matches, or the default when that cell is blank
      (a later name is never consulted, even when its cell is filled). */
  lemma GetColumnValueSpec(row: Row, names: seq<Str>, default: Cell)
    ensures (forall i :: 0 <= i < |names| ==> FirstColumn(row, names[i]).None?) ==>
      GetColumnValue(row, names, default) == default
    ensures forall i :: (0 <= i < |names| && FirstColumn(row, names[i]).Some?
        && (forall j :: 0 <= j < i ==> FirstColumn(row, names[j]).None?)) ==>
        var c := row[FirstColumn(row, names[i]).value].1;
        GetColumnValue(row, names, default) == if Blank(c) then default else c
  {
    if forall i :: 0 <= i < |names| ==> FirstColumn(row, names[i]).None? {
      NoNameMatches(row, names, default);
    }
    forall i | 0 <= i < |names| && FirstColumn(row, names[i]).Some?
        && (forall j :: 0 <= j < i ==> FirstColumn(row, names[j]).None?)
      ensures var c := row[FirstColumn(row, names[i]).value].1;
        GetColumnValue(row, names, default) == if Blank(c) then default else c
    {
      FirstNameMatches(row, names, default, i);
    }
  }

  lemma {:induction false} NoNameMatches(row: Row, names: seq<Str>, default: Cell)
    requires forall i :: 0 <= i < |names| ==> FirstColumn(row, names[i]).None?
    ensures GetColumnValue(row, names, default) == default
    decreases |names|
  {
    if names != [] {
      assert FirstColumn(row, names[0]).None?;
      NoNameMatches(row, names[1..], default);
    }
  }

  lemma {:induction false} FirstNameMatches(row: Row, names: seq<Str>, default: Cell, i: nat)
    requires i < |names| && FirstColumn(row, names[i]).Some?
    requires forall j :: 0 <= j < i ==> FirstColumn(row, names[j]).None?
    ensures var c := row[FirstColumn(row, names[i]).value].1;
      GetColumnValue(row, names, default) == if Blank(c) then default else c
    decreases i
  {
    if i > 0 {
      assert FirstColumn(row, names[0]).None?;
      assert names[1..][i - 1] == names[i];
      FirstNameMatches(row, names[1..], default, i - 1);
    }
  }

  // ---------------------------------------------------------------------
  // Cleaning and filtering

  /** The image text stripped of surrounding whitespace; a path starting with
      "/" gets the poster base prepended. */
  function NormaliseImage(image: Cell): Str
  {
    var s := Strip(Render(image));
    if StartsWith(s, "/") then PosterBase + s else s
  }

  lemma NormaliseImageContract(image: Cell)
    ensures var s := Strip(Render(image));
      && (StartsWith(s, "/") ==>
            && NormaliseImage(image) == PosterBase + s
            && StartsWith(NormaliseImage(image), PosterBase + "/"))
      && (!StartsWith(s, "/") ==> NormaliseImage(image) == s)
      && (NormaliseImage(image) == [] || !IsSpace(NormaliseImage(image)[0]))
  {
    var s := Strip(Render(image));
    if StartsWith(s, "/") {
      assert (PosterBase + s)[..|PosterBase| + 1] == PosterBase + "/";
      assert (PosterBase + s)[0] == 'h';
    }
  }

  /** The row has no usable description. */
  predicate SkipForDescription(desc: Cell)
  {
    !Truthy(desc) || |Render(desc)| < MinDescription || Lower(Render(desc)) == NoData
  }

  /** The row has no usable image. */
  predicate SkipForImage(image: Str)
  {
    image == [] || |image| < MinImage || Contains(Lower(image), "nan")
  }

  /** The "no data." test never decides anything: that text is shorter than
      twenty characters, so the length test already skips it. Likewise an
      empty image is already shorter than five. */
  lemma RedundantSkipTests(desc: Cell, image: Str)
    ensures SkipForDescription(desc) <==> !Truthy(desc) || |Render(desc)| < MinDescription
    ensures SkipForImage(image) <==> |image| < MinImage || Contains(Lower(image), "nan")
  {
  }

  // ---------------------------------------------------------------------
  // Points

  datatype Payload = Payload(title: Cell, description: Str, rating: real, kind: Str, image: Str)

  datatype Point = Point(id: nat, vector: seq<Json>, payload: Payload)

  /** `float(rating) if rating else 0`; `None` where `float()` raises. */
  function RatingValue(rating: Cell, parseFloat: Str -> Option<real>): Option<real>
    requires !rating.Missing?
  {
    if !Truthy(rating) then Some(0.0)
    else match rating
      case Number(x, _) => Some(x)
      case Text(s) => parseFloat(s)
  }

  /** The stored description: the first 500 characters and "...". */
  function ShortDescription(desc: Cell): (r: Str)
  {
    Take(Render(desc), DescriptionLimit) + Ellipsis
  }

  /** The stored type: the text before the first comma, upper-cased. */
  function Kind(mediaType: Cell): Str
  {
    Upper(BeforeFirst(Render(mediaType), ','))
  }

  /** The stored description is at most 500 characters of the text, from
      its start, followed by "...", and the whole text when it is short. */
  lemma ShortDescriptionShape(desc: Cell)
    ensures var d := ShortDescription(desc);
      && |d| <= DescriptionLimit + |Ellipsis|
      && d[|d| - |Ellipsis|..] == Ellipsis
      && StartsWith(Render(desc), d[..|d| - |Ellipsis|])
      && (|Render(desc)| <= DescriptionLimit ==> d == Render(desc) + Ellipsis)
  {
    var t := Take(Render(desc), DescriptionLimit);
    assert ShortDescription(desc)[..|t|] == t;
  }

  /** The stored type has no comma and no lower-case letter, and is no
      longer than the type text. */
  lemma KindShape(mediaType: Cell)
    ensures var k := Kind(mediaType);
      && ',' !in k
      && (forall i :: 0 <= i < |k| ==> !('a' <= k[i] <= 'z'))
      && |k| <= |Render(mediaType)|
  {
    var k := Kind(mediaType);
    var b := BeforeFirst(Render(mediaType), ',');
    forall i | 0 <= i < |k|
      ensures k[i] != ','
    {
      assert b[i] != ',';
    }
  }

  datatype SkipReason = NoDescription | NoImage | EmbeddingFailed

  /** What happens to one row: it is skipped, yields a point, or the script
      stops on an unparseable rating. */
  datatype RowOutcome = Skipped(reason: SkipReason) | Prepared(point: Point) | Crashed

  function SearchText(title: Cell, desc: Cell): Str
  {
    Render(title) + " " + Render(desc)
  }

  /** The cells a row is looked up for, with the image already cleaned. */
  datatype Fields = Fields(title: Cell, desc: Cell, rating: Cell, image: Str, mediaType: Cell)

  function LookUp(row: Row, names: ColumnNames): (f: Fields)
    ensures !f.rating.Missing?
  {
    Fields(GetColumnValue(row, names.title, Text("Unknown")),
           GetColumnValue(row, names.description, Text("")),
           GetColumnValue(row, names.rating, Number(0.0, "0")),
           NormaliseImage(GetColumnValue(row, names.image, Text(""))),
           GetColumnValue(row, names.mediaType, Text("MOVIE")))
  }

  /** What becomes of a looked-up row at position `index`: ids are
      `index + 1`. */
  function Classify(f: Fields, index: nat, embed: Str -> nat -> Response,
                    parseFloat: Str -> Option<real>): (r: RowOutcome)
    requires !f.rating.Missing?
    ensures r.Prepared? ==> r.point.id == index + 1 && |r.point.vector| == VectorSize
  {
    if SkipForDescription(f.desc) then Skipped(NoDescription)
    else if SkipForImage(f.image) then Skipped(NoImage)
    else
      var vector := Run(UploadStep, embed(SearchText(f.title, f.desc))).vector;
      if vector.None? || |vector.value| != VectorSize then Skipped(EmbeddingFailed)
      else match RatingValue(f.rating, parseFloat)
        case None => Crashed
        case Some(r) =>
          Prepared(Point(index + 1, vector.value,
                         Payload(f.title, ShortDescription(f.desc), r, Kind(f.mediaType), f.image)))
  }

  function ProcessRow(row: Row, index: nat, names: ColumnNames, embed: Str -> nat -> Response,
                      parseFloat: Str -> Option<real>): (r: RowOutcome)
    ensures r.Prepared? ==> r.point.id == index + 1 && |r.point.vector| == VectorSize
  {
    Classify(LookUp(row, names), index, embed, parseFloat)
  }

  /** The points prepared so far, and whether the script stopped. */
  datatype Progress = Progress(points: seq<Point>, crashed: bool)

  /** One row's effect: a point is collected, a skipped row changes
      nothing, and after a stop nothing changes any more. */
  function Step(p: Progress, o: RowOutcome): Progress
  {
    if p.crashed then p
    else match o
      case Skipped(_) => p
      case Prepared(pt) => Progress(p.points + [pt], false)
      case Crashed => Progress(p.points, true)
  }

  /** The per-row step of the upload script as a function value. */
  function RowStep(names: ColumnNames, embed: Str -> nat -> Response,
                   parseFloat: Str -> Option<real>): (Row, nat) -> RowOutcome
  {
    (row: Row, index: nat) => ProcessRow(row, index, names, embed, parseFloat)
  }

  /** `process` agrees with the row step everywhere. */
  ghost predicate Implements(process: (Row, nat) -> RowOutcome, names: ColumnNames,
                             embed: Str -> nat -> Response, parseFloat: Str -> Option<real>)
  {
    forall row, index: nat {:trigger ProcessRow(row, index, names, embed, parseFloat)} ::
      process(row, index) == ProcessRow(row, index, names, embed, parseFloat)
  }

  lemma RowStepImplements(names: ColumnNames, embed: Str -> nat -> Response, parseFloat: Str -> Option<real>)
    ensures Implements(RowStep(names, embed, parseFloat), names, embed, parseFloat)
  {
  }

  /** Each point a step yields carries a 384-component vector and the id one
      past the row's position. */
  ghost predicate WellNumbered(process: (Row, nat) -> RowOutcome)
  {
    forall row, index: nat :: process(row, index).Prepared? ==>
      process(row, index).point.id == index + 1 && |process(row, index).point.vector| == VectorSize
  }

  /** A step that agrees with the row step numbers its points by position. */
  lemma ImplementsWellNumbered(process: (Row, nat) -> RowOutcome, names: ColumnNames,
                               embed: Str -> nat -> Response, parseFloat: Str -> Option<real>)
    requires Implements(process, names, embed, parseFloat)
    ensures WellNumbered(process)
  {
    forall row, index: nat | process(row, index).Prepared?
      ensures process(row, index).point.id == index + 1
      ensures |process(row, index).point.vector| == VectorSize
    {
      assert process(row, index) == ProcessRow(row, index, names, embed, parseFloat);
    }
  }

  /** The effect of the first `n` rows under `process`. */
  function PrepareUpTo(rows: seq<Row>, n: nat, process: (Row, nat) -> RowOutcome): Progress
    requires n <= |rows|
  {
    if n == 0 then Progress([], false)
    else Step(PrepareUpTo(rows, n - 1, process), process(rows[n - 1], n - 1))
  }

  /** One more row advances the progress by that row's outcome. */
  lemma Advance(rows: seq<Row>, n: nat, process: (Row, nat) -> RowOutcome, points: seq<Point>, o: RowOutcome)
    requires n < |rows|
    requires PrepareUpTo(rows, n, process) == Progress(points, false)
    requires process(rows[n], n) == o
    ensures PrepareUpTo(rows, n + 1, process) == Step(Progress(points, false), o)
  {
  }

  /** Once the script has stopped, later rows change nothing. */
  lemma {:induction false} CrashIsFinal(rows: seq<Row>, n: nat, process: (Row, nat) -> RowOutcome)
    requires n <= |rows|
    requires PrepareUpTo(rows, n, process).crashed
    ensures PrepareUpTo(rows, |rows|, process) == PrepareUpTo(rows, n, process)
    decreases |rows| - n
  {
    if n < |rows| {
      CrashIsFinal(rows, n + 1, process);
    }
  }

  /** Every collected point has a 384-component vector and an id one past
      the position of the row it came from, and that row's outcome is this
      point; ids strictly increase, so no two points share one. */
  lemma {:induction false} PreparedPoints(rows: seq<Row>, n: nat, process: (Row, nat) -> RowOutcome)
    requires n <= |rows|
    requires WellNumbered(process)
    ensures var pts := PrepareUpTo(rows, n, process).points;
      && |pts| <= n
      && (forall k :: 0 <= k < |pts| ==> |pts[k].vector| == VectorSize && 1 <= pts[k].id <= n)
      && (forall k :: 0 <= k < |pts| ==> process(rows[pts[k].id - 1], pts[k].id - 1) == Prepared(pts[k]))
      && (forall i, j :: 0 <= i < j < |pts| ==> pts[i].id < pts[j].id)
  {
    if n > 0 {
      PreparedPoints(rows, n - 1, process);
    }
  }

  // ---------------------------------------------------------------------
  // The row loop

  /** The retry loop of the upload script for one text. */
  method EmbedText(text: Str, embed: Str -> nat -> Response) returns (vector: Option<seq<Json>>)
    ensures vector == Run(UploadStep, embed(text)).vector
  {
    var answer := embed(text);
    vector := None;
    var attempt := 0;
    while attempt < MaxAttempts
      invariant attempt <= MaxAttempts
      invariant vector == None
      invariant RunFrom(UploadStep, answer, attempt) == RunFrom(UploadStep, answer, 0)
    {
      var response := answer(attempt);
      if response.Raised? {
        break;
      }
      if response.status == StatusOk {
        var body := response.body;
        if body.Some? && body.value.JArray? && |body.value.elems| > 0 {
          var data := body.value.elems;
          vector := Some(if data[0].JArray? then data[0].elems else data);
        }
        break;
      } else if response.status == StatusWarmingUp {
        attempt := attempt + 1;
      } else {
        break;
      }
    }
  }

  /** One pass of the row loop up to the batch check: look up, clean,
      filter, embed and shape the row. */
  method PrepareRow(row: Row, index: nat, names: ColumnNames, embed: Str -> nat -> Response, parseFloat: Str -> Option<real>)
    returns (outcome: RowOutcome)
    ensures outcome == ProcessRow(row, index, names, embed, parseFloat)
  {
    var title := GetColumnValue(row, names.title, Text("Unknown"));
    var desc := GetColumnValue(row, names.description, Text(""));
    var rating := GetColumnValue(row, names.rating, Number(0.0, "0"));
    var image := GetColumnValue(row, names.image, Text(""));
    var mediaType := GetColumnValue(row, names.mediaType, Text("MOVIE"));

    var cleanImage := NormaliseImage(image);
    assert LookUp(row, names) == Fields(title, desc, rating, cleanImage, mediaType);
    if SkipForDescription(desc) {
      return Skipped(NoDescription);
    }
    if SkipForImage(cleanImage) {
      return Skipped(NoImage);
    }
    var vector := EmbedText(SearchText(title, desc), embed);
    if !(vector.Some? && |vector.value| == VectorSize) {
      return Skipped(EmbeddingFailed);
    }
    var r := RatingValue(rating, parseFloat);
    if r.None? {
      return Crashed;
    }
    var payload := Payload(title, ShortDescription(desc), r.value, Kind(mediaType), cleanImage);
    return Prepared(Point(index + 1, vector.value, payload));
  }

  /** One row at position `index` processed after the rows before it. */
  method NextRow(rows: seq<Row>, index: nat, names: ColumnNames, embed: Str -> nat -> Response,
                 parseFloat: Str -> Option<real>, ghost process: (Row, nat) -> RowOutcome, ghost points: seq<Point>)
    returns (outcome: RowOutcome)
    requires index < |rows|
    requires Implements(process, names, embed, parseFloat)
    requires PrepareUpTo(rows, index, process) == Progress(points, false)
    ensures PrepareUpTo(rows, index + 1, process) == Step(Progress(points, false), outcome)
  {
    outcome := PrepareRow(rows[index], index, names, embed, parseFloat);
    Advance(rows, index, process, points, outcome);
  }

  /** The whole row loop. Every batch sent holds 50 points except possibly
      the last; the batches are the prepared points in order, cut into
      chunks of 50, and `total` counts the points sent. When the script
      stops on an unparseable rating, the pending batch (fewer than 50
      points) is never sent. */
  method UploadRows(rows: seq<Row>, names: ColumnNames, embed: Str -> nat -> Response, parseFloat: Str -> Option<real>,
                    ghost process: (Row, nat) -> RowOutcome)
    returns (batches: seq<seq<Point>>, total: nat, crashed: bool)
    requires Implements(process, names, embed, parseFloat)
    ensures var p := PrepareUpTo(rows, |rows|, process);
      && crashed == p.crashed
      && (!crashed ==> batches == Chunks(p.points, BatchSize))
      && (crashed ==> exists pending :: p.points == Flatten(batches) + pending && |pending| < BatchSize)
      && batches == Chunks(Flatten(batches), BatchSize)
      && total == |Flatten(batches)|
  {
    batches, total, crashed := [], 0, false;
    var batch: seq<Point> := [];
    ghost var flushed: seq<Point> := [];
    var index := 0;
    while index < |rows|
      invariant 0 <= index <= |rows|
      invariant PrepareUpTo(rows, index, process) == Progress(flushed + batch, false)
      invariant Batched(batches, flushed, batch, BatchSize) && total == |flushed|
    {
      var outcome := NextRow(rows, index, names, embed, parseFloat, process, flushed + batch);
      if outcome.Crashed? {
        crashed := true;
        CrashIsFinal(rows, index + 1, process);
        ChunksFlatten(flushed, BatchSize);
        return;
      }
      if outcome.Prepared? {
        var sent;
        batches, batch, flushed, sent := Push(batches, batch, flushed, outcome.point, BatchSize);
        total := total + sent;
      }
      index := index + 1;
    }
    var sent;
    batches, sent := Drain(batches, batch, flushed, BatchSize);
    total := total + sent;
    ChunksFlatten(flushed + batch, BatchSize);
  }

  /** The script itself: the row loop with its fixed column names. */
  method UploadCsvRows(rows: seq<Row>, embed: Str -> nat -> Response, parseFloat: Str -> Option<real>)
    returns (batches: seq<seq<Point>>, total: nat, crashed: bool)
    ensures var p := PrepareUpTo(rows, |rows|, RowStep(UploadColumns, embed, parseFloat));
      && crashed == p.crashed
      && (!crashed ==> batches == Chunks(p.points, BatchSize))
      && (crashed ==> exists pending :: p.points == Flatten(batches) + pending && |pending| < BatchSize)
      && total == |Flatten(batches)|
  {
    RowStepImplements(UploadColumns, embed, parseFloat);
    batches, total, crashed := UploadRows(rows, UploadColumns, embed, parseFloat, RowStep(UploadColumns, embed, parseFloat));
  }
}
