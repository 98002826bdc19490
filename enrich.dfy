/**
 * The enrichment script (enrich_data.py): every row whose image,
 * description or rating looks bad is looked up by title, anime at Jikan and
 * everything else at TMDB, and the truthy fields fetched overwrite the
 * row's cells in place; the rows fixed are counted. The progress message
 * slices the title of a row to be fixed, so a title that is not text ends
 * the loop at that row.
 *
 * Both services are oracles from the query to the decoded reply; the TMDB
 * key check, the rate-limit sleeps, the autosaves and the CSV writing are
 * I/O and are not part of this model.
 */
module Enrich {
  import opened Base
  import opened Text
  import opened Cells

  /** A row after `df.fillna("")`, by column name. */
  type Record = map<Str, Cell>

  const ImageColumn: Str := "image"
  const DescriptionColumn: Str := "description"
  const RatingColumn: Str := "rating"
  const TitleColumn: Str := "title"
  const TypeColumn: Str := "type"
  const GenreColumn: Str := "genre"

  const MinDescription: nat := 20
  const RatingFloor: real := 0.1
  const PosterBase: Str := "https://image.tmdb.org/t/p/w500"
  const StatusOk: int := 200

  /** The columns the loop reads with `row[...]`; a missing one raises. */
  predicate HasColumns(row: Record)
  {
    ImageColumn in row && DescriptionColumn in row && RatingColumn in row
    && TitleColumn in row && TypeColumn in row
  }

  // ---------------------------------------------------------------------
  // The "needs fix" tests

  /** An image is bad when its text, lower-cased, is empty or mentions
      "placeholder", "n/a" or "nan". */
  predicate ImageNeedsFix(image: Cell)
  {
    var s := Lower(Render(image));
    s == [] || Contains(s, "placeholder") || Contains(s, "n/a") || Contains(s, "nan")
  }

  /** A description is bad when, stripped and lower-cased, it is empty,
      shorter than twenty characters or mentions "no description". */
  predicate DescriptionNeedsFix(desc: Cell)
  {
    var s := Lower(Strip(Render(desc)));
    s == [] || |s| < MinDescription || Contains(s, "no description")
  }

  /** `float(row['rating'])`, with 0.0 where it raises. A missing cell
      cannot reach this test, since `df.fillna("")` has already replaced
      every one; the `Missing` case is only there to make the match total. */
  function RatingValue(rating: Cell, parseFloat: Str -> Option<real>): real
  {
    match rating
    case Number(x, _) => x
    case Text(s) => (match parseFloat(s) case Some(x) => x case None => 0.0)
    case Missing => 0.0
  }

  predicate RatingNeedsFix(rating: Cell, parseFloat: Str -> Option<real>)
  {
    RatingValue(rating, parseFloat) <= RatingFloor
  }

  /** The emptiness test on the description never decides anything (the
      length test already catches it), and a rating that cannot be parsed
      always needs fixing. */
  lemma NeedsFixFacts(desc: Cell, rating: Cell, parseFloat: Str -> Option<real>)
    ensures DescriptionNeedsFix(desc) <==>
      var s := Lower(Strip(Render(desc))); |s| < MinDescription || Contains(s, "no description")
    ensures rating.Text? && parseFloat(rating.s).None? ==> RatingNeedsFix(rating, parseFloat)
    ensures rating.Number? ==> (RatingNeedsFix(rating, parseFloat) <==> rating.x <= RatingFloor)
  {
  }

  predicate NeedsFix(row: Record, parseFloat: Str -> Option<real>)
    requires HasColumns(row)
  {
    ImageNeedsFix(row[ImageColumn]) || DescriptionNeedsFix(row[DescriptionColumn])
    || RatingNeedsFix(row[RatingColumn], parseFloat)
  }

  // ---------------------------------------------------------------------
  // The two services

  /** A field of a decoded JSON object: the key is absent, its value is
      null, or it holds a value. */
  datatype Field = Absent | Null | Val(c: Cell)

  /** The first search hit at Jikan: the large image URL (`Absent` when a
      key on the way to it is missing), the score and the synopsis. */
  datatype JikanItem = JikanItem(image: Field, score: Field, synopsis: Field)

  datatype JikanReply = JikanRaised | JikanReply(status: int, data: seq<JikanItem>)

  /** The first search hit at TMDB. */
  datatype TmdbItem = TmdbItem(posterPath: Field, overview: Field, voteAverage: Field)

  datatype TmdbReply = TmdbRaised | TmdbReply(status: int, results: seq<TmdbItem>)

  /** The fetched fields; `None` is Python's `None`. */
  datatype Fetched = Fetched(image: Option<Cell>, rating: Option<Cell>, description: Option<Cell>)

  /** `item.get(key, default)`. */
  function GetOr(f: Field, default: Cell): Option<Cell>
  {
    match f
    case Absent => Some(default)
    case Null => None
    case Val(c) => Some(c)
  }

  /** `fetch_anime_jikan`: data only from a 200 reply with at least one hit;
      a missing image key, or a synopsis that is not text, raises inside
      the `try` and gives `None`. Newlines of the synopsis become spaces. */
  function FetchJikan(reply: JikanReply): Option<Fetched>
  {
    if reply.JikanRaised? || reply.status != StatusOk || reply.data == [] then None
    else
      var item := reply.data[0];
      match item.image
      case Absent => None
      case _ =>
        match item.synopsis
        case Absent =>
          Some(Fetched(GetOr(item.image, Missing), GetOr(item.score, Number(0.0, "0")), Some(Text(""))))
        case Val(Text(s)) =>
          Some(Fetched(GetOr(item.image, Missing), GetOr(item.score, Number(0.0, "0")),
                       Some(Text(ReplaceChar(s, '\n', ' ')))))
        case _ => None
  }

  /** `"tv"` exactly when the lower-cased type hint mentions "tv". */
  function SearchType(typeHint: Cell): Str
  {
    if Contains(Lower(Render(typeHint)), "tv") then "tv" else "movie"
  }

  /** The poster URL, built only from a truthy `poster_path`. */
  function PosterUrl(posterPath: Field): Option<Cell>
  {
    match posterPath
    case Val(p) => if Truthy(p) then Some(Text(PosterBase + Render(p))) else None
    case _ => None
  }

  /** `fetch_movie_tmdb`: data only from a 200 reply with at least one
      result. */
  function FetchTmdb(reply: TmdbReply): Option<Fetched>
  {
    if reply.TmdbRaised? || reply.status != StatusOk || reply.results == [] then None
    else
      var item := reply.results[0];
      Some(Fetched(PosterUrl(item.posterPath), GetOr(item.voteAverage, Number(0.0, "0")),
                   GetOr(item.overview, Text(""))))
  }

  /** The Jikan description never holds a newline; a TMDB image is a poster
      URL built from a present, truthy poster path, and there is none
      otherwise. */
  lemma FetchContract(jikan: JikanReply, tmdb: TmdbReply)
    ensures FetchJikan(jikan).Some? && FetchJikan(jikan).value.description.Some? ==>
      var d := FetchJikan(jikan).value.description.value;
      d.Text? && '\n' !in d.s
    ensures FetchTmdb(tmdb).Some? ==>
      var item := tmdb.results[0];
      && (FetchTmdb(tmdb).value.image.Some? <==> item.posterPath.Val? && Truthy(item.posterPath.c))
      && (FetchTmdb(tmdb).value.image.Some? ==>
            var url := FetchTmdb(tmdb).value.image.value;
            url.Text? && StartsWith(url.s, PosterBase) && url.s[|PosterBase|..] == Render(item.posterPath.c))
  {
    if FetchTmdb(tmdb).Some? && FetchTmdb(tmdb).value.image.Some? {
      var url := FetchTmdb(tmdb).value.image.value;
      assert url.s[..|PosterBase|] == PosterBase;
    }
  }

  // ---------------------------------------------------------------------
  // Routing and merging

  /** Jikan is asked exactly when "anime" appears in the lower-cased type or
      genre (an absent genre counts as empty). */
  predicate IsAnime(row: Record)
    requires HasColumns(row)
  {
    var genre := if GenreColumn in row then row[GenreColumn] else Text("");
    Contains(Lower(Render(row[TypeColumn])), "anime") || Contains(Lower(Render(genre)), "anime")
  }

  /** The lookup for a row: Jikan by title for anime, TMDB by search type
      and title otherwise. */
  function FetchFor(row: Record, jikan: Cell -> JikanReply, tmdb: (Str, Cell) -> TmdbReply): Option<Fetched>
    requires HasColumns(row)
  {
    if IsAnime(row) then FetchJikan(jikan(row[TitleColumn]))
    else FetchTmdb(tmdb(SearchType(row[TypeColumn]), row[TitleColumn]))
  }

  /** Python truthiness of a fetched value. */
  predicate Present(v: Option<Cell>)
  {
    v.Some? && Truthy(v.value)
  }

  /** Each truthy fetched field overwrites its cell. */
  function Merge(row: Record, f: Fetched): Record
  {
    var r1 := if Present(f.image) then row[ImageColumn := f.image.value] else row;
    var r2 := if Present(f.description) then r1[DescriptionColumn := f.description.value] else r1;
    if Present(f.rating) then r2[RatingColumn := f.rating.value] else r2
  }

  /** A merge keeps the columns, changes no cell other than image,
      description and rating, sets each of those to the fetched value
      exactly when that value is truthy, and a second merge of the same
      data changes nothing. */
  lemma MergeContract(row: Record, f: Fetched)
    ensures Merge(row, f).Keys == row.Keys + (if Present(f.image) then {ImageColumn} else {})
      + (if Present(f.description) then {DescriptionColumn} else {})
      + (if Present(f.rating) then {RatingColumn} else {})
    ensures forall c :: c in row && c != ImageColumn && c != DescriptionColumn && c != RatingColumn ==>
      Merge(row, f)[c] == row[c]
    ensures Present(f.image) ==> Merge(row, f)[ImageColumn] == f.image.value
    ensures !Present(f.image) && ImageColumn in row ==> Merge(row, f)[ImageColumn] == row[ImageColumn]
    ensures Present(f.description) ==> Merge(row, f)[DescriptionColumn] == f.description.value
    ensures !Present(f.description) && DescriptionColumn in row ==>
      Merge(row, f)[DescriptionColumn] == row[DescriptionColumn]
    ensures Present(f.rating) ==> Merge(row, f)[RatingColumn] == f.rating.value
    ensures !Present(f.rating) && RatingColumn in row ==> Merge(row, f)[RatingColumn] == row[RatingColumn]
    ensures Merge(Merge(row, f), f) == Merge(row, f)
  {
  }

  /** One row's fate: its new cells and whether it counts as fixed. */
  datatype RowResult = RowResult(row: Record, fixed: bool)

  function EnrichRow(row: Record, parseFloat: Str -> Option<real>,
                     jikan: Cell -> JikanReply, tmdb: (Str, Cell) -> TmdbReply): RowResult
    requires HasColumns(row)
  {
    if !NeedsFix(row, parseFloat) then RowResult(row, false)
    else match FetchFor(row, jikan, tmdb)
      case None => RowResult(row, false)
      case Some(f) => RowResult(Merge(row, f), true)
  }

  /** A row that needs no fix, or whose lookup returned nothing, is left
      alone; a row counts as fixed exactly when it needed a fix and the
      lookup returned data, even when no fetched field was truthy. */
  lemma EnrichRowContract(row: Record, parseFloat: Str -> Option<real>,
                          jikan: Cell -> JikanReply, tmdb: (Str, Cell) -> TmdbReply)
    requires HasColumns(row)
    ensures var r := EnrichRow(row, parseFloat, jikan, tmdb);
      && (r.fixed <==> NeedsFix(row, parseFloat) && FetchFor(row, jikan, tmdb).Some?)
      && (!r.fixed ==> r.row == row)
      && HasColumns(r.row) && r.row.Keys == row.Keys
      && r.row[TitleColumn] == row[TitleColumn] && r.row[TypeColumn] == row[TypeColumn]
  {
    if NeedsFix(row, parseFloat) && FetchFor(row, jikan, tmdb).Some? {
      MergeContract(row, FetchFor(row, jikan, tmdb).value);
    }
  }

  // ---------------------------------------------------------------------
  // The row loop

  /** The progress message of a row that needs a fix slices its title with
      `title[:30]`, outside any `try`: a title that is not text (a number,
      as pandas reads a numeric title column) raises and ends the script. */
  predicate Stops(row: Record, parseFloat: Str -> Option<real>)
    requires HasColumns(row)
  {
    NeedsFix(row, parseFloat) && !row[TitleColumn].Text?
  }

  /** The stop test as a function value. */
  function StopRule(parseFloat: Str -> Option<real>): Record --> bool
  {
    (row: Record) requires HasColumns(row) => Stops(row, parseFloat)
  }

  /** `stop` agrees with the stop test on every row with the required
      columns. */
  ghost predicate StopsLike(stop: Record --> bool, parseFloat: Str -> Option<real>)
  {
    forall row {:trigger Stops(row, parseFloat)} :: HasColumns(row) ==>
      stop.requires(row) && stop(row) == Stops(row, parseFloat)
  }

  lemma StopRuleStopsLike(parseFloat: Str -> Option<real>)
    ensures StopsLike(StopRule(parseFloat), parseFloat)
  {
  }

  /** The stop test of one row, from its `needs_fix` flag and its title. */
  lemma StopsByFlag(stop: Record --> bool, row: Record, parseFloat: Str -> Option<real>, needsFix: bool)
    requires StopsLike(stop, parseFloat) && HasColumns(row)
    requires needsFix == NeedsFix(row, parseFloat)
    ensures stop.requires(row) && stop(row) == (needsFix && !row[TitleColumn].Text?)
  {
    assert Stops(row, parseFloat) == (needsFix && !row[TitleColumn].Text?);
  }

  /** A stop test like the script's is defined on every row of a table with
      the required columns. */
  lemma StopsLikeAll(stop: Record --> bool, rows: seq<Record>, parseFloat: Str -> Option<real>)
    requires StopsLike(stop, parseFloat)
    requires forall i :: 0 <= i < |rows| ==> HasColumns(rows[i])
    ensures forall i :: 0 <= i < |rows| ==> stop.requires(rows[i])
  {
    forall i | 0 <= i < |rows|
      ensures stop.requires(rows[i])
    {
      var b := Stops(rows[i], parseFloat);
    }
  }

  /** The position of the first row on which `stop` holds, or the number of
      rows when it holds on none. */
  function StopAt(rows: seq<Record>, stop: Record --> bool): (n: nat)
    requires forall i :: 0 <= i < |rows| ==> stop.requires(rows[i])
    ensures n <= |rows|
    ensures forall k :: 0 <= k < n ==> !stop(rows[k])
    ensures n < |rows| ==> stop(rows[n])
    decreases |rows|
  {
    if rows == [] || stop(rows[0]) then 0
    else 1 + StopAt(rows[1..], stop)
  }

  /** The first stopping row is the only position with no stop before it
      and either a stop or the end of the table at it. */
  lemma StopAtFirst(rows: seq<Record>, stop: Record --> bool, i: nat)
    requires forall k :: 0 <= k < |rows| ==> stop.requires(rows[k])
    requires i <= |rows|
    requires forall k :: 0 <= k < i ==> !stop(rows[k])
    requires i < |rows| ==> stop(rows[i])
    ensures StopAt(rows, stop) == i
  {
  }

  /** With text titles throughout, the script never stops early. */
  lemma TextTitlesNeverStop(rows: seq<Record>, parseFloat: Str -> Option<real>)
    requires forall k :: 0 <= k < |rows| ==> HasColumns(rows[k]) && rows[k][TitleColumn].Text?
    ensures StopAt(rows, StopRule(parseFloat)) == |rows|
  {
  }

  /** The script stops on the first row that needs a fix and has a title
      that is not text, and on no other row. */
  lemma StopAtContract(rows: seq<Record>, parseFloat: Str -> Option<real>)
    requires forall k :: 0 <= k < |rows| ==> HasColumns(rows[k])
    ensures var n := StopAt(rows, StopRule(parseFloat));
      && (forall k :: 0 <= k < n ==> !(NeedsFix(rows[k], parseFloat) && !rows[k][TitleColumn].Text?))
      && (n < |rows| ==> NeedsFix(rows[n], parseFloat) && !rows[n][TitleColumn].Text?)
  {
  }

  /** The per-row step as a function value. */
  function RowStep(parseFloat: Str -> Option<real>, jikan: Cell -> JikanReply,
                   tmdb: (Str, Cell) -> TmdbReply): Record --> RowResult
  {
    (row: Record) requires HasColumns(row) => EnrichRow(row, parseFloat, jikan, tmdb)
  }

  /** `step` agrees with the per-row step on every row with the required
      columns. */
  ghost predicate Implements(step: Record --> RowResult, parseFloat: Str -> Option<real>,
                             jikan: Cell -> JikanReply, tmdb: (Str, Cell) -> TmdbReply)
  {
    forall row {:trigger EnrichRow(row, parseFloat, jikan, tmdb)} :: HasColumns(row) ==>
      step.requires(row) && step(row) == EnrichRow(row, parseFloat, jikan, tmdb)
  }

  lemma RowStepImplements(parseFloat: Str -> Option<real>, jikan: Cell -> JikanReply,
                          tmdb: (Str, Cell) -> TmdbReply)
    ensures Implements(RowStep(parseFloat, jikan, tmdb), parseFloat, jikan, tmdb)
  {
  }

  ghost predicate Applies(step: Record --> RowResult, rows: seq<Record>)
  {
    forall i :: 0 <= i < |rows| ==> step.requires(rows[i])
  }

  lemma ImplementsApplies(step: Record --> RowResult, rows: seq<Record>, parseFloat: Str -> Option<real>,
                          jikan: Cell -> JikanReply, tmdb: (Str, Cell) -> TmdbReply)
    requires Implements(step, parseFloat, jikan, tmdb)
    requires forall i :: 0 <= i < |rows| ==> HasColumns(rows[i])
    ensures Applies(step, rows)
  {
    forall i | 0 <= i < |rows|
      ensures step.requires(rows[i])
    {
      var _ := EnrichRow(rows[i], parseFloat, jikan, tmdb);
    }
  }

  /** The rows after the loop. */
  function EnrichAll(rows: seq<Record>, step: Record --> RowResult): (r: seq<Record>)
    requires Applies(step, rows)
    ensures |r| == |rows|
  {
    seq(|rows|, i requires 0 <= i < |rows| => step(rows[i]).row)
  }

  /** A table whose first `n` rows have been through the step and whose
      other rows are untouched. */
  lemma EnrichedUpTo(input: seq<Record>, now: seq<Record>, n: nat, step: Record --> RowResult)
    requires n <= |input| == |now| && Applies(step, input[..n])
    requires forall k :: 0 <= k < n ==> now[k] == step(input[k]).row
    requires forall k :: n <= k < |input| ==> now[k] == input[k]
    ensures now == EnrichAll(input[..n], step) + input[n..]
  {
  }

  /** How many of the rows count as fixed. */
  function CountFixed(rows: seq<Record>, step: Record --> RowResult): nat
    requires Applies(step, rows)
    decreases |rows|
  {
    if rows == [] then 0
    else CountFixed(rows[..|rows| - 1], step) + (if step(rows[|rows| - 1]).fixed then 1 else 0)
  }

  /** How many rows need a fix. */
  function CountNeedsFix(rows: seq<Record>, parseFloat: Str -> Option<real>): nat
    requires forall i :: 0 <= i < |rows| ==> HasColumns(rows[i])
    decreases |rows|
  {
    if rows == [] then 0
    else CountNeedsFix(rows[..|rows| - 1], parseFloat)
         + (if NeedsFix(rows[|rows| - 1], parseFloat) then 1 else 0)
  }

  /** No more rows are fixed than need a fix, and no more than there are. */
  lemma {:induction false} CountFixedBounds(rows: seq<Record>, parseFloat: Str -> Option<real>,
                                            jikan: Cell -> JikanReply, tmdb: (Str, Cell) -> TmdbReply)
    requires forall i :: 0 <= i < |rows| ==> HasColumns(rows[i])
    ensures Applies(RowStep(parseFloat, jikan, tmdb), rows)
    ensures CountFixed(rows, RowStep(parseFloat, jikan, tmdb)) <= CountNeedsFix(rows, parseFloat) <= |rows|
    decreases |rows|
  {
    if rows != [] {
      var n := |rows| - 1;
      CountFixedBounds(rows[..n], parseFloat, jikan, tmdb);
      EnrichRowContract(rows[n], parseFloat, jikan, tmdb);
    }
  }

  lemma CountFixedStep(rows: seq<Record>, n: nat, step: Record --> RowResult)
    requires n < |rows| && Applies(step, rows)
    ensures Applies(step, rows[..n]) && Applies(step, rows[..n + 1])
    ensures CountFixed(rows[..n + 1], step) == CountFixed(rows[..n], step) + (if step(rows[n]).fixed then 1 else 0)
  {
    assert rows[..n + 1][..n] == rows[..n];
  }

  /** The rest of the loop body once the flag is known: a row that needs a
      fix and gets data has its truthy fields written in place. */
  method FixRow(rows: array<Record>, index: nat, needsFix: bool, parseFloat: Str -> Option<real>,
                jikan: Cell -> JikanReply, tmdb: (Str, Cell) -> TmdbReply)
    returns (fixed: bool, ghost newData: Option<Fetched>)
    requires index < rows.Length && HasColumns(rows[index])
    modifies rows
    ensures newData == if needsFix then FetchFor(old(rows[index]), jikan, tmdb) else None
    ensures fixed == newData.Some?
    ensures rows[..] == old(rows[..])[index := if fixed then Merge(old(rows[index]), newData.value) else old(rows[index])]
  {
    var row := rows[index];
    fixed := false;
    newData := None;
    if needsFix {
      var data := FetchFor(row, jikan, tmdb);
      newData := data;
      if data.Some? {
        WriteFetched(rows, index, data.value);
        fixed := true;
      }
    }
    if !fixed {
      assert rows[..] == old(rows[..])[index := row];
    }
  }

  /** The per-row step in terms of the flag and the lookup's answer
      (the lookup is made only when the flag is raised). */
  lemma EnrichRowCases(row: Record, parseFloat: Str -> Option<real>, jikan: Cell -> JikanReply,
                       tmdb: (Str, Cell) -> TmdbReply, needsFix: bool, newData: Option<Fetched>)
    requires HasColumns(row) && needsFix == NeedsFix(row, parseFloat)
    requires newData == if needsFix then FetchFor(row, jikan, tmdb) else None
    ensures EnrichRow(row, parseFloat, jikan, tmdb)
            == if newData.Some? then RowResult(Merge(row, newData.value), true) else RowResult(row, false)
  {
  }

  /** The `needs_fix` flag, raised by each failing test in turn. */
  method NeedsFixFlag(row: Record, parseFloat: Str -> Option<real>) returns (needsFix: bool)
    requires HasColumns(row)
    ensures needsFix == NeedsFix(row, parseFloat)
  {
    needsFix := false;
    if ImageNeedsFix(row[ImageColumn]) {
      needsFix := true;
    }
    if DescriptionNeedsFix(row[DescriptionColumn]) {
      needsFix := true;
    }
    if RatingNeedsFix(row[RatingColumn], parseFloat) {
      needsFix := true;
    }
  }

  /** The three `df.at[index, ...] = ...` writes of truthy fetched fields. */
  method WriteFetched(rows: array<Record>, index: nat, f: Fetched)
    requires index < rows.Length
    modifies rows
    ensures rows[..] == old(rows[..])[index := Merge(old(rows[index]), f)]
  {
    if Present(f.image) {
      rows[index] := rows[index][ImageColumn := f.image.value];
    }
    if Present(f.description) {
      rows[index] := rows[index][DescriptionColumn := f.description.value];
    }
    if Present(f.rating) {
      rows[index] := rows[index][RatingColumn := f.rating.value];
    }
  }

  /** The loop body against any step that agrees with the per-row step. */
  method FixRowWith(rows: array<Record>, index: nat, needsFix: bool, parseFloat: Str -> Option<real>,
                    jikan: Cell -> JikanReply, tmdb: (Str, Cell) -> TmdbReply, ghost step: Record --> RowResult)
    returns (fixed: bool)
    requires index < rows.Length && HasColumns(rows[index])
    requires needsFix == NeedsFix(rows[index], parseFloat)
    requires Implements(step, parseFloat, jikan, tmdb)
    modifies rows
    ensures step.requires(old(rows[index]))
    ensures rows[..] == old(rows[..])[index := step(old(rows[index])).row]
    ensures fixed == step(old(rows[index])).fixed
  {
    ghost var row := rows[index];
    ghost var newData;
    fixed, newData := FixRow(rows, index, needsFix, parseFloat, jikan, tmdb);
    EnrichRowCases(row, parseFloat, jikan, tmdb, needsFix, newData);
  }

  /** One pass of the loop body: the `needs_fix` test, then either the stop
      on a title that cannot be sliced, which leaves the row alone, or the
      fix of the row. */
  method VisitRow(rows: array<Record>, index: nat, parseFloat: Str -> Option<real>,
                  jikan: Cell -> JikanReply, tmdb: (Str, Cell) -> TmdbReply,
                  ghost step: Record --> RowResult, ghost stop: Record --> bool)
    returns (fixed: bool, stopped: bool)
    requires index < rows.Length && HasColumns(rows[index])
    requires Implements(step, parseFloat, jikan, tmdb) && StopsLike(stop, parseFloat)
    modifies rows
    ensures stop.requires(old(rows[index])) && stopped == stop(old(rows[index]))
    ensures stopped ==> rows[..] == old(rows[..])
    ensures !stopped ==> step.requires(old(rows[index]))
    ensures !stopped ==> rows[..] == old(rows[..])[index := step(old(rows[index])).row]
    ensures !stopped ==> fixed == step(old(rows[index])).fixed
  {
    var needsFix := NeedsFixFlag(rows[index], parseFloat);
    StopsByFlag(stop, rows[index], parseFloat, needsFix);
    fixed, stopped := false, false;
    if needsFix && !rows[index][TitleColumn].Text? {
      stopped := true;
    } else {
      fixed := FixRowWith(rows, index, needsFix, parseFloat, jikan, tmdb, step);
    }
  }

  /** The script's loop over the table, writing cells in place, until a row
      that needs a fix has a title `title[:30]` cannot slice: every row
      before that one is enriched and counted, that row and the later ones
      are left as they were, and `stopped` reports the stop. */
  method EnrichRows(rows: array<Record>, parseFloat: Str -> Option<real>,
                    jikan: Cell -> JikanReply, tmdb: (Str, Cell) -> TmdbReply,
                    ghost step: Record --> RowResult, ghost stop: Record --> bool)
    returns (fixedCount: nat, stopped: bool)
    requires forall i :: 0 <= i < rows.Length ==> HasColumns(rows[i])
    requires Implements(step, parseFloat, jikan, tmdb) && StopsLike(stop, parseFloat)
    modifies rows
    ensures Applies(step, old(rows[..]))
    ensures forall i :: 0 <= i < rows.Length ==> stop.requires(old(rows[i]))
    ensures var n := StopAt(old(rows[..]), stop);
      && (stopped <==> n < rows.Length)
      && rows[..] == EnrichAll(old(rows[..])[..n], step) + old(rows[..])[n..]
      && fixedCount == CountFixed(old(rows[..])[..n], step)
  {
    ghost var input := rows[..];
    ImplementsApplies(step, input, parseFloat, jikan, tmdb);
    StopsLikeAll(stop, input, parseFloat);
    fixedCount, stopped := 0, false;
    var index := 0;
    while index < rows.Length && !stopped
      invariant index <= rows.Length
      invariant forall k :: index <= k < rows.Length ==> rows[k] == input[k]
      invariant forall k :: 0 <= k < index ==> rows[k] == step(input[k]).row
      invariant forall k :: 0 <= k < index ==> !stop(input[k])
      invariant stopped ==> index < rows.Length && stop(input[index])
      invariant Applies(step, input[..index]) && fixedCount == CountFixed(input[..index], step)
      decreases rows.Length - index, !stopped
    {
      var fixed;
      fixed, stopped := VisitRow(rows, index, parseFloat, jikan, tmdb, step, stop);
      if !stopped {
        CountFixedStep(input, index, step);
        if fixed {
          fixedCount := fixedCount + 1;
        }
        index := index + 1;
      }
    }
    StopAtFirst(input, stop, index);
    EnrichedUpTo(input, rows[..], index, step);
  }

  /** The script on a table whose rows all have the required columns. */
  method EnrichTable(rows: array<Record>, parseFloat: Str -> Option<real>,
                     jikan: Cell -> JikanReply, tmdb: (Str, Cell) -> TmdbReply)
    returns (fixedCount: nat, stopped: bool)
    requires forall i :: 0 <= i < rows.Length ==> HasColumns(rows[i])
    modifies rows
    ensures Applies(RowStep(parseFloat, jikan, tmdb), old(rows[..]))
    ensures var n := StopAt(old(rows[..]), StopRule(parseFloat));
      && (stopped <==> n < rows.Length)
      && rows[..] == EnrichAll(old(rows[..])[..n], RowStep(parseFloat, jikan, tmdb)) + old(rows[..])[n..]
      && fixedCount == CountFixed(old(rows[..])[..n], RowStep(parseFloat, jikan, tmdb))
  {
    RowStepImplements(parseFloat, jikan, tmdb);
    StopRuleStopsLike(parseFloat);
    fixedCount, stopped := EnrichRows(rows, parseFloat, jikan, tmdb, RowStep(parseFloat, jikan, tmdb), StopRule(parseFloat));
  }
}
