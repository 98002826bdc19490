/**
 * The local ingestion script (ingest.py): the CSV's column names are
 * normalised, the first matching column of each category is renamed to the
 * category's standard name, standard columns that are still missing are
 * added with "N/A", missing cells become empty text, and every row becomes
 * one point whose type is corrected from the genre text. Points are sent in
 * batches of 100.
 *
 * The sentence encoder is the oracle `encode`; the row index `idx` of
 * `df.iterrows()` is the row's position (the default index `read_csv`
 * gives).
 */
module Ingest {
  import opened Text
  import opened Cells
  import opened Base
  import opened Batching

  const BatchSize: nat := 100
  const NotAvailable: Str := "N/A"
  const TypeColumn: Str := "type"

  // ---------------------------------------------------------------------
  // Column names

  /** `c.strip().lower().replace(" ", "_")`. */
  function NormaliseColumnName(c: Str): Str
  {
    ReplaceChar(Lower(Strip(c)), ' ', '_')
  }

  /** A normalised name has no spaces, no upper-case letters and no
      surrounding whitespace, and is as long as the stripped name. */
  lemma NormaliseColumnNameShape(c: Str)
    ensures var n := NormaliseColumnName(c);
      && |n| == |Strip(c)|
      && ' ' !in n
      && (forall i :: 0 <= i < |n| ==> !('A' <= n[i] <= 'Z'))
      && (n == [] || (!IsSpace(n[0]) && !IsSpace(n[|n| - 1])))
  {
    var n := NormaliseColumnName(c);
    assert forall i :: 0 <= i < |n| ==> n[i] != ' ' && !('A' <= n[i] <= 'Z');
    if n != [] {
      assert !IsSpace(n[0]) && !IsSpace(n[|n| - 1]);
    }
  }

  /** Normalising a normalised name changes nothing. */
  lemma NormaliseColumnNameIdempotent(c: Str)
    ensures NormaliseColumnName(NormaliseColumnName(c)) == NormaliseColumnName(c)
  {
    var n := NormaliseColumnName(c);
    NormaliseColumnNameShape(c);
    TrimStartIdempotent(n);
    TrimEndIdempotent(n);
    LowerNoUpper(n);
    ReplaceCharAbsent(n, ' ', '_');
  }

  /** `df.columns = [normalise(c) for c in df.columns]`. */
  function NormaliseColumns(columns: seq<Str>): (r: seq<Str>)
    ensures |r| == |columns|
  {
    seq(|columns|, i requires 0 <= i < |columns| => NormaliseColumnName(columns[i]))
  }

  // ---------------------------------------------------------------------
  // Column mapping (`find_col` and `col_map`)

  /** The first candidate, in candidate order, that is one of the columns. */
  function FindCol(columns: seq<Str>, candidates: seq<Str>): Option<Str>
    decreases |candidates|
  {
    if candidates == [] then None
    else if candidates[0] in columns then Some(candidates[0])
    else FindCol(columns, candidates[1..])
  }

  /** No column is found exactly when no candidate is a column; otherwise
      the column found is the earliest candidate that is a column. */
  lemma {:induction false} FindColSpec(columns: seq<Str>, candidates: seq<Str>)
    ensures FindCol(columns, candidates).None? <==>
      forall i :: 0 <= i < |candidates| ==> candidates[i] !in columns
    ensures forall i :: (0 <= i < |candidates| && candidates[i] in columns
        && (forall j :: 0 <= j < i ==> candidates[j] !in columns)) ==>
        FindCol(columns, candidates) == Some(candidates[i])
    decreases |candidates|
  {
    if candidates != [] {
      FindColSpec(columns, candidates[1..]);
      assert forall i :: 1 <= i < |candidates| ==> candidates[i] == candidates[1..][i - 1];
    }
  }

  /** What was found is a candidate and a column. */
  lemma {:induction false} FindColFound(columns: seq<Str>, candidates: seq<Str>)
    requires FindCol(columns, candidates).Some?
    ensures FindCol(columns, candidates).value in columns
    ensures FindCol(columns, candidates).value in candidates
    decreases |candidates|
  {
    if candidates[0] !in columns {
      FindColFound(columns, candidates[1..]);
    }
  }

  /** A standard column name with the names it may appear under, in
      priority order. */
  datatype Category = Category(standard: Str, candidates: seq<Str>)

  const Categories: seq<Category> := [
    Category("title", ["title", "show_title", "name", "series_title"]),
    Category("description", ["description", "synopsis", "plot", "summary", "desc"]),
    Category("image", ["image", "img_url", "poster", "cover", "poster_link", "picture"]),
    Category("rating", ["rating", "score", "imdb_score", "vote_average"]),
    Category("year", ["year", "release_year", "date", "aired"]),
    Category("genre", ["genre", "listed_in", "category", "genres"]),
    Category("type", ["type", "media_type", "content_type"])
  ]

  /** The standard columns filled in when missing, in the order they are
      added. */
  const StandardColumns: seq<Str> := ["title", "description", "image", "rating", "year", "type", "genre"]

  /** Every category lists its own standard name first, and no two
      categories share a standard name. */
  ghost predicate WellFormed(categories: seq<Category>)
  {
    && (forall i :: 0 <= i < |categories| ==>
          |categories[i].candidates| > 0 && categories[i].candidates[0] == categories[i].standard)
    && (forall i, j :: 0 <= i < j < |categories| ==> categories[i].standard != categories[j].standard)
  }

  lemma CategoriesWellFormed()
    ensures WellFormed(Categories)
  {
  }

  /** `col_map` after the categories have been tried in order: the column
      found for a category maps to its standard name, a later assignment to
      the same column winning. */
  function ColumnMap(columns: seq<Str>, categories: seq<Category>): map<Str, Str>
    decreases |categories|
  {
    if categories == [] then map[]
    else
      var m := ColumnMap(columns, categories[..|categories| - 1]);
      var last := categories[|categories| - 1];
      match FindCol(columns, last.candidates)
      case None => m
      case Some(c) => m[c := last.standard]
  }

  /** Every mapped column is a column found by some category and maps to
      that category's standard name; every column a category finds is
      mapped. */
  lemma {:induction false} ColumnMapContract(columns: seq<Str>, categories: seq<Category>)
    ensures forall c :: c in ColumnMap(columns, categories) ==> c in columns
    ensures forall i :: 0 <= i < |categories| && FindCol(columns, categories[i].candidates).Some? ==>
      FindCol(columns, categories[i].candidates).value in ColumnMap(columns, categories)
    ensures forall c :: c in ColumnMap(columns, categories) ==>
      exists i :: 0 <= i < |categories| && FindCol(columns, categories[i].candidates) == Some(c)
        && ColumnMap(columns, categories)[c] == categories[i].standard
    decreases |categories|
  {
    if categories != [] {
      var init := categories[..|categories| - 1];
      var last := categories[|categories| - 1];
      ColumnMapContract(columns, init);
      var m := ColumnMap(columns, init);
      var found := FindCol(columns, last.candidates);
      if found.Some? {
        FindColFound(columns, last.candidates);
      }
      forall i | 0 <= i < |categories| && FindCol(columns, categories[i].candidates).Some?
        ensures FindCol(columns, categories[i].candidates).value in ColumnMap(columns, categories)
      {
        if i < |init| {
          assert categories[i] == init[i];
        }
      }
      forall c | c in ColumnMap(columns, categories)
        ensures exists i :: (0 <= i < |categories| && FindCol(columns, categories[i].candidates) == Some(c)
          && ColumnMap(columns, categories)[c] == categories[i].standard)
      {
        if found.Some? && c == found.value {
          assert FindCol(columns, categories[|categories| - 1].candidates) == Some(c);
        } else {
          var i :| 0 <= i < |init| && FindCol(columns, init[i].candidates) == Some(c)
            && m[c] == init[i].standard;
          assert categories[i] == init[i];
        }
      }
    }
  }

  /** The loop filling `col_map`, one category after the other. */
  method MapColumns(columns: seq<Str>, categories: seq<Category>) returns (colMap: map<Str, Str>)
    ensures colMap == ColumnMap(columns, categories)
  {
    colMap := map[];
    var i := 0;
    while i < |categories|
      invariant i <= |categories|
      invariant colMap == ColumnMap(columns, categories[..i])
    {
      var category := categories[i];
      var found := FindCol(columns, category.candidates);
      assert categories[..i + 1][..i] == categories[..i];
      if found.Some? {
        colMap := colMap[found.value := category.standard];
      }
      i := i + 1;
    }
    assert categories[..i] == categories;
  }

  /** `df.rename(columns=col_map)`. */
  function Rename(columns: seq<Str>, colMap: map<Str, Str>): (r: seq<Str>)
    ensures |r| == |columns|
  {
    seq(|columns|, i requires 0 <= i < |columns| =>
      if columns[i] in colMap then colMap[columns[i]] else columns[i])
  }

  predicate Distinct(xs: seq<Str>)
  {
    forall i, j :: 0 <= i < j < |xs| ==> xs[i] != xs[j]
  }

  /** Renaming never makes two columns share a name, because a category's
      standard name is its first candidate: when a column already has that
      name, it is the one found. */
  lemma RenameDistinct(columns: seq<Str>, categories: seq<Category>)
    requires Distinct(columns)
    requires WellFormed(categories)
    ensures Distinct(Rename(columns, ColumnMap(columns, categories)))
  {
    var m := ColumnMap(columns, categories);
    var r := Rename(columns, m);
    ColumnMapContract(columns, categories);
    forall a, b | 0 <= a < b < |columns|
      ensures r[a] != r[b]
    {
      var x, y := columns[a], columns[b];
      if x in m {
        var i :| 0 <= i < |categories| && FindCol(columns, categories[i].candidates) == Some(x)
          && m[x] == categories[i].standard;
        FindColSpec(columns, categories[i].candidates);
        if y in m {
          var j :| 0 <= j < |categories| && FindCol(columns, categories[j].candidates) == Some(y)
            && m[y] == categories[j].standard;
          if i != j {
            assert categories[i].standard != categories[j].standard by {
              if i < j {} else {}
            }
          }
        }
      } else if y in m {
        var j :| 0 <= j < |categories| && FindCol(columns, categories[j].candidates) == Some(y)
          && m[y] == categories[j].standard;
        FindColSpec(columns, categories[j].candidates);
      }
    }
  }

  // ---------------------------------------------------------------------
  // The table and the missing-column fill

  /** A CSV table: column names and rows of cells, one per column. */
  datatype Table = Table(columns: seq<Str>, rows: seq<seq<Cell>>)

  ghost predicate Rectangular(t: Table)
  {
    forall r :: 0 <= r < |t.rows| ==> |t.rows[r]| == |t.columns|
  }

  /** `df[name] = value`: a new last column holding `value` in every row. */
  function AddColumn(t: Table, name: Str, value: Cell): (r: Table)
    ensures |r.rows| == |t.rows|
  {
    Table(t.columns + [name], seq(|t.rows|, i requires 0 <= i < |t.rows| => t.rows[i] + [value]))
  }

  /** The table after `for std_col in standards: if std_col not in
      df.columns: df[std_col] = "N/A"`. */
  function FillTable(t: Table, standards: seq<Str>): Table
    decreases |standards|
  {
    if standards == [] then t
    else
      var p := FillTable(t, standards[..|standards| - 1]);
      var s := standards[|standards| - 1];
      if s in p.columns then p else AddColumn(p, s, Text(NotAvailable))
  }

  lemma AddColumnContract(t: Table, name: Str, value: Cell)
    requires Rectangular(t)
    ensures var a := AddColumn(t, name, value);
      && Rectangular(a)
      && a.columns == t.columns + [name]
      && (forall r, k :: 0 <= r < |a.rows| && 0 <= k < |t.columns| ==> a.rows[r][k] == t.rows[r][k])
      && (forall r :: 0 <= r < |a.rows| ==> a.rows[r][|t.columns|] == value)
  {
  }

  /** The fill keeps the table rectangular, keeps every existing column and
      cell where it was, and adds "N/A" in every row of each new column. */
  lemma {:induction false} FillTableCells(t: Table, standards: seq<Str>)
    requires Rectangular(t)
    ensures var f := FillTable(t, standards);
      && Rectangular(f)
      && |f.rows| == |t.rows|
      && |t.columns| <= |f.columns| && f.columns[..|t.columns|] == t.columns
      && (forall r, k :: 0 <= r < |f.rows| && 0 <= k < |t.columns| ==> f.rows[r][k] == t.rows[r][k])
      && (forall r, k :: 0 <= r < |f.rows| && |t.columns| <= k < |f.columns| ==> f.rows[r][k] == Text(NotAvailable))
    decreases |standards|
  {
    if standards != [] {
      var init := standards[..|standards| - 1];
      var s := standards[|standards| - 1];
      FillTableCells(t, init);
      var p := FillTable(t, init);
      if s !in p.columns {
        AddColumnContract(p, s, Text(NotAvailable));
        var f := AddColumn(p, s, Text(NotAvailable));
        assert f.columns[..|t.columns|] == p.columns[..|t.columns|];
      }
    }
  }

  /** The fill adds only standard names that were missing, and afterwards
      every standard name is a column; distinct column names stay
      distinct. */
  lemma FillTableColumns(t: Table, standards: seq<Str>)
    ensures var f := FillTable(t, standards).columns;
      && |t.columns| <= |f| && f[..|t.columns|] == t.columns
      && (forall k :: 0 <= k < |standards| ==> standards[k] in f)
      && (forall k :: |t.columns| <= k < |f| ==> f[k] in standards && f[k] !in t.columns)
      && (Distinct(t.columns) ==> Distinct(f))
  {
    FillTableAdds(t, standards);
    FillTableCovers(t, standards);
    if Distinct(t.columns) {
      FillTableDistinct(t, standards);
    }
  }

  lemma {:induction false} FillTableAdds(t: Table, standards: seq<Str>)
    ensures var f := FillTable(t, standards).columns;
      && |t.columns| <= |f| && f[..|t.columns|] == t.columns
      && (forall k :: |t.columns| <= k < |f| ==> f[k] in standards && f[k] !in t.columns)
    decreases |standards|
  {
    if standards != [] {
      var init := standards[..|standards| - 1];
      var s := standards[|standards| - 1];
      FillTableAdds(t, init);
      var p := FillTable(t, init).columns;
      assert forall k :: 0 <= k < |init| ==> init[k] == standards[k];
      if s !in p {
        var f := p + [s];
        assert f[..|t.columns|] == p[..|t.columns|];
        forall k | |t.columns| <= k < |f|
          ensures f[k] in standards && f[k] !in t.columns
        {
          if k == |p| {
            assert t.columns == p[..|t.columns|];
          }
        }
      }
    }
  }

  lemma {:induction false} FillTableCovers(t: Table, standards: seq<Str>)
    ensures forall k :: 0 <= k < |standards| ==> standards[k] in FillTable(t, standards).columns
    decreases |standards|
  {
    if standards != [] {
      var init := standards[..|standards| - 1];
      FillTableCovers(t, init);
      var p := FillTable(t, init).columns;
      assert forall k :: 0 <= k < |init| ==> init[k] == standards[k];
      assert forall c :: c in p ==> c in FillTable(t, standards).columns;
    }
  }

  lemma {:induction false} FillTableDistinct(t: Table, standards: seq<Str>)
    requires Distinct(t.columns)
    ensures Distinct(FillTable(t, standards).columns)
    decreases |standards|
  {
    if standards != [] {
      var init := standards[..|standards| - 1];
      FillTableDistinct(t, init);
    }
  }

  /** Both halves of the fill's contract. */
  lemma FillTableContract(t: Table, standards: seq<Str>)
    requires Rectangular(t)
    ensures var f := FillTable(t, standards);
      && Rectangular(f)
      && |f.rows| == |t.rows|
      && |t.columns| <= |f.columns| && f.columns[..|t.columns|] == t.columns
      && (forall k :: 0 <= k < |standards| ==> standards[k] in f.columns)
      && (forall k :: |t.columns| <= k < |f.columns| ==> f.columns[k] in standards && f.columns[k] !in t.columns)
      && (forall r, k :: 0 <= r < |f.rows| && 0 <= k < |t.columns| ==> f.rows[r][k] == t.rows[r][k])
      && (forall r, k :: 0 <= r < |f.rows| && |t.columns| <= k < |f.columns| ==> f.rows[r][k] == Text(NotAvailable))
      && (Distinct(t.columns) ==> Distinct(f.columns))
  {
    FillTableCells(t, standards);
    FillTableColumns(t, standards);
  }

  /** The loop adding the missing standard columns one after the other. */
  method FillMissing(t: Table, standards: seq<Str>) returns (r: Table)
    ensures r == FillTable(t, standards)
  {
    r := t;
    var i := 0;
    while i < |standards|
      invariant i <= |standards|
      invariant r == FillTable(t, standards[..i])
    {
      assert standards[..i + 1][..i] == standards[..i];
      if standards[i] !in r.columns {
        r := AddColumn(r, standards[i], Text(NotAvailable));
      }
      i := i + 1;
    }
    assert standards[..i] == standards;
  }

  /** `df.fillna("")`: every missing cell becomes empty text and every other
      cell is kept. */
  function FillNa(t: Table): (r: Table)
    ensures r.columns == t.columns && |r.rows| == |t.rows|
    ensures forall i :: 0 <= i < |t.rows| ==> |r.rows[i]| == |t.rows[i]|
    ensures forall i, k :: 0 <= i < |t.rows| && 0 <= k < |t.rows[i]| ==>
      !r.rows[i][k].Missing? && (!t.rows[i][k].Missing? ==> r.rows[i][k] == t.rows[i][k])
  {
    Table(t.columns, seq(|t.rows|, i requires 0 <= i < |t.rows| =>
      seq(|t.rows[i]|, k requires 0 <= k < |t.rows[i]| =>
        if t.rows[i][k].Missing? then Text("") else t.rows[i][k])))
  }

  // ---------------------------------------------------------------------
  // Rows and points

  /** The position of the first column called `name`. */
  function IndexOf(columns: seq<Str>, name: Str): (r: nat)
    requires name in columns
    ensures r < |columns| && columns[r] == name
    ensures forall k :: 0 <= k < r ==> columns[k] != name
  {
    if columns[0] == name then 0 else 1 + IndexOf(columns[1..], name)
  }

  const TitleColumn: Str := "title"
  const DescriptionColumn: Str := "description"
  const GenreColumn: Str := "genre"

  /** The table the row loop may read: rectangular, with distinct column
      names among which every standard name occurs. */
  ghost predicate Ready(t: Table)
  {
    && Rectangular(t) && Distinct(t.columns)
    && TitleColumn in t.columns && DescriptionColumn in t.columns
    && GenreColumn in t.columns && TypeColumn in t.columns
  }

  /** `row[name]`. */
  function Get(columns: seq<Str>, row: seq<Cell>, name: Str): Cell
    requires name in columns && |row| == |columns|
  {
    row[IndexOf(columns, name)]
  }

  /** The corrected type: the genre text, lower-cased, decides
      "Documentary", "Anime" or "Stand-Up" in that order of precedence;
      otherwise the type cell in title case. */
  function RealType(kind: Cell, genre: Cell): Str
  {
    var g := Lower(Render(genre));
    if Contains(g, "documentary") || Contains(g, "doc") then "Documentary"
    else if Contains(g, "anime") then "Anime"
    else if Contains(g, "stand-up") then "Stand-Up"
    else Title(Render(kind))
  }

  /** The "documentary" test is subsumed by the "doc" test: any genre
      mentioning "doc" gives "Documentary", and the other overrides and the
      title-cased type apply only to genres without "doc". */
  lemma RealTypeContract(kind: Cell, genre: Cell)
    ensures var g := Lower(Render(genre));
      && (Contains(g, "doc") ==> RealType(kind, genre) == "Documentary")
      && (!Contains(g, "doc") && Contains(g, "anime") ==> RealType(kind, genre) == "Anime")
      && (!Contains(g, "doc") && !Contains(g, "anime") && Contains(g, "stand-up") ==>
            RealType(kind, genre) == "Stand-Up")
      && (!Contains(g, "doc") && !Contains(g, "anime") && !Contains(g, "stand-up") ==>
            RealType(kind, genre) == Title(Render(kind)))
  {
    var g := Lower(Render(genre));
    if Contains(g, "documentary") {
      ContainsExtended(g, "doc", "documentary");
    }
  }

  /** `row.to_dict()`: each column name mapped to its cell. */
  function ToDict(columns: seq<Str>, row: seq<Cell>): map<Str, Cell>
    requires |row| == |columns|
    decreases |columns|
  {
    if columns == [] then map[]
    else ToDict(columns[..|columns| - 1], row[..|row| - 1])[columns[|columns| - 1] := row[|row| - 1]]
  }

  /** The keys are the column names, and with distinct names each maps to
      its own cell. */
  lemma ToDictContract(columns: seq<Str>, row: seq<Cell>)
    requires |row| == |columns|
    ensures forall c :: c in ToDict(columns, row) <==> c in columns
    ensures Distinct(columns) ==> forall k :: 0 <= k < |columns| ==> ToDict(columns, row)[columns[k]] == row[k]
  {
    ToDictKeys(columns, row);
    if Distinct(columns) {
      ToDictValues(columns, row);
    }
  }

  lemma {:induction false} ToDictKeys(columns: seq<Str>, row: seq<Cell>)
    requires |row| == |columns|
    ensures forall c :: c in ToDict(columns, row) <==> c in columns
    decreases |columns|
  {
    if columns != [] {
      var n := |columns| - 1;
      ToDictKeys(columns[..n], row[..n]);
      assert columns == columns[..n] + [columns[n]];
    }
  }

  lemma {:induction false} ToDictValues(columns: seq<Str>, row: seq<Cell>)
    requires |row| == |columns| && Distinct(columns)
    ensures forall k :: 0 <= k < |columns| ==>
      columns[k] in ToDict(columns, row) && ToDict(columns, row)[columns[k]] == row[k]
    decreases |columns|
  {
    if columns != [] {
      var n := |columns| - 1;
      assert Distinct(columns[..n]) by {
        forall i, j | 0 <= i < j < n
          ensures columns[..n][i] != columns[..n][j]
        {
          assert columns[..n][i] == columns[i] && columns[..n][j] == columns[j];
        }
      }
      ToDictValues(columns[..n], row[..n]);
      forall k | 0 <= k < n
        ensures ToDict(columns, row)[columns[k]] == row[k]
      {
        assert columns[k] != columns[n];
        assert columns[..n][k] == columns[k];
      }
    }
  }

  /** `payload = row.to_dict(); payload['type'] = real_type`. */
  function IngestPayload(columns: seq<Str>, row: seq<Cell>): map<Str, Cell>
    requires TypeColumn in columns && GenreColumn in columns && |row| == |columns|
  {
    ToDict(columns, row)[TypeColumn := Text(RealType(Get(columns, row, TypeColumn), Get(columns, row, GenreColumn)))]
  }

  /** The payload is the row with only its type replaced by the corrected
      type. */
  lemma PayloadContract(columns: seq<Str>, row: seq<Cell>)
    requires TypeColumn in columns && GenreColumn in columns && |row| == |columns|
    requires Distinct(columns)
    ensures var p := IngestPayload(columns, row);
      && (forall c :: c in p <==> c in columns)
      && p[TypeColumn] == Text(RealType(Get(columns, row, TypeColumn), Get(columns, row, GenreColumn)))
      && (forall k :: 0 <= k < |columns| && columns[k] != TypeColumn ==> p[columns[k]] == row[k])
  {
    ToDictContract(columns, row);
  }

  /** `f"{row['title']} {row['description']} {row['genre']} {real_type}"`. */
  function IngestText(columns: seq<Str>, row: seq<Cell>, realType: Str): Str
    requires TitleColumn in columns && DescriptionColumn in columns && GenreColumn in columns
    requires |row| == |columns|
  {
    Render(Get(columns, row, TitleColumn)) + " " + Render(Get(columns, row, DescriptionColumn)) + " "
      + Render(Get(columns, row, GenreColumn)) + " " + realType
  }

  datatype IngestPoint = IngestPoint(id: nat, vector: seq<real>, payload: map<Str, Cell>)

  /** The point for the row at position `idx`. */
  function MakePoint(t: Table, idx: nat, encode: Str -> seq<real>): (p: IngestPoint)
    requires Ready(t) && idx < |t.rows|
    ensures p.id == idx
  {
    var row := t.rows[idx];
    var realType := RealType(Get(t.columns, row, TypeColumn), Get(t.columns, row, GenreColumn));
    IngestPoint(idx, encode(IngestText(t.columns, row, realType)), IngestPayload(t.columns, row))
  }

  /** One point per row, in row order. */
  function Points(t: Table, encode: Str -> seq<real>): (ps: seq<IngestPoint>)
    requires Ready(t)
    ensures |ps| == |t.rows|
  {
    seq(|t.rows|, i requires 0 <= i < |t.rows| => MakePoint(t, i, encode))
  }

  /** The row loop: every row yields its point, and the points are sent in
      batches of 100 with the remainder sent last. */
  method IngestRows(t: Table, encode: Str -> seq<real>) returns (batches: seq<seq<IngestPoint>>)
    requires Ready(t)
    ensures batches == Chunks(Points(t, encode), BatchSize)
  {
    batches := [];
    var pending: seq<IngestPoint> := [];
    ghost var flushed: seq<IngestPoint> := [];
    var idx := 0;
    while idx < |t.rows|
      invariant idx <= |t.rows|
      invariant Batched(batches, flushed, pending, BatchSize)
      invariant flushed + pending == Points(t, encode)[..idx]
    {
      var row := t.rows[idx];
      var realType := RealType(Get(t.columns, row, TypeColumn), Get(t.columns, row, GenreColumn));
      var vector := encode(IngestText(t.columns, row, realType));
      var payload := IngestPayload(t.columns, row);
      var point := IngestPoint(idx, vector, payload);
      assert point == Points(t, encode)[idx];
      PrefixSnoc(Points(t, encode), idx);
      var sent;
      batches, pending, flushed, sent := Push(batches, pending, flushed, point, BatchSize);
      idx := idx + 1;
    }
    assert Points(t, encode)[..idx] == Points(t, encode);
    var sent;
    batches, sent := Drain(batches, pending, flushed, BatchSize);
  }

  /** Every row is sent exactly once, in order, with its position as id and
      its corrected payload; every batch holds 100 points except possibly
      the last, which is not empty. */
  lemma IngestContract(t: Table, encode: Str -> seq<real>)
    requires Ready(t)
    ensures var batches := Chunks(Points(t, encode), BatchSize);
      && Flatten(batches) == Points(t, encode)
      && (forall k :: 0 <= k < |batches| ==> 0 < |batches[k]| <= BatchSize)
      && (forall k :: 0 <= k < |batches| - 1 ==> |batches[k]| == BatchSize)
    ensures forall i :: 0 <= i < |t.rows| ==>
      && Points(t, encode)[i].id == i
      && Points(t, encode)[i].payload == IngestPayload(t.columns, t.rows[i])
  {
    ChunksFlatten(Points(t, encode), BatchSize);
    ChunksSizes(Points(t, encode), BatchSize);
  }

  /** The table the row loop reads: normalised, renamed, filled and with
      missing cells emptied. */
  function PreparedTable(columns: seq<Str>, rows: seq<seq<Cell>>): Table
  {
    var names := NormaliseColumns(columns);
    FillNa(FillTable(Table(Rename(names, ColumnMap(names, Categories)), rows), StandardColumns))
  }

  /** The preparation yields a table the row loop can read, provided the
      normalised column names are distinct. */
  lemma PreparedTableReady(columns: seq<Str>, rows: seq<seq<Cell>>)
    requires forall r :: 0 <= r < |rows| ==> |rows[r]| == |columns|
    requires Distinct(NormaliseColumns(columns))
    ensures Ready(PreparedTable(columns, rows))
  {
    var names := NormaliseColumns(columns);
    RenamedTable(names, rows);
    StandardColumnsCover();
    FilledReady(Table(Rename(names, ColumnMap(names, Categories)), rows), StandardColumns);
  }

  /** Renaming distinct normalised names by the column map gives a
      rectangular table with distinct names. */
  lemma RenamedTable(names: seq<Str>, rows: seq<seq<Cell>>)
    requires forall r :: 0 <= r < |rows| ==> |rows[r]| == |names|
    requires Distinct(names)
    ensures Rectangular(Table(Rename(names, ColumnMap(names, Categories)), rows))
    ensures Distinct(Rename(names, ColumnMap(names, Categories)))
  {
    CategoriesWellFormed();
    RenameDistinct(names, Categories);
  }

  /** The four columns the row loop reads are standard columns. */
  lemma StandardColumnsCover()
    ensures TitleColumn in StandardColumns && DescriptionColumn in StandardColumns
    ensures GenreColumn in StandardColumns && TypeColumn in StandardColumns
  {
    assert StandardColumns[0] == TitleColumn && StandardColumns[1] == DescriptionColumn;
    assert StandardColumns[5] == TypeColumn && StandardColumns[6] == GenreColumn;
  }

  /** Filling in standard names that include the four the loop reads, then
      emptying missing cells, yields a ready table. */
  lemma FilledReady(t: Table, standards: seq<Str>)
    requires Rectangular(t) && Distinct(t.columns)
    requires TitleColumn in standards && DescriptionColumn in standards
    requires GenreColumn in standards && TypeColumn in standards
    ensures Ready(FillNa(FillTable(t, standards)))
  {
    FillTableCells(t, standards);
    FillTableCovers(t, standards);
    FillTableDistinct(t, standards);
  }

  /** The whole script after reading the CSV. */
  method IngestCsv(columns: seq<Str>, rows: seq<seq<Cell>>, encode: Str -> seq<real>)
    returns (batches: seq<seq<IngestPoint>>)
    requires forall r :: 0 <= r < |rows| ==> |rows[r]| == |columns|
    requires Distinct(NormaliseColumns(columns))
    ensures Ready(PreparedTable(columns, rows))
    ensures batches == Chunks(Points(PreparedTable(columns, rows), encode), BatchSize)
  {
    var names := NormaliseColumns(columns);
    var colMap := MapColumns(names, Categories);
    var t := FillMissing(Table(Rename(names, colMap), rows), StandardColumns);
    t := FillNa(t);
    PreparedTableReady(columns, rows);
    batches := IngestRows(t, encode);
  }
}
