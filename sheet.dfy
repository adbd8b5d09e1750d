/** The worksheet side of both servers: reading keyword rows out of the
    uploaded sheet, and cutting the keyword list into fixed-size batches. */
module Sheet {
  import opened Base
  import opened Text

  /** One worksheet row: for each cell from column 1 on, the `toString()` of
      its value, or None when the cell has no value. */
  datatype Row = Row(cells: seq<Option<string>>)

  /** `row.getCell(column).value?.toString()`; columns count from 1. */
  function Cell(row: Row, column: nat): Option<string>
    requires column >= 1
  {
    if column <= |row.cells| then row.cells[column - 1] else None
  }

  /** The uploaded file: one whose workbook or first worksheet cannot be
      loaded fails with that error's message; otherwise the rows of its
      first worksheet. */
  datatype Workbook = Unloadable(message: string) | Loaded(rows: seq<Row>)

  /** One keyword to classify, with its match type. */
  datatype Keyword = Keyword(text: string, matchType: string)

  const DefaultMatchType: string := "Broad"

  /** The trimmed text of a cell, empty when the cell has no value. */
  function TrimmedCell(cell: Option<string>): string
  {
    match cell
    case None => ""
    case Some(v) => Trim(v)
  }

  /** `row.getCell(2).value?.toString().trim() || 'Broad'`. */
  function MatchTypeOf(cell: Option<string>): string
  {
    var t := TrimmedCell(cell);
    if t == [] then DefaultMatchType else t
  }

  /** The match type is never empty and always trimmed; it is the default
      exactly when the cell is missing or blank (or itself says "Broad"),
      and otherwise the cell's trimmed text. */
  lemma MatchTypeRule(cell: Option<string>)
    ensures MatchTypeOf(cell) != [] && Trim(MatchTypeOf(cell)) == MatchTypeOf(cell)
    ensures MatchTypeOf(cell) == DefaultMatchType
            <==> TrimmedCell(cell) == [] || TrimmedCell(cell) == DefaultMatchType
    ensures MatchTypeOf(cell) != DefaultMatchType ==> MatchTypeOf(cell) == TrimmedCell(cell)
  {
    DefaultTrimmed();
    if cell.Some? {
      TrimIdempotent(cell.value);
    }
  }

  lemma DefaultTrimmed()
    ensures Trim(DefaultMatchType) == DefaultMatchType
  {
    TrimUnique([], DefaultMatchType, []);
    assert [] + DefaultMatchType + [] == DefaultMatchType;
  }

  /** The keyword a data row contributes, if any: the trimmed first cell,
      unless it is empty, with the match type of the second cell. */
  function KeywordOf(row: Row): Option<Keyword>
  {
    var text := TrimmedCell(Cell(row, 1));
    if text == [] then None else Some(Keyword(text, MatchTypeOf(Cell(row, 2))))
  }

  /** The `Some` values `f` gives for the elements of `xs`, in order. */
  function FilterMap<A, B>(f: A -> Option<B>, xs: seq<A>): seq<B>
  {
    if xs == [] then []
    else
      var last := f(xs[|xs| - 1]);
      FilterMap(f, xs[..|xs| - 1]) + (if last.Some? then [last.value] else [])
  }

  /** The keywords of a list of data rows, in row order. */
  function KeywordsOf(rows: seq<Row>): seq<Keyword>
  {
    FilterMap(KeywordOf, rows)
  }

  /** The data rows of a sheet: every row but the first, which is the header. */
  function DataRows(sheet: seq<Row>): seq<Row>
  {
    if sheet == [] then [] else sheet[1..]
  }

  /** `worksheet.eachRow` with the callback of server.js:197-207 and
      src/server.js:150-160: row number 1 is skipped and each later row
      contributes at most one keyword, pushed in row order. */
  method ExtractKeywords(sheet: seq<Row>) returns (keywords: seq<Keyword>)
    ensures keywords == KeywordsOf(DataRows(sheet))
  {
    keywords := [];
    var index := 0;
    while index < |sheet|
      invariant 0 <= index <= |sheet|
      invariant keywords == KeywordsOf(DataRows(sheet[..index]))
    {
      var rowNumber := index + 1;
      DataRowsSnoc(sheet, index);
      if rowNumber > 1 {
        var k := KeywordOf(sheet[index]);
        FilterMapSnoc(KeywordOf, DataRows(sheet[..index]), sheet[index]);
        if k.Some? {
          keywords := keywords + [k.value];
        }
      }
      index := index + 1;
    }
    assert sheet[..|sheet|] == sheet;
  }

  /** One more row of the sheet adds one data row, unless it is the header. */
  lemma DataRowsSnoc(sheet: seq<Row>, index: nat)
    requires index < |sheet|
    ensures DataRows(sheet[..index + 1])
            == if index == 0 then [] else DataRows(sheet[..index]) + [sheet[index]]
  {
    if index > 0 {
      assert sheet[..index + 1][1..] == sheet[..index][1..] + [sheet[index]];
    }
  }

  lemma FilterMapSnoc<A, B>(f: A -> Option<B>, xs: seq<A>, x: A)
    ensures FilterMap(f, xs + [x]) == FilterMap(f, xs) + (if f(x).Some? then [f(x).value] else [])
  {
    assert (xs + [x])[..|xs|] == xs;
  }

  lemma {:induction false} FilterMapNone<A, B>(f: A -> Option<B>, xs: seq<A>)
    requires forall i :: 0 <= i < |xs| ==> f(xs[i]).None?
    ensures FilterMap(f, xs) == []
  {
    if xs != [] {
      FilterMapNone(f, xs[..|xs| - 1]);
    }
  }

  lemma FilterMapOne<A, B>(f: A -> Option<B>, x: A)
    ensures FilterMap(f, [x]) == if f(x).Some? then [f(x).value] else []
  {
    assert [x][..0] == [];
  }

  lemma {:induction false} FilterMapAppend<A, B>(f: A -> Option<B>, a: seq<A>, b: seq<A>)
    ensures FilterMap(f, a + b) == FilterMap(f, a) + FilterMap(f, b)
    decreases |b|
  {
    if b == [] {
      assert a + b == a;
    } else {
      var c := a + b;
      assert c[..|c| - 1] == a + b[..|b| - 1];
      assert c[|c| - 1] == b[|b| - 1];
      FilterMapAppend(f, a, b[..|b| - 1]);
    }
  }

  /** `FilterMap` keeps order, drops exactly the elements `f` maps to None
      and invents nothing: `sources[j]` is the index the j-th value came
      from, the sources increase, and every index with a value is among them. */
  lemma {:induction false} FilterMapSources<A, B>(f: A -> Option<B>, xs: seq<A>) returns (sources: seq<nat>)
    ensures |sources| == |FilterMap(f, xs)|
    ensures forall j :: 0 <= j < |sources| ==>
      sources[j] < |xs| && f(xs[sources[j]]) == Some(FilterMap(f, xs)[j])
    ensures forall j, j' :: 0 <= j < j' < |sources| ==> sources[j] < sources[j']
    ensures forall i :: 0 <= i < |xs| && f(xs[i]).Some? ==> i in sources
  {
    if xs == [] {
      sources := [];
    } else {
      var init := xs[..|xs| - 1];
      var before := FilterMapSources(f, init);
      var last := f(xs[|xs| - 1]);
      var ys := FilterMap(f, xs);
      assert ys == FilterMap(f, init) + (if last.Some? then [last.value] else []);
      sources := before + (if last.Some? then [|xs| - 1] else []);
      forall j | 0 <= j < |sources|
        ensures sources[j] < |xs| && f(xs[sources[j]]) == Some(ys[j])
      {
        if j < |before| {
          assert sources[j] == before[j];
          assert xs[before[j]] == init[before[j]];
          assert ys[j] == FilterMap(f, init)[j];
        }
      }
      forall i | 0 <= i < |xs| && f(xs[i]).Some? ensures i in sources {
        if i < |init| {
          assert xs[i] == init[i];
          assert i in before;
        }
      }
    }
  }

  /** Extraction keeps the rows' order, drops exactly the rows whose first
      cell trims to nothing, and invents nothing: `sources[j]` is the row the
      j-th keyword came from, the sources increase, and every row with a
      keyword is among them. */
  lemma KeywordSources(rows: seq<Row>) returns (sources: seq<nat>)
    ensures |sources| == |KeywordsOf(rows)|
    ensures forall j :: 0 <= j < |sources| ==>
      sources[j] < |rows| && KeywordOf(rows[sources[j]]) == Some(KeywordsOf(rows)[j])
    ensures forall j, j' :: 0 <= j < j' < |sources| ==> sources[j] < sources[j']
    ensures forall i :: 0 <= i < |rows| && KeywordOf(rows[i]).Some? ==> i in sources
  {
    sources := FilterMapSources(KeywordOf, rows);
  }

  /** The keywords are exactly those of the rows that give one. */
  lemma KeywordsFromRows(rows: seq<Row>)
    ensures forall i :: 0 <= i < |rows| && KeywordOf(rows[i]).Some? ==> KeywordOf(rows[i]).value in KeywordsOf(rows)
    ensures forall k :: k in KeywordsOf(rows) ==> exists i :: 0 <= i < |rows| && KeywordOf(rows[i]) == Some(k)
  {
    var sources := KeywordSources(rows);
    forall i | 0 <= i < |rows| && KeywordOf(rows[i]).Some?
      ensures KeywordOf(rows[i]).value in KeywordsOf(rows)
    {
      var j :| 0 <= j < |sources| && sources[j] == i;
      assert KeywordsOf(rows)[j] == KeywordOf(rows[i]).value;
    }
    forall k | k in KeywordsOf(rows)
      ensures exists i :: 0 <= i < |rows| && KeywordOf(rows[i]) == Some(k)
    {
      var j :| 0 <= j < |KeywordsOf(rows)| && KeywordsOf(rows)[j] == k;
      assert KeywordOf(rows[sources[j]]) == Some(k);
    }
  }

  /** Every extracted keyword has a non-empty trimmed text and a non-empty
      trimmed match type. */
  lemma KeywordsWellFormed(rows: seq<Row>)
    ensures forall k :: k in KeywordsOf(rows) ==>
      k.text != [] && Trim(k.text) == k.text && k.matchType != [] && Trim(k.matchType) == k.matchType
  {
    var sources := KeywordSources(rows);
    forall k | k in KeywordsOf(rows)
      ensures k.text != [] && Trim(k.text) == k.text && k.matchType != [] && Trim(k.matchType) == k.matchType
    {
      var j :| 0 <= j < |KeywordsOf(rows)| && KeywordsOf(rows)[j] == k;
      var row := rows[sources[j]];
      TrimIdempotent(Cell(row, 1).value);
      MatchTypeRule(Cell(row, 2));
    }
  }

  /** The batches of the loop `for (i = 0; i < n; i += size)` starting at
      `i`: each is `xs.slice(i, Math.min(i + size, n))`. */
  function BatchesFrom<T>(xs: seq<T>, size: nat, i: nat): seq<seq<T>>
    requires size > 0
    decreases |xs| - i
  {
    if i >= |xs| then []
    else [xs[i..Min(i + size, |xs|)]] + BatchesFrom(xs, size, i + size)
  }

  function Batches<T>(xs: seq<T>, size: nat): seq<seq<T>>
    requires size > 0
  {
    BatchesFrom(xs, size, 0)
  }

  function Flatten<T>(bs: seq<seq<T>>): seq<T>
  {
    if bs == [] then [] else bs[0] + Flatten(bs[1..])
  }

  /** The batches partition the list in order: concatenated they give the
      list back, and each holds between 1 and `size` items. */
  lemma BatchesPartition<T>(xs: seq<T>, size: nat, i: nat)
    requires size > 0 && i <= |xs|
    ensures Flatten(BatchesFrom(xs, size, i)) == xs[i..]
    ensures forall b :: b in BatchesFrom(xs, size, i) ==> 1 <= |b| <= size
  {
    BatchesFlatten(xs, size, i);
    BatchesSized(xs, size, i);
  }

  lemma {:induction false} BatchesFlatten<T>(xs: seq<T>, size: nat, i: nat)
    requires size > 0 && i <= |xs|
    ensures Flatten(BatchesFrom(xs, size, i)) == xs[i..]
    decreases |xs| - i
  {
    if i < |xs| {
      var hi := Min(i + size, |xs|);
      var bs := BatchesFrom(xs, size, i);
      var rest := BatchesFrom(xs, size, i + size);
      if i + size < |xs| {
        BatchesFlatten(xs, size, i + size);
      } else {
        assert rest == [];
      }
      assert bs[1..] == rest;
      assert xs[i..] == xs[i..hi] + xs[hi..];
    }
  }

  lemma {:induction false} BatchesSized<T>(xs: seq<T>, size: nat, i: nat)
    requires size > 0 && i <= |xs|
    ensures forall b :: b in BatchesFrom(xs, size, i) ==> 1 <= |b| <= size
    decreases |xs| - i
  {
    if i < |xs| {
      var first := xs[i..Min(i + size, |xs|)];
      var rest := BatchesFrom(xs, size, i + size);
      if i + size < |xs| {
        BatchesSized(xs, size, i + size);
      } else {
        assert rest == [];
      }
      forall b | b in BatchesFrom(xs, size, i)
        ensures 1 <= |b| <= size
      {
        assert b == first || b in rest;
      }
    }
  }

  /** There are ceil((n - i) / size) batches from `i` on, stated without
      division: all but the last are full, and the last is not empty. */
  lemma {:induction false} BatchCount<T>(xs: seq<T>, size: nat, i: nat)
    requires size > 0 && i <= |xs|
    ensures (|BatchesFrom(xs, size, i)| - 1) * size < |xs| - i <= |BatchesFrom(xs, size, i)| * size
            || (i == |xs| && BatchesFrom(xs, size, i) == [])
    decreases |xs| - i
  {
    if i < |xs| {
      var k := |BatchesFrom(xs, size, i)|;
      if i + size >= |xs| {
        assert BatchesFrom(xs, size, i + size) == [];
        assert k == 1;
      } else {
        BatchCount(xs, size, i + size);
        var k' := |BatchesFrom(xs, size, i + size)|;
        assert k == k' + 1;
        assert (k - 1) * size == (k' - 1) * size + size;
        assert k * size == k' * size + size;
      }
    }
  }
}
