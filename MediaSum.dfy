/** `MediaSummaryProducerBase`: loads the per-shard media tables and
    artist-media tables, derives the artist key of every artist-media row,
    joins artist media with media once per artist-media name, and merges new
    summary columns into the saved summary tables. Shard files are a store
    from a file key and a shard number to the table the file holds, `None`
    when it holds no DataFrame; summary files are a store from a key to a
    summary table; every save is recorded. */
module MediaSum {
  import opened Values
  import opened Tables

  /** A media or artist-media table; its index labels are Python values. */
  type MediaTable = Frame<Cell>

  /** `rdio.getData(key, modVal)`. */
  type ShardStore = (string, int) -> Option<MediaTable>

  /** A summary table keyed by artist: one row per artist. */
  datatype KTable = KTable(cols: seq<string>, rows: map<ArtistID, Row>)

  /** `rdio.getData(key)` for a summary file. */
  type SummaryStore = string -> Option<KTable>

  /** `isinstance(x, int)`: Python's booleans are integers too. */
  function PyIntOf(c: Cell): (r: Option<int>)
    ensures r.Some? <==> c.CInt? || c.CBool?
  {
    match c
    case CInt(i) => Some(i)
    case CBool(b) => Some(if b then 1 else 0)
    case _ => None
  }

  /** `all(isinstance(value, DataFrame) for value in d.values())`. */
  predicate AllLoaded(d: seq<(string, Option<MediaTable>)>) {
    forall i :: 0 <= i < |d| ==> d[i].1.Some?
  }

  // =====================================================================
  // setMediaData
  // =====================================================================

  /** Shard `modVal` of a media table holds every requested column. */
  predicate ShardHasColumns(store: ShardStore, mediaName: string, cols: seq<string>, modVal: int) {
    store("ModVal" + mediaName, modVal).Some? &&
    forall c :: c in cols ==> c in store("ModVal" + mediaName, modVal).value.cols
  }

  /** `getMediaModValData`: the requested columns of one shard; an
      assertion fails when the shard holds no DataFrame or lacks a column. */
  function MediaShard(store: ShardStore, mediaName: string, cols: seq<string>, modVal: int): (r: Result<MediaTable>)
    ensures r.Ok? <==> ShardHasColumns(store, mediaName, cols, modVal)
    ensures r.Ok? ==> r.value.cols == cols
    ensures r.Err? ==> r.reason == "AssertionError"
  {
    var data := store("ModVal" + mediaName, modVal);
    if data.None? || !(forall c :: c in cols ==> c in data.value.cols) then Err("AssertionError")
    else Select(data.value, cols)
  }

  /** The list comprehension over the shards: the first failure is raised. */
  function MediaShards(store: ShardStore, mediaName: string, cols: seq<string>, modVals: seq<int>): Result<seq<MediaTable>>
    decreases |modVals|
  {
    if modVals == [] then Ok([])
    else
      var pre := MediaShards(store, mediaName, cols, modVals[..|modVals| - 1]);
      if pre.Err? then pre
      else
        var s := MediaShard(store, mediaName, cols, modVals[|modVals| - 1]);
        if s.Err? then Err(s.reason) else Ok(pre.value + [s.value])
  }

  /** `concat(frames)` of a non-empty list, left to right. */
  function ConcatAll(frames: seq<MediaTable>): MediaTable
    requires frames != []
    decreases |frames|
  {
    if |frames| == 1 then frames[0] else Concat(ConcatAll(frames[..|frames| - 1]), frames[|frames| - 1])
  }

  /** `concat` raises ValueError on an empty list. */
  function ConcatFrames(frames: seq<MediaTable>): (r: Result<MediaTable>)
    ensures r.Err? <==> frames == []
  {
    if frames == [] then Err("ValueError") else Ok(ConcatAll(frames))
  }

  /** The table `setMediaData` loads for one media name. */
  function LoadedMedia(store: ShardStore, mediaName: string, cols: seq<string>, modVals: seq<int>): Result<MediaTable> {
    var shards := MediaShards(store, mediaName, cols, modVals);
    if shards.Err? then Err(shards.reason) else ConcatFrames(shards.value)
  }

  /** A media table loads exactly when there is some shard and every shard
      holds every requested column; it then has exactly those columns, and
      its rows are those of the shards in shard order. */
  lemma {:induction false} MediaShardsFacts(store: ShardStore, mediaName: string, cols: seq<string>, modVals: seq<int>)
    ensures MediaShards(store, mediaName, cols, modVals).Ok? <==>
      forall i :: 0 <= i < |modVals| ==> ShardHasColumns(store, mediaName, cols, modVals[i])
    ensures MediaShards(store, mediaName, cols, modVals).Ok? ==>
      |MediaShards(store, mediaName, cols, modVals).value| == |modVals| &&
      forall i :: 0 <= i < |modVals| ==>
        MediaShards(store, mediaName, cols, modVals).value[i] == MediaShard(store, mediaName, cols, modVals[i]).value
    decreases |modVals|
  {
    if modVals != [] {
      var init := modVals[..|modVals| - 1];
      MediaShardsFacts(store, mediaName, cols, init);
      assert forall i :: 0 <= i < |init| ==> init[i] == modVals[i];
    }
  }

  /** `b` adds no column to `a` when all its columns are already there. */
  lemma {:induction false} NewColsOfKnown(a: seq<string>, b: seq<string>)
    requires forall c :: c in b ==> c in a
    ensures NewCols(a, b) == []
    decreases |b|
  {
    if b != [] {
      assert b[0] in b;
      NewColsOfKnown(a, b[1..]);
    }
  }

  lemma {:induction false} ConcatAllOfSame(frames: seq<MediaTable>, cols: seq<string>)
    requires frames != [] && forall i :: 0 <= i < |frames| ==> frames[i].cols == cols
    ensures ConcatAll(frames).cols == cols
    decreases |frames|
  {
    if |frames| > 1 {
      ConcatAllOfSame(frames[..|frames| - 1], cols);
      NewColsOfKnown(cols, cols);
    }
  }

  lemma LoadedMediaFacts(store: ShardStore, mediaName: string, cols: seq<string>, modVals: seq<int>)
    ensures LoadedMedia(store, mediaName, cols, modVals).Ok? <==>
      modVals != [] && forall i :: 0 <= i < |modVals| ==> ShardHasColumns(store, mediaName, cols, modVals[i])
    ensures LoadedMedia(store, mediaName, cols, modVals).Ok? ==> LoadedMedia(store, mediaName, cols, modVals).value.cols == cols
  {
    MediaShardsFacts(store, mediaName, cols, modVals);
    var shards := MediaShards(store, mediaName, cols, modVals);
    if shards.Ok? && modVals != [] {
      ConcatAllOfSame(shards.value, cols);
    }
  }

  /** The loop of `setMediaData` over the media names: the state of
      `mediaData` after it and the error raised, if any. */
  function LoadAllMedia(store: ShardStore, modVals: seq<int>, info: seq<(string, seq<string>)>,
                        data: seq<(string, Option<MediaTable>)>): (seq<(string, Option<MediaTable>)>, Option<string>)
    decreases |info|
  {
    if info == [] then (data, None)
    else
      var pre := LoadAllMedia(store, modVals, info[..|info| - 1], data);
      if pre.1.Some? then pre
      else
        var t := LoadedMedia(store, info[|info| - 1].0, info[|info| - 1].1, modVals);
        if t.Err? then (pre.0, Some(t.reason)) else (Put(pre.0, info[|info| - 1].0, Some(t.value)), None)
  }

  lemma LoadAllMediaStep(store: ShardStore, modVals: seq<int>, info: seq<(string, seq<string>)>,
                         data: seq<(string, Option<MediaTable>)>, i: nat)
    requires i < |info| && LoadAllMedia(store, modVals, info[..i], data).1.None?
    ensures var pre := LoadAllMedia(store, modVals, info[..i], data);
      var t := LoadedMedia(store, info[i].0, info[i].1, modVals);
      LoadAllMedia(store, modVals, info[..i + 1], data) ==
        if t.Err? then (pre.0, Some(t.reason)) else (Put(pre.0, info[i].0, Some(t.value)), None)
  {
    assert info[..i + 1][..i] == info[..i];
  }

  lemma {:induction false} LoadAllMediaErrPersists(store: ShardStore, modVals: seq<int>, info: seq<(string, seq<string>)>,
                                                   data: seq<(string, Option<MediaTable>)>, j: nat)
    requires j <= |info| && LoadAllMedia(store, modVals, info[..j], data).1.Some?
    ensures LoadAllMedia(store, modVals, info, data) == LoadAllMedia(store, modVals, info[..j], data)
    decreases |info| - j
  {
    if j < |info| {
      assert info[..j + 1][..j] == info[..j];
      LoadAllMediaErrPersists(store, modVals, info, data, j + 1);
    } else {
      assert info[..j] == info;
    }
  }

  /** The load keeps the dict's keys distinct and adds only listed names. */
  lemma {:induction false} LoadAllMediaKeys(store: ShardStore, modVals: seq<int>, info: seq<(string, seq<string>)>,
                                            data: seq<(string, Option<MediaTable>)>)
    requires UniqueKeys(data)
    ensures UniqueKeys(LoadAllMedia(store, modVals, info, data).0)
    ensures KeySet(data) <= KeySet(LoadAllMedia(store, modVals, info, data).0) <= KeySet(data) + KeySet(info)
    decreases |info|
  {
    if info != [] {
      var init := info[..|info| - 1];
      var name, cols := info[|info| - 1].0, info[|info| - 1].1;
      LoadAllMediaKeys(store, modVals, init, data);
      var pre := LoadAllMedia(store, modVals, init, data);
      assert KeySet(info) == KeySet(init) + {name} by {
        assert info == init + [(name, cols)];
      }
      if pre.1.None? {
        var t := LoadedMedia(store, name, cols, modVals);
        if t.Ok? {
          PutKeys(pre.0, name, Some(t.value));
        }
      }
    }
  }

  /** After a successful load every listed media name holds a table with
      exactly its requested columns, and no other entry changes. */
  lemma {:induction false} LoadAllMediaLoads(store: ShardStore, modVals: seq<int>, info: seq<(string, seq<string>)>,
                                             data: seq<(string, Option<MediaTable>)>)
    requires UniqueKeys(data)
    ensures LoadAllMedia(store, modVals, info, data).1.None? ==>
      var m := Latest(LoadAllMedia(store, modVals, info, data).0);
      (forall k :: k in Latest(info) ==> k in m && m[k].Some? && m[k].value.cols == Latest(info)[k]) &&
      (forall k :: k in Latest(data) && k !in Latest(info) ==> k in m && m[k] == Latest(data)[k])
    decreases |info|
  {
    if info != [] {
      var init := info[..|info| - 1];
      var name, cols := info[|info| - 1].0, info[|info| - 1].1;
      LoadAllMediaLoads(store, modVals, init, data);
      LoadAllMediaKeys(store, modVals, init, data);
      var pre := LoadAllMedia(store, modVals, init, data);
      assert Latest(info) == Latest(init)[name := cols];
      if pre.1.None? {
        var t := LoadedMedia(store, name, cols, modVals);
        if t.Ok? {
          LoadedMediaFacts(store, name, cols, modVals);
          PutLatest(pre.0, name, Some(t.value));
        }
      }
    }
  }

  /** Once every media name of a consistent producer has loaded, all its
      entries are tables, so a second `setMediaData` returns at once. */
  lemma LoadAllMediaCompletes(store: ShardStore, modVals: seq<int>, info: seq<(string, seq<string>)>,
                              data: seq<(string, Option<MediaTable>)>)
    requires UniqueKeys(data) && KeySet(data) == KeySet(info)
    requires LoadAllMedia(store, modVals, info, data).1.None?
    ensures AllLoaded(LoadAllMedia(store, modVals, info, data).0)
  {
    var out := LoadAllMedia(store, modVals, info, data).0;
    LoadAllMediaKeys(store, modVals, info, data);
    LoadAllMediaLoads(store, modVals, info, data);
    forall i | 0 <= i < |out| ensures out[i].1.Some? {
      assert out[i].0 in KeySet(out);
      LatestUnique(out, i);
    }
  }

  // =====================================================================
  // setArtistMediaData
  // =====================================================================

  /** `mediaID.split('-')[-1] if isinstance(mediaID, str) else None`. */
  function LastSegment(mediaID: Cell): Cell {
    if mediaID.CStr? then CStr(Split(mediaID.s, '-')[|Split(mediaID.s, '-')| - 1]) else CNone
  }

  /** `mediaID.split('-')[pos] if isinstance(mediaID, str) else None`;
      IndexError when the identifier has too few pieces. */
  function SegmentAt(mediaID: Cell, pos: int): Result<Cell> {
    if mediaID.CStr? then
      var p := PyIndex(Split(mediaID.s, '-'), pos);
      if p.None? then Err("IndexError") else Ok(CStr(p.value))
    else Ok(CNone)
  }

  /** The last piece of a split is the text after the last delimiter: a
      suffix without the delimiter, preceded by one or starting the string. */
  /** `p` is a tail of `s` free of `d`, preceded by `d` unless it is all of `s`. */
  predicate TailAfter(s: string, p: string, d: char) {
    d !in p && |p| <= |s| && s[|s| - |p|..] == p && (|p| == |s| || s[|s| - |p| - 1] == d)
  }

  lemma {:induction false} SplitLast(s: string, d: char)
    ensures TailAfter(s, Split(s, d)[|Split(s, d)| - 1], d)
  {
    if s != [] {
      var rest := Split(s[1..], d);
      SplitLast(s[1..], d);
      var q := rest[|rest| - 1];
      if s[0] != d && |rest| == 1 {
        SplitJoin(s[1..], d);
        assert Split(s, d) == [[s[0]] + q];
        assert [s[0]] + q == s;
      } else {
        assert Split(s, d)[|Split(s, d)| - 1] == q;
        if s[0] != d && |q| == |s| - 1 {
          assert q == s[1..];
          SplitWhole(s[1..], d);
        }
        TailStep(s, q, d);
      }
    }
  }

  /** A tail of `s[1..]` is one of `s` when it stops short of `s[0]` or
      `s[0]` is the delimiter. */
  lemma TailStep(s: string, q: string, d: char)
    requires s != [] && TailAfter(s[1..], q, d) && (|q| < |s| - 1 || s[0] == d)
    ensures TailAfter(s, q, d)
  {
    assert s[1..][|s| - 1 - |q|..] == s[|s| - |q|..];
    if |q| < |s| - 1 {
      assert s[1..][|s| - 1 - |q| - 1] == s[|s| - |q| - 1];
    }
  }

  /** A string without the delimiter splits into itself alone. */
  lemma {:induction false} SplitWhole(s: string, d: char)
    requires d !in s
    ensures |Split(s, d)| == 1
  {
    if s != [] {
      assert d !in s[1..] by {
        forall i | 0 <= i < |s| - 1 ensures s[1..][i] != d {
          assert s[1..][i] == s[i + 1];
        }
      }
      SplitWhole(s[1..], d);
    }
  }

  /** The index of an artist-media row is the part of its identifier after
      the last '-'; a row without a string identifier gets `None`. */
  lemma LastSegmentMeaning(mediaID: Cell)
    ensures mediaID.CStr? ==> LastSegment(mediaID).CStr?
    ensures mediaID.CStr? ==>
      var p := LastSegment(mediaID).s;
      '-' !in p && |p| <= |mediaID.s| && mediaID.s[|mediaID.s| - |p|..] == p &&
      (|p| == |mediaID.s| || mediaID.s[|mediaID.s| - |p| - 1] == '-')
    ensures !mediaID.CStr? ==> LastSegment(mediaID) == CNone
  {
    if mediaID.CStr? {
      SplitLast(mediaID.s, '-');
    }
  }

  /** The artist key is the piece at `pos` of the identifier split on '-':
      it holds no '-', and it exists exactly when `pos` is within the
      number of pieces, one more than the number of dashes. */
  lemma SegmentAtMeaning(mediaID: Cell, pos: int)
    ensures mediaID.CStr? ==>
      (SegmentAt(mediaID, pos).Ok? <==> -(Occurrences(mediaID.s, '-') + 1) <= pos < Occurrences(mediaID.s, '-') + 1)
    ensures mediaID.CStr? && SegmentAt(mediaID, pos).Ok? ==>
      SegmentAt(mediaID, pos).value.CStr? && '-' !in SegmentAt(mediaID, pos).value.s &&
      SegmentAt(mediaID, pos).value.s in Split(mediaID.s, '-')
    ensures !mediaID.CStr? ==> SegmentAt(mediaID, pos) == Ok(CNone)
  {
    if mediaID.CStr? {
      SplitJoin(mediaID.s, '-');
    }
  }

  /** `data.index = data['mediaID'].apply(...)`: each row is re-keyed by
      the last piece of its identifier. */
  function Reindex(f: MediaTable): (r: MediaTable)
    ensures r.cols == f.cols && |r.rows| == |f.rows|
    ensures forall i :: 0 <= i < |f.rows| ==> r.rows[i].1 == f.rows[i].1
  {
    Frame(f.cols, seq(|f.rows|, i requires 0 <= i < |f.rows| => (LastSegment(CellAt(f.rows[i].1, "mediaID")), f.rows[i].1)))
  }

  /** One artist-media shard: its requested columns, re-keyed when the
      artist key is a position. TypeError when the shard holds no
      DataFrame, KeyError when a column is missing. */
  function ArtistShard(store: ShardStore, pos: Cell, name: string, cols: seq<string>, modVal: int): Result<MediaTable> {
    var data := store("ModVal" + name, modVal);
    if data.None? then Err("TypeError")
    else
      var sel := Select(data.value, cols);
      if sel.Err? then Err("KeyError")
      else if PyIntOf(pos).Some? then
        if "mediaID" in cols then Ok(Reindex(sel.value)) else Err("KeyError")
      else Ok(sel.value)
  }

  /** The entry of one artist-media name over the shard loop: the table it
      holds, whether the loop assigned it, and the error raised, if any. */
  datatype Loaded = Loaded(table: Option<MediaTable>, written: bool, error: Option<string>)

  /** The shard loop of `setArtistMediaData`, from the entry's current
      value: each shard is appended to a loaded table, or becomes it. */
  function ArtistShards(shard: int -> Result<MediaTable>, modVals: seq<int>, init: Option<MediaTable>): Loaded
    decreases |modVals|
  {
    if modVals == [] then Loaded(init, false, None)
    else
      var pre := ArtistShards(shard, modVals[..|modVals| - 1], init);
      if pre.error.Some? then pre
      else
        var s := shard(modVals[|modVals| - 1]);
        if s.Err? then Loaded(pre.table, pre.written, Some(s.reason))
        else Loaded(Some(if pre.table.Some? then Concat(pre.table.value, s.value) else s.value), true, None)
  }

  /** The rows of the shards, in shard order. */
  function ShardRows(shard: int -> Result<MediaTable>, modVals: seq<int>): seq<(Cell, Row)>
    decreases |modVals|
  {
    if modVals == [] then []
    else
      var s := shard(modVals[|modVals| - 1]);
      ShardRows(shard, modVals[..|modVals| - 1]) + (if s.Ok? then s.value.rows else [])
  }

  /** The shard loop fails exactly when a shard does. */
  lemma {:induction false} ArtistShardsFails(shard: int -> Result<MediaTable>, modVals: seq<int>, init: Option<MediaTable>)
    ensures ArtistShards(shard, modVals, init).error.None? <==> forall i :: 0 <= i < |modVals| ==> shard(modVals[i]).Ok?
    decreases |modVals|
  {
    if modVals != [] {
      var init' := modVals[..|modVals| - 1];
      ArtistShardsFails(shard, init', init);
      assert forall i :: 0 <= i < |init'| ==> init'[i] == modVals[i];
    }
  }

  /** Otherwise the loop assigns the entry when there is a shard, and the
      table holds the rows it already held, then those of every shard in
      shard order. */
  lemma {:induction false} ArtistShardsRows(shard: int -> Result<MediaTable>, modVals: seq<int>, init: Option<MediaTable>)
    requires ArtistShards(shard, modVals, init).error.None?
    ensures var l := ArtistShards(shard, modVals, init);
      l.written == (modVals != []) && (l.table.None? <==> init.None? && modVals == [])
    ensures var l := ArtistShards(shard, modVals, init);
      l.table.Some? ==> l.table.value.rows == (if init.Some? then init.value.rows else []) + ShardRows(shard, modVals)
    decreases |modVals|
  {
    if modVals != [] {
      var init' := modVals[..|modVals| - 1];
      ArtistShardsRows(shard, init', init);
    }
  }

  /** The columns without `c`. */
  function Without(cols: seq<string>, c: string): (r: seq<string>)
    ensures forall x :: x in r <==> x in cols && x != c
    decreases |cols|
  {
    if cols == [] then []
    else Without(cols[..|cols| - 1], c) + (if cols[|cols| - 1] == c then [] else [cols[|cols| - 1]])
  }

  /** `df.rename(columns={src: dst})` on one row. */
  function RenameRow(row: Row, src: string, dst: string): (r: Row)
    ensures CellAt(r, dst) == CellAt(row, src)
    ensures src != dst ==> CellAt(r, src) == CNone
    ensures forall c :: c != src && c != dst ==> CellAt(r, c) == CellAt(row, c)
  {
    if src == dst then row
    else
      var base := row - {src, dst};
      if src in row then base[dst := row[src]] else base
  }

  function Rename(f: MediaTable, src: string, dst: string): (r: MediaTable)
    ensures |r.cols| == |f.cols| && |r.rows| == |f.rows|
  {
    Frame(seq(|f.cols|, i requires 0 <= i < |f.cols| => if f.cols[i] == src then dst else f.cols[i]),
          seq(|f.rows|, i requires 0 <= i < |f.rows| => (f.rows[i].0, RenameRow(f.rows[i].1, src, dst))))
  }

  /** `df.drop([c], axis=1)`. */
  function Drop(f: MediaTable, c: string): (r: MediaTable)
    ensures r.cols == Without(f.cols, c) && |r.rows| == |f.rows|
  {
    Frame(Without(f.cols, c), seq(|f.rows|, i requires 0 <= i < |f.rows| => (f.rows[i].0, f.rows[i].1 - {c})))
  }

  /** Every string identifier of the table has a piece at `pos`. */
  predicate HasSegments(f: MediaTable, pos: int) {
    forall i :: 0 <= i < |f.rows| ==> SegmentAt(CellAt(f.rows[i].1, "mediaID"), pos).Ok?
  }

  /** `df["ArtistID"] = df["mediaID"].apply(...)` with a positional key. */
  function WithArtistColumn(f: MediaTable, pos: int): MediaTable
    requires HasSegments(f, pos)
  {
    Frame(f.cols + (if "ArtistID" in f.cols then [] else ["ArtistID"]),
          seq(|f.rows|, i requires 0 <= i < |f.rows| =>
            (f.rows[i].0, f.rows[i].1["ArtistID" := SegmentAt(CellAt(f.rows[i].1, "mediaID"), pos).value])))
  }

  /** The artist key of a loaded table: taken from the identifier when the
      key is a position, renamed from the named column otherwise. */
  function ArtistIDStep(f: MediaTable, pos: Cell): Result<MediaTable> {
    if PyIntOf(pos).Some? then
      if "mediaID" !in f.cols then Err("KeyError")
      else if !HasSegments(f, PyIntOf(pos).value) then Err("IndexError")
      else Ok(WithArtistColumn(f, PyIntOf(pos).value))
    else if pos.CStr? then
      if pos.s !in f.cols then Err("AssertionError") else Ok(Rename(f, pos.s, "ArtistID"))
    else Ok(f)
  }

  /** The table after its artist key is set and `mediaID` is dropped. */
  function FinishArtistMedia(f: MediaTable, pos: Cell): Result<MediaTable> {
    var g := ArtistIDStep(f, pos);
    if g.Err? then g
    else if "mediaID" in g.value.cols then Ok(Drop(g.value, "mediaID"))
    else g
  }

  /** With a positional key every row gets as ArtistID the piece at that
      position of its identifier, and no `mediaID` column is left; the
      row keys stay as they were. */
  lemma PositionalArtistID(f: MediaTable, pos: Cell)
    requires PyIntOf(pos).Some? && FinishArtistMedia(f, pos).Ok?
    ensures var r := FinishArtistMedia(f, pos).value;
      "ArtistID" in r.cols && "mediaID" !in r.cols && |r.rows| == |f.rows| &&
      forall i :: 0 <= i < |f.rows| ==> (r.rows[i].0 == f.rows[i].0 &&
        SegmentAt(CellAt(f.rows[i].1, "mediaID"), PyIntOf(pos).value) == Ok(CellAt(r.rows[i].1, "ArtistID")))
  {
  }

  /** With a column name as key that column must exist; it becomes
      ArtistID, row by row, and no `mediaID` column is left. */
  lemma NamedArtistID(f: MediaTable, pos: Cell)
    requires pos.CStr? && pos.s != "mediaID"
    ensures FinishArtistMedia(f, pos).Ok? <==> pos.s in f.cols
    ensures FinishArtistMedia(f, pos).Ok? ==> var r := FinishArtistMedia(f, pos).value;
      "ArtistID" in r.cols && "mediaID" !in r.cols && |r.rows| == |f.rows| &&
      forall i :: 0 <= i < |f.rows| ==> (r.rows[i].0 == f.rows[i].0 &&
        CellAt(r.rows[i].1, "ArtistID") == CellAt(f.rows[i].1, pos.s))
  {
    if pos.s in f.cols {
      var g := Rename(f, pos.s, "ArtistID");
      var k :| 0 <= k < |f.cols| && f.cols[k] == pos.s;
      assert g.cols[k] == "ArtistID";
    }
  }

  /** The entry of one artist-media name after its shards, its artist key
      and the dropping of `mediaID`, and the error raised, if any. A name
      missing from the registry is first looked up after the first shard is
      read, so that shard's failure comes before the KeyError. */
  function ArtistMediaAfter(shard: int -> Result<MediaTable>, finish: MediaTable -> Result<MediaTable>, modVals: seq<int>,
                            name: string, data: seq<(string, Option<MediaTable>)>): (seq<(string, Option<MediaTable>)>, Option<string>)
  {
    if name !in KeySet(data) then
      (data, if modVals != [] && shard(modVals[0]).Err? then Some(shard(modVals[0]).reason) else Some("KeyError"))
    else
      var l := ArtistShards(shard, modVals, Latest(data)[name]);
      var d1 := if l.written then Put(data, name, l.table) else data;
      if l.error.Some? then (d1, l.error)
      else if l.table.None? then (d1, Some("AttributeError"))
      else
        var fin := finish(l.table.value);
        if fin.Err? then (d1, Some(fin.reason)) else (Put(d1, name, Some(fin.value)), None)
  }

  /** The loop of `setArtistMediaData` over the artist-media names. */
  function LoadAllArtistMedia(store: ShardStore, pos: Cell, modVals: seq<int>, info: seq<(string, seq<string>)>,
                              data: seq<(string, Option<MediaTable>)>): (seq<(string, Option<MediaTable>)>, Option<string>)
    decreases |info|
  {
    if info == [] then (data, None)
    else
      var pre := LoadAllArtistMedia(store, pos, modVals, info[..|info| - 1], data);
      if pre.1.Some? then pre
      else ArtistMediaAfter(ShardOf(store, pos, info[|info| - 1].0, info[|info| - 1].1), FinishOf(pos), modVals, info[|info| - 1].0, pre.0)
  }

  function ShardOf(store: ShardStore, pos: Cell, name: string, cols: seq<string>): int -> Result<MediaTable> {
    m => ArtistShard(store, pos, name, cols, m)
  }

  function FinishOf(pos: Cell): MediaTable -> Result<MediaTable> {
    f => FinishArtistMedia(f, pos)
  }

  lemma LoadAllArtistMediaStep(store: ShardStore, pos: Cell, modVals: seq<int>, info: seq<(string, seq<string>)>,
                               data: seq<(string, Option<MediaTable>)>, i: nat)
    requires i < |info| && LoadAllArtistMedia(store, pos, modVals, info[..i], data).1.None?
    ensures LoadAllArtistMedia(store, pos, modVals, info[..i + 1], data) ==
      ArtistMediaAfter(ShardOf(store, pos, info[i].0, info[i].1), FinishOf(pos), modVals, info[i].0,
                       LoadAllArtistMedia(store, pos, modVals, info[..i], data).0)
  {
    assert info[..i + 1][..i] == info[..i];
  }

  lemma {:induction false} LoadAllArtistMediaErrPersists(store: ShardStore, pos: Cell, modVals: seq<int>,
                                                         info: seq<(string, seq<string>)>,
                                                         data: seq<(string, Option<MediaTable>)>, j: nat)
    requires j <= |info| && LoadAllArtistMedia(store, pos, modVals, info[..j], data).1.Some?
    ensures LoadAllArtistMedia(store, pos, modVals, info, data) == LoadAllArtistMedia(store, pos, modVals, info[..j], data)
    decreases |info| - j
  {
    if j < |info| {
      assert info[..j + 1][..j] == info[..j];
      LoadAllArtistMediaErrPersists(store, pos, modVals, info, data, j + 1);
    } else {
      assert info[..j] == info;
    }
  }

  /** Loading one artist-media name keeps the dict's keys. */
  lemma ArtistMediaAfterKeys(shard: int -> Result<MediaTable>, finish: MediaTable -> Result<MediaTable>, modVals: seq<int>, name: string,
                             data: seq<(string, Option<MediaTable>)>)
    requires UniqueKeys(data)
    ensures UniqueKeys(ArtistMediaAfter(shard, finish, modVals, name, data).0)
    ensures KeySet(ArtistMediaAfter(shard, finish, modVals, name, data).0) == KeySet(data)
  {
    if name in KeySet(data) {
      var out := ArtistMediaAfter(shard, finish, modVals, name, data).0;
      var l := ArtistShards(shard, modVals, Latest(data)[name]);
      var d1 := if l.written then Put(data, name, l.table) else data;
      if l.written {
        PutKeys(data, name, l.table);
      }
      if l.error.None? && l.table.Some? && finish(l.table.value).Ok? {
        var fin := finish(l.table.value);
        assert out == Put(d1, name, Some(fin.value));
        PutKeys(d1, name, Some(fin.value));
      } else {
        assert out == d1;
      }
    }
  }

  /** A successful load of one artist-media name leaves it holding its
      finished table and changes no other entry. */
  lemma ArtistMediaAfterLoads(shard: int -> Result<MediaTable>, finish: MediaTable -> Result<MediaTable>, modVals: seq<int>, name: string,
                              data: seq<(string, Option<MediaTable>)>)
    requires UniqueKeys(data) && ArtistMediaAfter(shard, finish, modVals, name, data).1.None?
    ensures var m := Latest(ArtistMediaAfter(shard, finish, modVals, name, data).0);
      name in m && m[name].Some? && finish(ArtistShards(shard, modVals, Latest(data)[name]).table.value) == Ok(m[name].value) &&
      forall k :: k in Latest(data) && k != name ==> k in m && m[k] == Latest(data)[k]
  {
    assert name in KeySet(data);
    var l := ArtistShards(shard, modVals, Latest(data)[name]);
    assert l.error.None? && l.table.Some?;
    var d1 := if l.written then Put(data, name, l.table) else data;
    if l.written {
      PutOthers(data, name, l.table);
    }
    var fin := finish(l.table.value);
    assert fin.Ok?;
    assert ArtistMediaAfter(shard, finish, modVals, name, data).0 == Put(d1, name, Some(fin.value));
    PutOthers(d1, name, Some(fin.value));
  }

  /** A finished artist-media table has no `mediaID` column. */
  lemma FinishDropsMediaID(f: MediaTable, pos: Cell)
    requires FinishArtistMedia(f, pos).Ok?
    ensures "mediaID" !in FinishArtistMedia(f, pos).value.cols
  {
  }

  // =====================================================================
  // joinArtistMediaData
  // =====================================================================

  /** The name a right-hand column takes in `left.join(right, rsuffix=...)`:
      a name the left table already has gets the suffix. */
  function RightName(leftCols: seq<string>, c: string, rsuffix: string): string {
    if c in leftCols then c + rsuffix else c
  }

  function RightCols(leftCols: seq<string>, rightCols: seq<string>, rsuffix: string): (r: seq<string>)
    ensures |r| == |rightCols| && forall i :: 0 <= i < |rightCols| ==> r[i] == RightName(leftCols, rightCols[i], rsuffix)
  {
    seq(|rightCols|, i requires 0 <= i < |rightCols| => RightName(leftCols, rightCols[i], rsuffix))
  }

  /** The right-hand cells of a joined row, under their joined names. */
  function SuffixedRow(row: Row, leftCols: seq<string>, rightCols: seq<string>, rsuffix: string): Row
    decreases |rightCols|
  {
    if rightCols == [] then map[]
    else
      var c := rightCols[|rightCols| - 1];
      SuffixedRow(row, leftCols, rightCols[..|rightCols| - 1], rsuffix)[RightName(leftCols, c, rsuffix) := CellAt(row, c)]
  }

  /** The rows of the right table whose index label is `k`, in order. */
  function MatchesOf(rows: seq<(Cell, Row)>, k: Cell): (r: seq<Row>)
    ensures |r| <= |rows|
    decreases |rows|
  {
    if rows == [] then []
    else MatchesOf(rows[..|rows| - 1], k) + (if rows[|rows| - 1].0 == k then [rows[|rows| - 1].1] else [])
  }

  /** One left row joined: itself alone when the right table has no row
      under its label, else once per matching right row. The left cells
      take precedence over a right cell of the same joined name. */
  function JoinRow(left: (Cell, Row), right: MediaTable, leftCols: seq<string>, rsuffix: string): (r: seq<(Cell, Row)>)
    ensures |r| >= 1
  {
    var ms := MatchesOf(right.rows, left.0);
    if ms == [] then [left]
    else seq(|ms|, i requires 0 <= i < |ms| => (left.0, SuffixedRow(ms[i], leftCols, right.cols, rsuffix) + left.1))
  }

  function JoinRows(rows: seq<(Cell, Row)>, right: MediaTable, leftCols: seq<string>, rsuffix: string): seq<(Cell, Row)>
    decreases |rows|
  {
    if rows == [] then []
    else JoinRows(rows[..|rows| - 1], right, leftCols, rsuffix) + JoinRow(rows[|rows| - 1], right, leftCols, rsuffix)
  }

  /** `left.join(right, rsuffix=rsuffix)`, joining on the index. */
  function LeftJoin(left: MediaTable, right: MediaTable, rsuffix: string): MediaTable {
    Frame(left.cols + RightCols(left.cols, right.cols, rsuffix), JoinRows(left.rows, right, left.cols, rsuffix))
  }

  /** `reset_index(drop=True)`: rows are relabelled 0, 1, 2, ... */
  function ResetIndex(f: MediaTable): (r: MediaTable)
    ensures r.cols == f.cols && |r.rows| == |f.rows|
    ensures forall i :: 0 <= i < |f.rows| ==> r.rows[i] == (CInt(i), f.rows[i].1)
  {
    Frame(f.cols, seq(|f.rows|, i requires 0 <= i < |f.rows| => (CInt(i), f.rows[i].1)))
  }

  /** The joined table has every left column, and every right column under
      its own name or, when the left table has that name, with the suffix. */
  lemma LeftJoinColumns(left: MediaTable, right: MediaTable, rsuffix: string)
    ensures forall c :: c in left.cols ==> c in LeftJoin(left, right, rsuffix).cols
    ensures forall c :: c in right.cols && c in left.cols ==> c + rsuffix in LeftJoin(left, right, rsuffix).cols
    ensures forall c :: c in right.cols && c !in left.cols ==> c in LeftJoin(left, right, rsuffix).cols
  {
    var rc := RightCols(left.cols, right.cols, rsuffix);
    forall c | c in right.cols ensures RightName(left.cols, c, rsuffix) in LeftJoin(left, right, rsuffix).cols {
      var i :| 0 <= i < |right.cols| && right.cols[i] == c;
      assert rc[i] == RightName(left.cols, c, rsuffix);
    }
  }

  lemma {:induction false} MatchesOfUnique(rows: seq<(Cell, Row)>, k: Cell)
    requires UniqueKeys(rows)
    ensures k !in KeySet(rows) ==> MatchesOf(rows, k) == []
    ensures |MatchesOf(rows, k)| <= 1
    decreases |rows|
  {
    if rows != [] {
      var n := |rows| - 1;
      var init := rows[..n];
      assert UniqueKeys(init) by {
        forall a, b | 0 <= a < b < |init| ensures init[a].0 != init[b].0 {
          assert init[a] == rows[a] && init[b] == rows[b];
        }
      }
      MatchesOfUnique(init, k);
      if k !in KeySet(rows) {
        forall i | 0 <= i < |init| ensures init[i].0 != k {
          assert init[i] == rows[i];
        }
        assert rows[n].0 != k;
      }
      if rows[n].0 == k {
        forall i | 0 <= i < |init| ensures init[i].0 != k {
          assert init[i] == rows[i];
        }
        assert k !in KeySet(init);
      }
    }
  }

  /** `out` carries the label of `src` and every cell `src` has. */
  predicate KeepsRow(out: (Cell, Row), src: (Cell, Row)) {
    out.0 == src.0 && forall c :: c in src.1 ==> c in out.1 && out.1[c] == src.1[c]
  }

  /** A left row keeps its label and its own cells in every row it yields. */
  lemma JoinRowKeeps(left: (Cell, Row), right: MediaTable, leftCols: seq<string>, rsuffix: string)
    ensures forall j :: 0 <= j < |JoinRow(left, right, leftCols, rsuffix)| ==>
      KeepsRow(JoinRow(left, right, leftCols, rsuffix)[j], left)
  {
  }

  /** The join yields at least one row per artist-media row. */
  lemma {:induction false} JoinRowsLonger(rows: seq<(Cell, Row)>, right: MediaTable, leftCols: seq<string>, rsuffix: string)
    ensures |JoinRows(rows, right, leftCols, rsuffix)| >= |rows|
    decreases |rows|
  {
    if rows != [] {
      JoinRowsLonger(rows[..|rows| - 1], right, leftCols, rsuffix);
    }
  }

  /** When the media table has one row per label, the join keeps every
      artist-media row in place, with its label and cells. */
  lemma {:induction false} JoinRowsKeep(rows: seq<(Cell, Row)>, right: MediaTable, leftCols: seq<string>, rsuffix: string)
    requires UniqueKeys(right.rows)
    ensures |JoinRows(rows, right, leftCols, rsuffix)| == |rows|
    ensures forall i :: 0 <= i < |rows| ==> KeepsRow(JoinRows(rows, right, leftCols, rsuffix)[i], rows[i])
    decreases |rows|
  {
    if rows != [] {
      var init := rows[..|rows| - 1];
      var last := rows[|rows| - 1];
      JoinRowsKeep(init, right, leftCols, rsuffix);
      MatchesOfUnique(right.rows, last.0);
      var one := JoinRow(last, right, leftCols, rsuffix);
      assert |one| == 1;
      JoinRowKeeps(last, right, leftCols, rsuffix);
      assert KeepsRow(one[0], last);
      var front := JoinRows(init, right, leftCols, rsuffix);
      var out := JoinRows(rows, right, leftCols, rsuffix);
      assert out == front + one;
      forall i | 0 <= i < |rows| ensures KeepsRow(out[i], rows[i]) {
        if i < |init| {
          assert out[i] == front[i] && rows[i] == init[i];
        } else {
          assert out[i] == one[0] && rows[i] == last;
        }
      }
    }
  }

  /** The state `joinArtistMediaData` reads and writes. */
  datatype JoinState = JoinState(artistMediaData: seq<(string, Option<MediaTable>)>,
                                 mediaData: seq<(string, Option<MediaTable>)>,
                                 joinedStatus: seq<(string, bool)>)

  /** A table is loaded under `name`: `isinstance(d.get(name), DataFrame)`. */
  predicate HasTable(d: seq<(string, Option<MediaTable>)>, name: string) {
    name in Latest(d) && Latest(d)[name].Some?
  }

  /** `joinArtistMediaData(artistMediaName, mediaName)`: the outcome and the
      new state. A non-string media name does nothing; the assertions on the
      names and tables come before the `joinedStatus` guard. */
  function JoinStep(st: JoinState, artistMediaName: Cell, mediaName: Cell): (Result<()>, JoinState) {
    if !mediaName.CStr? then (Ok(()), st)
    else if !artistMediaName.CStr? then (Err("AssertionError"), st)
    else if !HasTable(st.artistMediaData, artistMediaName.s) || !HasTable(st.mediaData, mediaName.s) then
      (Err("AssertionError"), st)
    else if artistMediaName.s !in Latest(st.joinedStatus) then (Err("KeyError"), st)
    else if Latest(st.joinedStatus)[artistMediaName.s] then (Ok(()), st)
    else
      var joined := ResetIndex(LeftJoin(Latest(st.artistMediaData)[artistMediaName.s].value,
                                        Latest(st.mediaData)[mediaName.s].value, "Media"));
      (Ok(()), JoinState(Put(st.artistMediaData, artistMediaName.s, Some(joined)), st.mediaData,
                         Put(st.joinedStatus, artistMediaName.s, true)))
  }

  /** A join marks its artist-media name as joined, and from then on a call
      for that name changes nothing, whatever the media name: it returns at
      once, or fails an assertion when the media name has no table. */
  lemma JoinOnce(st: JoinState, artistMediaName: Cell, mediaName: Cell, laterMediaName: Cell)
    requires UniqueKeys(st.artistMediaData) && UniqueKeys(st.joinedStatus)
    requires JoinStep(st, artistMediaName, mediaName).0.Ok? && mediaName.CStr?
    ensures var after := JoinStep(st, artistMediaName, mediaName).1;
      artistMediaName.CStr? && artistMediaName.s in Latest(after.joinedStatus) && Latest(after.joinedStatus)[artistMediaName.s] &&
      JoinStep(after, artistMediaName, laterMediaName).1 == after &&
      (JoinStep(after, artistMediaName, laterMediaName).0.Ok? <==>
        !laterMediaName.CStr? || HasTable(after.mediaData, laterMediaName.s))
  {
    assert artistMediaName.CStr?;
    var a := artistMediaName.s;
    assert HasTable(st.artistMediaData, a) && HasTable(st.mediaData, mediaName.s) && a in Latest(st.joinedStatus);
    var after := JoinStep(st, artistMediaName, mediaName).1;
    if Latest(st.joinedStatus)[a] {
      assert after == st;
    } else {
      var joined := ResetIndex(LeftJoin(Latest(st.artistMediaData)[a].value, Latest(st.mediaData)[mediaName.s].value, "Media"));
      assert after == JoinState(Put(st.artistMediaData, a, Some(joined)), st.mediaData, Put(st.joinedStatus, a, true));
      PutOthers(st.artistMediaData, a, Some(joined));
      PutOthers(st.joinedStatus, a, true);
    }
    JoinedIsNoOp(after, artistMediaName, laterMediaName);
  }

  /** Once an artist-media name is marked joined, a call for it changes
      nothing and fails only when the media name has no table. */
  lemma JoinedIsNoOp(st: JoinState, artistMediaName: Cell, mediaName: Cell)
    requires artistMediaName.CStr? && HasTable(st.artistMediaData, artistMediaName.s)
    requires artistMediaName.s in Latest(st.joinedStatus) && Latest(st.joinedStatus)[artistMediaName.s]
    ensures JoinStep(st, artistMediaName, mediaName).1 == st
    ensures JoinStep(st, artistMediaName, mediaName).0.Ok? <==> !mediaName.CStr? || HasTable(st.mediaData, mediaName.s)
  {
  }

  /** A join replaces the artist-media table by its left join with the
      media table, relabelled from 0, keeping every artist-media row when
      the media table has one row per label. */
  lemma JoinKeepsArtistRows(st: JoinState, artistMediaName: Cell, mediaName: Cell)
    requires UniqueKeys(st.artistMediaData)
    requires mediaName.CStr? && artistMediaName.CStr? && HasTable(st.artistMediaData, artistMediaName.s) &&
      HasTable(st.mediaData, mediaName.s) && artistMediaName.s in Latest(st.joinedStatus) &&
      !Latest(st.joinedStatus)[artistMediaName.s]
    requires UniqueKeys(Latest(st.mediaData)[mediaName.s].value.rows)
    ensures var left := Latest(st.artistMediaData)[artistMediaName.s].value;
      var afterData := JoinStep(st, artistMediaName, mediaName).1.artistMediaData;
      HasTable(afterData, artistMediaName.s) &&
      var after := Latest(afterData)[artistMediaName.s];
      |after.value.rows| == |left.rows| &&
      forall i :: 0 <= i < |left.rows| ==> (after.value.rows[i].0 == CInt(i) &&
        forall c :: c in left.rows[i].1 ==> c in after.value.rows[i].1 && after.value.rows[i].1[c] == left.rows[i].1[c])
  {
    var a := artistMediaName.s;
    var left := Latest(st.artistMediaData)[a].value;
    var right := Latest(st.mediaData)[mediaName.s].value;
    var joined := ResetIndex(LeftJoin(left, right, "Media"));
    PutLatest(st.artistMediaData, a, Some(joined));
    assert JoinStep(st, artistMediaName, mediaName).1.artistMediaData == Put(st.artistMediaData, a, Some(joined));
    JoinRowsKeep(left.rows, right, left.cols, "Media");
  }

  // =====================================================================
  // joinSummaryData
  // =====================================================================

  /** The cells of a row in the given columns only. */
  function Restrict(row: Row, cols: seq<string>): (r: Row)
    ensures forall c :: CellAt(r, c) == if c in cols then CellAt(row, c) else CNone
  {
    map c | c in row && c in cols :: row[c]
  }

  /** The new data's cells for artist `k`, unset when it has no row. */
  function RowOf(data: KTable, k: ArtistID): (r: Row)
    ensures forall c :: CellAt(r, c) == if k in data.rows && c in data.cols then CellAt(data.rows[k], c) else CNone
  {
    if k in data.rows then Restrict(data.rows[k], data.cols) else map[]
  }

  /** The columns of `cols` that are not in `drop`, in order. */
  function Minus(cols: seq<string>, drop: seq<string>): (r: seq<string>)
    ensures forall c :: c in r <==> c in cols && c !in drop
    decreases |cols|
  {
    if cols == [] then []
    else Minus(cols[..|cols| - 1], drop) + (if cols[|cols| - 1] in drop then [] else [cols[|cols| - 1]])
  }

  /** A row's cells outside the given columns. */
  function Outside(row: Row, cols: seq<string>): (r: Row)
    ensures forall c :: CellAt(r, c) == if c in cols then CNone else CellAt(row, c)
  {
    map c | c in row && c !in cols :: row[c]
  }

  /** The summary table `joinSummaryData` builds. Without a saved table the
      SummaryNumAlbums table gives the rows: its column must not clash with
      the new data's and is dropped after the join. With a saved table its
      rows are kept, and the new data's columns replace the saved ones. */
  function RefreshSummary(existing: Option<KTable>, basic: Option<KTable>, data: KTable): Result<KTable> {
    if existing.None? then
      if basic.None? then Err("AttributeError")
      else if exists c :: c in data.cols && c in basic.value.cols then Err("ValueError")
      else if "NumAlbums" !in basic.value.cols then Err("KeyError")
      else
        var b := basic.value;
        Ok(KTable(Without(b.cols + data.cols, "NumAlbums"),
                  map k | k in b.rows :: Outside(Restrict(b.rows[k], b.cols), ["NumAlbums"]) + RowOf(data, k)))
    else
      var e := existing.value;
      Ok(KTable(Minus(e.cols, data.cols) + data.cols,
                map k | k in e.rows :: Outside(Restrict(e.rows[k], e.cols), data.cols) + RowOf(data, k)))
  }

  /** With no saved table the rows are exactly the artists of
      SummaryNumAlbums, NumAlbums is gone, and every new column holds the
      new data's value or nothing. */
  lemma RefreshCreates(basic: Option<KTable>, data: KTable)
    requires RefreshSummary(None, basic, data).Ok?
    ensures var r := RefreshSummary(None, basic, data).value;
      basic.Some? && "NumAlbums" in basic.value.cols && "NumAlbums" !in data.cols &&
      r.rows.Keys == basic.value.rows.Keys && "NumAlbums" !in r.cols &&
      (forall c :: c in data.cols ==> c in r.cols) &&
      forall k, c :: k in r.rows && c in data.cols ==> CellAt(r.rows[k], c) == CellAt(RowOf(data, k), c)
  {
    var r := RefreshSummary(None, basic, data).value;
    forall k, c | k in r.rows && c in data.cols ensures CellAt(r.rows[k], c) == CellAt(RowOf(data, k), c) {
      var row := Outside(Restrict(basic.value.rows[k], basic.value.cols), ["NumAlbums"]);
      assert r.rows[k] == row + RowOf(data, k);
      if c in RowOf(data, k) {
      } else {
        assert CellAt(Restrict(basic.value.rows[k], basic.value.cols), c) == CNone;
      }
    }
  }

  /** With a saved table its rows are kept; a column of the new data takes
      the new value, or nothing for an artist the new data lacks; every
      other saved column keeps its value. */
  lemma RefreshReplaces(existing: KTable, basic: Option<KTable>, data: KTable)
    ensures RefreshSummary(Some(existing), basic, data).Ok?
    ensures var r := RefreshSummary(Some(existing), basic, data).value;
      r.rows.Keys == existing.rows.Keys &&
      (forall c :: c in r.cols <==> c in existing.cols || c in data.cols) &&
      (forall k, c :: k in r.rows && c in data.cols ==>
        CellAt(r.rows[k], c) == if k in data.rows then CellAt(data.rows[k], c) else CNone) &&
      forall k, c :: k in r.rows && c in existing.cols && c !in data.cols ==> CellAt(r.rows[k], c) == CellAt(existing.rows[k], c)
  {
    var r := RefreshSummary(Some(existing), basic, data).value;
    forall k | k in r.rows
      ensures forall c :: CellAt(r.rows[k], c) == if c in data.cols then CellAt(RowOf(data, k), c)
        else if c in existing.cols then CellAt(existing.rows[k], c) else CNone
    {
      assert r.rows[k] == Outside(Restrict(existing.rows[k], existing.cols), data.cols) + RowOf(data, k);
      MergedCells(existing.rows[k], existing.cols, data, k);
    }
  }

  /** A saved row refreshed with the new data: the new data's columns from
      the new data, the other saved columns from the row. */
  lemma MergedCells(row: Row, cols: seq<string>, data: KTable, k: ArtistID)
    ensures forall c :: (CellAt(Outside(Restrict(row, cols), data.cols) + RowOf(data, k), c) ==
      if c in data.cols then CellAt(RowOf(data, k), c) else if c in cols then CellAt(row, c) else CNone)
  {
    var kept := Outside(Restrict(row, cols), data.cols);
    var add := RowOf(data, k);
    forall c ensures CellAt(kept + add, c) == if c in data.cols then CellAt(add, c) else if c in cols then CellAt(row, c) else CNone {
      if c !in add {
        assert CellAt(kept + add, c) == CellAt(kept, c);
      }
    }
  }

  // =====================================================================
  // Loops
  // =====================================================================

  lemma {:induction false} MediaShardsErrPersists(store: ShardStore, mediaName: string, cols: seq<string>, modVals: seq<int>, j: nat)
    requires j <= |modVals| && MediaShards(store, mediaName, cols, modVals[..j]).Err?
    ensures MediaShards(store, mediaName, cols, modVals) == MediaShards(store, mediaName, cols, modVals[..j])
    decreases |modVals| - j
  {
    if j < |modVals| {
      assert modVals[..j + 1][..j] == modVals[..j];
      MediaShardsErrPersists(store, mediaName, cols, modVals, j + 1);
    } else {
      assert modVals[..j] == modVals;
    }
  }

  /** `concat([getMediaModValData(mediaName, modVal, cols) for modVal in modVals])`. */
  method LoadMedia(store: ShardStore, mediaName: string, cols: seq<string>, modVals: seq<int>) returns (r: Result<MediaTable>)
    ensures r == LoadedMedia(store, mediaName, cols, modVals)
  {
    var frames: seq<MediaTable> := [];
    var i := 0;
    while i < |modVals|
      invariant 0 <= i <= |modVals|
      invariant MediaShards(store, mediaName, cols, modVals[..i]) == Ok(frames)
    {
      assert modVals[..i + 1][..i] == modVals[..i];
      var shard := MediaShard(store, mediaName, cols, modVals[i]);
      if shard.Err? {
        MediaShardsErrPersists(store, mediaName, cols, modVals, i + 1);
        return Err(shard.reason);
      }
      frames := frames + [shard.value];
      i := i + 1;
    }
    assert modVals[..i] == modVals;
    r := ConcatFrames(frames);
  }

  lemma {:induction false} ArtistShardsErrPersists(shard: int -> Result<MediaTable>, modVals: seq<int>, init: Option<MediaTable>, j: nat)
    requires j <= |modVals| && ArtistShards(shard, modVals[..j], init).error.Some?
    ensures ArtistShards(shard, modVals, init) == ArtistShards(shard, modVals[..j], init)
    decreases |modVals| - j
  {
    if j < |modVals| {
      assert modVals[..j + 1][..j] == modVals[..j];
      ArtistShardsErrPersists(shard, modVals, init, j + 1);
    } else {
      assert modVals[..j] == modVals;
    }
  }

  /** The shard loop of `setArtistMediaData` for one artist-media name,
      starting from the entry's current value. */
  method CollectArtistShards(store: ShardStore, pos: Cell, name: string, cols: seq<string>, modVals: seq<int>,
                             init: Option<MediaTable>) returns (l: Loaded)
    ensures l == ArtistShards(ShardOf(store, pos, name, cols), modVals, init)
  {
    ghost var shard := ShardOf(store, pos, name, cols);
    var table := init;
    var written := false;
    var i := 0;
    while i < |modVals|
      invariant 0 <= i <= |modVals|
      invariant ArtistShards(shard, modVals[..i], init) == Loaded(table, written, None)
    {
      assert modVals[..i + 1][..i] == modVals[..i];
      var s := ArtistShard(store, pos, name, cols, modVals[i]);
      assert shard(modVals[i]) == s;
      if s.Err? {
        ArtistShardsErrPersists(shard, modVals, init, i + 1);
        return Loaded(table, written, Some(s.reason));
      }
      table := Some(if table.Some? then Concat(table.value, s.value) else s.value);
      written := true;
      i := i + 1;
    }
    assert modVals[..i] == modVals;
    l := Loaded(table, written, None);
  }

  /** Loading the artist media keeps the dict's keys. */
  lemma {:induction false} LoadAllArtistMediaKeys(store: ShardStore, pos: Cell, modVals: seq<int>, info: seq<(string, seq<string>)>,
                                                  data: seq<(string, Option<MediaTable>)>)
    requires UniqueKeys(data)
    ensures UniqueKeys(LoadAllArtistMedia(store, pos, modVals, info, data).0)
    ensures KeySet(LoadAllArtistMedia(store, pos, modVals, info, data).0) == KeySet(data)
    decreases |info|
  {
    if info != [] {
      var init := info[..|info| - 1];
      LoadAllArtistMediaKeys(store, pos, modVals, init, data);
      var pre := LoadAllArtistMedia(store, pos, modVals, init, data);
      if pre.1.None? {
        var name, cols := info[|info| - 1].0, info[|info| - 1].1;
        ArtistMediaAfterKeys(ShardOf(store, pos, name, cols), FinishOf(pos), modVals, name, pre.0);
      }
    }
  }

  /** After a successful load every listed artist-media name holds a
      finished table. */
  lemma {:induction false} LoadAllArtistMediaLoads(store: ShardStore, pos: Cell, modVals: seq<int>, info: seq<(string, seq<string>)>,
                                                   data: seq<(string, Option<MediaTable>)>)
    requires UniqueKeys(data)
    ensures LoadAllArtistMedia(store, pos, modVals, info, data).1.None? ==>
      var m := Latest(LoadAllArtistMedia(store, pos, modVals, info, data).0);
      forall k :: k in Latest(info) ==> k in m && m[k].Some? && "mediaID" !in m[k].value.cols
    decreases |info|
  {
    if info != [] {
      var init := info[..|info| - 1];
      var name, cols := info[|info| - 1].0, info[|info| - 1].1;
      var pre := LoadAllArtistMedia(store, pos, modVals, init, data);
      var out := LoadAllArtistMedia(store, pos, modVals, info, data);
      if out.1.None? {
        assert pre.1.None?;
        LoadAllArtistMediaLoads(store, pos, modVals, init, data);
        LoadAllArtistMediaKeys(store, pos, modVals, init, data);
        var shard := ShardOf(store, pos, name, cols);
        assert out == ArtistMediaAfter(shard, FinishOf(pos), modVals, name, pre.0);
        ArtistMediaAfterLoads(shard, FinishOf(pos), modVals, name, pre.0);
        var t := ArtistShards(shard, modVals, Latest(pre.0)[name]).table.value;
        FinishDropsMediaID(t, pos);
        assert FinishOf(pos)(t) == FinishArtistMedia(t, pos);
        var m0, m := Latest(pre.0), Latest(out.0);
        assert Latest(info) == Latest(init)[name := cols];
        forall k | k in Latest(info) ensures k in m && m[k].Some? && "mediaID" !in m[k].value.cols {
          if k != name {
            assert k in Latest(init);
            assert m[k] == m0[k];
          }
        }
      }
    }
  }

  /** Once every artist-media name of a consistent producer has loaded, all
      its entries are tables, so a second `setArtistMediaData` returns at once. */
  lemma LoadAllArtistMediaCompletes(store: ShardStore, pos: Cell, modVals: seq<int>, info: seq<(string, seq<string>)>,
                                    data: seq<(string, Option<MediaTable>)>)
    requires UniqueKeys(data) && KeySet(data) == KeySet(info)
    requires LoadAllArtistMedia(store, pos, modVals, info, data).1.None?
    ensures AllLoaded(LoadAllArtistMedia(store, pos, modVals, info, data).0)
  {
    var out := LoadAllArtistMedia(store, pos, modVals, info, data).0;
    LoadAllArtistMediaKeys(store, pos, modVals, info, data);
    LoadAllArtistMediaLoads(store, pos, modVals, info, data);
    forall i | 0 <= i < |out| ensures out[i].1.Some? {
      assert out[i].0 in KeySet(out);
      LatestUnique(out, i);
    }
  }

  /** Every value of a fully loaded dict is a table. */
  lemma LoadedValues(d: seq<(string, Option<MediaTable>)>, name: string)
    requires AllLoaded(d) && name in Latest(d)
    ensures Latest(d)[name].Some?
  {
    LatestValue(d, name);
  }

  // =====================================================================
  // Whole calls of the load and join procedures
  // =====================================================================

  /** The shards `self.modVals` names, empty when unset. */
  function ShardsOrEmpty(modVals: Option<seq<int>>): seq<int> {
    if modVals.Some? then modVals.value else []
  }

  /** One call of `setMediaData`: the error raised, if any, and the media
      registry after it. `modVals` is None while `self.modVals` is unset,
      which fails at the first media name. */
  function MediaStep(store: ShardStore, modVals: Option<seq<int>>, info: seq<(string, seq<string>)>,
                     data: seq<(string, Option<MediaTable>)>): (Result<()>, seq<(string, Option<MediaTable>)>)
  {
    if AllLoaded(data) then (Ok(()), data)
    else if info != [] && modVals.None? then (Err("AttributeError"), data)
    else
      var run := LoadAllMedia(store, ShardsOrEmpty(modVals), info, data);
      (if run.1.Some? then Err(run.1.value) else Ok(()), run.0)
  }

  /** One call of `setArtistMediaData`, likewise. */
  function ArtistMediaStep(store: ShardStore, pos: Cell, modVals: Option<seq<int>>, info: seq<(string, seq<string>)>,
                           data: seq<(string, Option<MediaTable>)>): (Result<()>, seq<(string, Option<MediaTable>)>)
  {
    if !(PyIntOf(pos).Some? || pos.CStr?) then (Err("AssertionError"), data)
    else if AllLoaded(data) then (Ok(()), data)
    else if info != [] && modVals.None? then (Err("AttributeError"), data)
    else
      var run := LoadAllArtistMedia(store, pos, ShardsOrEmpty(modVals), info, data);
      (if run.1.Some? then Err(run.1.value) else Ok(()), run.0)
  }

  /** The three calls `getJoinedMediaData` starts with: load the media,
      load the artist media, then join. */
  function LoadJoinStep(store: ShardStore, pos: Cell, modVals: Option<seq<int>>, mediaInfo: seq<(string, seq<string>)>,
                        artistMediaInfo: seq<(string, seq<string>)>, st: JoinState, artistMediaName: string,
                        mediaName: Cell): (Result<()>, JoinState)
  {
    var m := MediaStep(store, modVals, mediaInfo, st.mediaData);
    if m.0.Err? then (m.0, JoinState(st.artistMediaData, m.1, st.joinedStatus))
    else
      var a := ArtistMediaStep(store, pos, modVals, artistMediaInfo, st.artistMediaData);
      if a.0.Err? then (a.0, JoinState(a.1, m.1, st.joinedStatus))
      else JoinStep(JoinState(a.1, m.1, st.joinedStatus), CStr(artistMediaName), mediaName)
  }

  /** One call of `getJoinedMediaData` with the column list `cols` already
      extended by ArtistID: load and join, then select the columns of the
      artist-media table. */
  function GetJoinedStep(store: ShardStore, pos: Cell, modVals: Option<seq<int>>, mediaInfo: seq<(string, seq<string>)>,
                         artistMediaInfo: seq<(string, seq<string>)>, st: JoinState, artistMediaName: string,
                         mediaName: Cell, cols: seq<string>): (Result<MediaTable>, JoinState)
  {
    var l := LoadJoinStep(store, pos, modVals, mediaInfo, artistMediaInfo, st, artistMediaName, mediaName);
    if l.0.Err? then (Err(l.0.reason), l.1)
    else if artistMediaName !in Latest(l.1.artistMediaData) then (Err("KeyError"), l.1)
    else if Latest(l.1.artistMediaData)[artistMediaName].None? then (Err("TypeError"), l.1)
    else (Select(Latest(l.1.artistMediaData)[artistMediaName].value, cols), l.1)
  }

  /** A successful `setMediaData` on a registry in step with its column
      lists leaves every entry loaded and the registry in step; when it had
      anything to load, every name holds a table with its registered
      columns. */
  lemma MediaStepLoads(store: ShardStore, modVals: Option<seq<int>>, info: seq<(string, seq<string>)>,
                       data: seq<(string, Option<MediaTable>)>)
    requires MediaInSync(info, data) && MediaStep(store, modVals, info, data).0.Ok?
    ensures var after := MediaStep(store, modVals, info, data).1;
      AllLoaded(after) && MediaInSync(info, after)
    ensures var after := Latest(MediaStep(store, modVals, info, data).1);
      !AllLoaded(data) ==> forall k :: k in Latest(info) ==> k in after && after[k].Some? && after[k].value.cols == Latest(info)[k]
  {
    if !AllLoaded(data) {
      var mv := ShardsOrEmpty(modVals);
      LoadAllMediaKeys(store, mv, info, data);
      LoadAllMediaCompletes(store, mv, info, data);
      LoadAllMediaLoads(store, mv, info, data);
    }
  }

  /** `setMediaData` keeps a registry in step, and a successful call leaves
      every entry loaded. */
  lemma MediaStepSync(store: ShardStore, modVals: Option<seq<int>>, info: seq<(string, seq<string>)>,
                      data: seq<(string, Option<MediaTable>)>)
    requires MediaInSync(info, data)
    ensures MediaInSync(info, MediaStep(store, modVals, info, data).1)
    ensures MediaStep(store, modVals, info, data).0.Ok? ==> AllLoaded(MediaStep(store, modVals, info, data).1)
  {
    if MediaStep(store, modVals, info, data).0.Ok? {
      MediaStepLoads(store, modVals, info, data);
    } else if !AllLoaded(data) && !(info != [] && modVals.None?) {
      LoadAllMediaKeys(store, ShardsOrEmpty(modVals), info, data);
    }
  }

  /** `setArtistMediaData` keeps a registry in step. */
  lemma ArtistMediaStepSync(store: ShardStore, pos: Cell, modVals: Option<seq<int>>, info: seq<(string, seq<string>)>,
                            data: seq<(string, Option<MediaTable>)>)
    requires UniqueKeys(data) && KeySet(data) == KeySet(info)
    ensures var after := ArtistMediaStep(store, pos, modVals, info, data);
      UniqueKeys(after.1) && KeySet(after.1) == KeySet(info) && (after.0.Ok? ==> AllLoaded(after.1))
  {
    if ArtistMediaStep(store, pos, modVals, info, data).0.Ok? {
      ArtistMediaStepLoads(store, pos, modVals, info, data);
    } else if (PyIntOf(pos).Some? || pos.CStr?) && !AllLoaded(data) && !(info != [] && modVals.None?) {
      LoadAllArtistMediaKeys(store, pos, ShardsOrEmpty(modVals), info, data);
    }
  }

  /** A successful `setArtistMediaData` on a registry in step leaves every
      entry loaded and the registry in step. */
  lemma ArtistMediaStepLoads(store: ShardStore, pos: Cell, modVals: Option<seq<int>>, info: seq<(string, seq<string>)>,
                             data: seq<(string, Option<MediaTable>)>)
    requires UniqueKeys(data) && KeySet(data) == KeySet(info) && ArtistMediaStep(store, pos, modVals, info, data).0.Ok?
    ensures var after := ArtistMediaStep(store, pos, modVals, info, data).1;
      AllLoaded(after) && UniqueKeys(after) && KeySet(after) == KeySet(info)
  {
    if !AllLoaded(data) {
      var mv := ShardsOrEmpty(modVals);
      LoadAllArtistMediaKeys(store, pos, mv, info, data);
      LoadAllArtistMediaCompletes(store, pos, mv, info, data);
    }
  }

  /** Writing a table keeps a dict fully loaded. */
  lemma PutLoaded(d: seq<(string, Option<MediaTable>)>, k: string, t: MediaTable)
    requires AllLoaded(d)
    ensures AllLoaded(Put(d, k, Some(t)))
  {
    if k !in KeySet(d) {
      assert forall i :: 0 <= i < |d| ==> Put(d, k, Some(t))[i] == d[i];
    }
  }

  /** On a consistent producer, a successful load and join with a media
      name marks the artist-media name joined, and doing it again changes
      nothing. */
  lemma LoadJoinRepeat(store: ShardStore, pos: Cell, modVals: Option<seq<int>>,
                       mediaInfo: seq<(string, seq<string>)>, artistMediaInfo: seq<(string, seq<string>)>,
                       st: JoinState, artistMediaName: string, mediaName: Cell)
    requires MediaInSync(mediaInfo, st.mediaData) && ArtistMediaInSync(artistMediaInfo, st.artistMediaData, st.joinedStatus)
    requires mediaName.CStr? && LoadJoinStep(store, pos, modVals, mediaInfo, artistMediaInfo, st, artistMediaName, mediaName).0.Ok?
    ensures var l := LoadJoinStep(store, pos, modVals, mediaInfo, artistMediaInfo, st, artistMediaName, mediaName);
      artistMediaName in Latest(l.1.joinedStatus) && Latest(l.1.joinedStatus)[artistMediaName] &&
      LoadJoinStep(store, pos, modVals, mediaInfo, artistMediaInfo, l.1, artistMediaName, mediaName) == (Ok(()), l.1)
  {
    var m := MediaStep(store, modVals, mediaInfo, st.mediaData);
    MediaStepLoads(store, modVals, mediaInfo, st.mediaData);
    var a := ArtistMediaStep(store, pos, modVals, artistMediaInfo, st.artistMediaData);
    ArtistMediaStepLoads(store, pos, modVals, artistMediaInfo, st.artistMediaData);
    var mid := JoinState(a.1, m.1, st.joinedStatus);
    JoinLoadedRepeat(mid, artistMediaName, mediaName);
    var j := JoinStep(mid, CStr(artistMediaName), mediaName);
    assert MediaStep(store, modVals, mediaInfo, j.1.mediaData) == (Ok(()), j.1.mediaData);
    assert ArtistMediaStep(store, pos, modVals, artistMediaInfo, j.1.artistMediaData) == (Ok(()), j.1.artistMediaData);
  }

  /** A successful join of loaded tables keeps them loaded, marks the name
      joined, and a second join changes nothing. */
  lemma JoinLoadedRepeat(mid: JoinState, artistMediaName: string, mediaName: Cell)
    requires AllLoaded(mid.artistMediaData) && UniqueKeys(mid.artistMediaData) && UniqueKeys(mid.joinedStatus)
    requires mediaName.CStr? && JoinStep(mid, CStr(artistMediaName), mediaName).0.Ok?
    ensures var j := JoinStep(mid, CStr(artistMediaName), mediaName).1;
      AllLoaded(j.artistMediaData) && j.mediaData == mid.mediaData &&
      artistMediaName in Latest(j.joinedStatus) && Latest(j.joinedStatus)[artistMediaName] &&
      JoinStep(j, CStr(artistMediaName), mediaName) == (Ok(()), j)
  {
    var am := CStr(artistMediaName);
    var j := JoinStep(mid, am, mediaName);
    JoinOnce(mid, am, mediaName, mediaName);
    if j.1.artistMediaData != mid.artistMediaData {
      PutLoaded(mid.artistMediaData, artistMediaName,
                ResetIndex(LeftJoin(Latest(mid.artistMediaData)[artistMediaName].value, Latest(mid.mediaData)[mediaName.s].value, "Media")));
    }
  }

  /** On a consistent producer, a successful `getJoinedMediaData` with a
      media name marks the artist-media name joined, and calling it again
      returns the same table and changes nothing. */
  lemma GetJoinedRepeat(store: ShardStore, pos: Cell, modVals: Option<seq<int>>,
                        mediaInfo: seq<(string, seq<string>)>, artistMediaInfo: seq<(string, seq<string>)>,
                        st: JoinState, artistMediaName: string, mediaName: Cell, cols: seq<string>)
    requires MediaInSync(mediaInfo, st.mediaData) && ArtistMediaInSync(artistMediaInfo, st.artistMediaData, st.joinedStatus)
    requires mediaName.CStr? && GetJoinedStep(store, pos, modVals, mediaInfo, artistMediaInfo, st, artistMediaName, mediaName, cols).0.Ok?
    ensures var s := GetJoinedStep(store, pos, modVals, mediaInfo, artistMediaInfo, st, artistMediaName, mediaName, cols);
      artistMediaName in Latest(s.1.joinedStatus) && Latest(s.1.joinedStatus)[artistMediaName] &&
      GetJoinedStep(store, pos, modVals, mediaInfo, artistMediaInfo, s.1, artistMediaName, mediaName, cols) == s
  {
    LoadJoinRepeat(store, pos, modVals, mediaInfo, artistMediaInfo, st, artistMediaName, mediaName);
  }

  // =====================================================================
  // The producer
  // =====================================================================

  /** Every registered media name has exactly one data entry. */
  ghost predicate MediaInSync(info: seq<(string, seq<string>)>, data: seq<(string, Option<MediaTable>)>) {
    UniqueKeys(info) && UniqueKeys(data) && KeySet(data) == KeySet(info)
  }

  /** Every registered artist-media name has one data entry and one join status. */
  ghost predicate ArtistMediaInSync(info: seq<(string, seq<string>)>, data: seq<(string, Option<MediaTable>)>,
                                    joined: seq<(string, bool)>) {
    UniqueKeys(info) && UniqueKeys(data) && KeySet(data) == KeySet(info) && UniqueKeys(joined) && KeySet(joined) == KeySet(info)
  }

  /** Writing a joined table and its status under a registered name keeps
      the artist-media entries in step with the registry. */
  lemma JoinKeepsSync(info: seq<(string, seq<string>)>, data: seq<(string, Option<MediaTable>)>,
                      joined: seq<(string, bool)>, a: string, t: Option<MediaTable>)
    requires ArtistMediaInSync(info, data, joined) && a in Latest(data)
    ensures ArtistMediaInSync(info, Put(data, a, t), Put(joined, a, true))
  {
    PutKeys(data, a, t);
    PutKeys(joined, a, true);
  }

  /** A Python list of column names, which `getJoinedMediaData` may extend. */
  class ColumnList {
    var items: seq<string>

    constructor(items: seq<string>)
      ensures this.items == items
    {
      this.items := items;
    }
  }

  /** `MediaSummaryProducerBase`. `test` and `modVals` are unset until `make`
      or `setModVals` assign them; the procedures `make` runs are
      subclass code and are given by name. */
  class MediaSummaryProducer {
    const store: ShardStore
    const summaries: SummaryStore
    const procs: seq<string>
    var verbose: bool
    var test: Option<bool>
    var modVals: Option<seq<int>>
    var mediaInfo: seq<(string, seq<string>)>
    var mediaData: seq<(string, Option<MediaTable>)>
    var artistIDPos: Cell
    var artistMediaInfo: seq<(string, seq<string>)>
    var artistMediaData: seq<(string, Option<MediaTable>)>
    var joinedStatus: seq<(string, bool)>
    /** Every `saveData` call, in order. */
    var saves: seq<(string, KTable)>

    /** The dicts the producer keeps in step: every registered name has one
        data entry, and each artist-media name one join status. */
    ghost predicate Valid()
      reads this
    {
      MediaInSync(mediaInfo, mediaData) && ArtistMediaInSync(artistMediaInfo, artistMediaData, joinedStatus)
    }

    constructor(store: ShardStore, summaries: SummaryStore, procs: seq<string>, verbose: Option<bool>)
      ensures this.store == store && this.summaries == summaries && this.procs == procs
      ensures this.verbose == (verbose.Some? && verbose.value)
      ensures test.None? && modVals.None? && artistIDPos == CNone && saves == []
      ensures mediaInfo == [] && mediaData == [] && artistMediaInfo == [] && artistMediaData == [] && joinedStatus == []
      ensures Valid()
    {
      this.store := store;
      this.summaries := summaries;
      this.procs := procs;
      this.verbose := verbose.Some? && verbose.value;
      test := None;
      modVals := None;
      mediaInfo := [];
      mediaData := [];
      artistIDPos := CNone;
      artistMediaInfo := [];
      artistMediaData := [];
      joinedStatus := [];
      saves := [];
    }

    /** `make(key, test=..., verbose=...)`: records the options, takes every
        shard or only shard 0 when testing, and runs the procedure named
        by `key`, or every procedure when none has that name. */
    method Make(key: Cell, testArg: bool, verboseArg: Option<bool>, allModVals: seq<int>) returns (run: seq<string>)
      modifies this`verbose, this`test, this`modVals
      ensures verbose == (verboseArg.None? || verboseArg.value)
      ensures test == Some(testArg) && modVals == Some(if testArg then [0] else allModVals)
      ensures key.CStr? && key.s in procs ==> run == [key.s]
      ensures !(key.CStr? && key.s in procs) ==> run == procs
    {
      verbose := verboseArg.None? || verboseArg.value;
      test := Some(testArg);
      modVals := Some(if testArg then [0] else allModVals);
      if key.CStr? && key.s in procs {
        run := [key.s];
      } else {
        run := procs;
      }
    }

    method SetModVals(values: seq<int>)
      modifies this`modVals
      ensures modVals == Some(values)
    {
      modVals := Some(values);
    }

    /** `addMediaInfo`: registers the columns of a media table and marks it
        not loaded. */
    method AddMediaInfo(mediaName: string, cols: seq<string>)
      modifies this`mediaInfo, this`mediaData
      ensures mediaInfo == Put(old(mediaInfo), mediaName, cols)
      ensures mediaData == Put(old(mediaData), mediaName, None)
      ensures old(Valid()) ==> Valid()
    {
      if Valid() {
        PutKeys(mediaInfo, mediaName, cols);
        PutKeys(mediaData, mediaName, None);
      }
      mediaInfo := Put(mediaInfo, mediaName, cols);
      mediaData := Put(mediaData, mediaName, None);
    }

    /** `addArtistMediaInfo`: likewise, and marks it not joined. */
    method AddArtistMediaInfo(artistMediaName: string, cols: seq<string>)
      modifies this`artistMediaInfo, this`artistMediaData, this`joinedStatus
      ensures artistMediaInfo == Put(old(artistMediaInfo), artistMediaName, cols)
      ensures artistMediaData == Put(old(artistMediaData), artistMediaName, None)
      ensures joinedStatus == Put(old(joinedStatus), artistMediaName, false)
      ensures old(Valid()) ==> Valid()
    {
      if Valid() {
        PutKeys(artistMediaInfo, artistMediaName, cols);
        PutKeys(artistMediaData, artistMediaName, None);
        PutKeys(joinedStatus, artistMediaName, false);
      }
      artistMediaInfo := Put(artistMediaInfo, artistMediaName, cols);
      artistMediaData := Put(artistMediaData, artistMediaName, None);
      joinedStatus := Put(joinedStatus, artistMediaName, false);
    }

    /** `setArtistIDPos`: the position must be a Python int. */
    method SetArtistIDPos(pos: Cell) returns (r: Result<()>)
      modifies this`artistIDPos
      ensures r.Ok? <==> PyIntOf(pos).Some?
      ensures r.Err? ==> r.reason == "AssertionError" && artistIDPos == old(artistIDPos)
      ensures r.Ok? ==> artistIDPos == pos
    {
      if PyIntOf(pos).None? {
        return Err("AssertionError");
      }
      artistIDPos := pos;
      r := Ok(());
    }

    /** `setMediaData`: nothing to do when every entry is loaded; otherwise
        every media name is loaded in turn, and the first failure is raised
        with the earlier names already loaded. `self.modVals` is read only
        inside the loop. A successful load of a consistent producer leaves
        every entry loaded. */
    method SetMediaData() returns (r: Result<()>)
      modifies this`mediaData
      ensures (r, mediaData) == MediaStep(store, modVals, mediaInfo, old(mediaData))
      ensures old(Valid()) ==> Valid()
      ensures old(Valid()) && r.Ok? ==> AllLoaded(mediaData)
    {
      ghost var data0 := mediaData;
      ghost var spec := MediaStep(store, modVals, mediaInfo, data0);
      if Valid() {
        MediaStepSync(store, modVals, mediaInfo, data0);
      }
      if AllLoaded(mediaData) {
        assert spec == (Ok(()), data0);
        return Ok(());
      }
      if mediaInfo != [] && modVals.None? {
        assert spec == (Err("AttributeError"), data0);
        return Err("AttributeError");
      }
      var mv := ShardsOrEmpty(modVals);
      var i := 0;
      while i < |mediaInfo|
        invariant 0 <= i <= |mediaInfo|
        invariant LoadAllMedia(store, mv, mediaInfo[..i], data0) == (mediaData, None)
      {
        LoadAllMediaStep(store, mv, mediaInfo, data0, i);
        var t := LoadMedia(store, mediaInfo[i].0, mediaInfo[i].1, mv);
        if t.Err? {
          LoadAllMediaErrPersists(store, mv, mediaInfo, data0, i + 1);
          r := Err(t.reason);
          break;
        }
        mediaData := Put(mediaData, mediaInfo[i].0, Some(t.value));
        i := i + 1;
      }
      if i == |mediaInfo| {
        assert mediaInfo[..i] == mediaInfo;
        r := Ok(());
      }
      assert spec == (r, mediaData);
    }

    /** Loads one artist-media name: its shards, then its artist key and
        the dropping of `mediaID`. */
    method LoadArtistMedia(name: string, cols: seq<string>, mv: seq<int>) returns (err: Option<string>)
      modifies this`artistMediaData
      ensures (artistMediaData, err) ==
        ArtistMediaAfter(ShardOf(store, artistIDPos, name, cols), FinishOf(artistIDPos), mv, name, old(artistMediaData))
    {
      if name !in KeySet(artistMediaData) {
        if mv != [] {
          var first := ArtistShard(store, artistIDPos, name, cols, mv[0]);
          assert ShardOf(store, artistIDPos, name, cols)(mv[0]) == first;
          if first.Err? {
            return Some(first.reason);
          }
        }
        return Some("KeyError");
      }
      var l := CollectArtistShards(store, artistIDPos, name, cols, mv, Latest(artistMediaData)[name]);
      if l.written {
        artistMediaData := Put(artistMediaData, name, l.table);
      }
      if l.error.Some? {
        return l.error;
      }
      if l.table.None? {
        return Some("AttributeError");
      }
      var fin := FinishArtistMedia(l.table.value, artistIDPos);
      assert FinishOf(artistIDPos)(l.table.value) == fin;
      if fin.Err? {
        return Some(fin.reason);
      }
      artistMediaData := Put(artistMediaData, name, Some(fin.value));
      err := None;
    }

    /** `setArtistMediaData`: the artist key must be a position or a column
        name; nothing to do when every entry is loaded; otherwise every
        artist-media name is loaded in turn and the first failure raised. */
    method SetArtistMediaData() returns (r: Result<()>)
      modifies this`artistMediaData
      ensures (r, artistMediaData) == ArtistMediaStep(store, artistIDPos, modVals, artistMediaInfo, old(artistMediaData))
      ensures old(Valid()) ==> Valid()
      ensures old(Valid()) && r.Ok? ==> AllLoaded(artistMediaData)
    {
      ghost var data0 := artistMediaData;
      ghost var spec := ArtistMediaStep(store, artistIDPos, modVals, artistMediaInfo, data0);
      if Valid() {
        ArtistMediaStepSync(store, artistIDPos, modVals, artistMediaInfo, data0);
      }
      if !(PyIntOf(artistIDPos).Some? || artistIDPos.CStr?) {
        assert spec == (Err("AssertionError"), data0);
        return Err("AssertionError");
      }
      if AllLoaded(artistMediaData) {
        assert spec == (Ok(()), data0);
        return Ok(());
      }
      if artistMediaInfo != [] && modVals.None? {
        assert spec == (Err("AttributeError"), data0);
        return Err("AttributeError");
      }
      var mv := ShardsOrEmpty(modVals);
      var i := 0;
      while i < |artistMediaInfo|
        invariant 0 <= i <= |artistMediaInfo|
        invariant LoadAllArtistMedia(store, artistIDPos, mv, artistMediaInfo[..i], data0) == (artistMediaData, None)
      {
        LoadAllArtistMediaStep(store, artistIDPos, mv, artistMediaInfo, data0, i);
        var err := LoadArtistMedia(artistMediaInfo[i].0, artistMediaInfo[i].1, mv);
        if err.Some? {
          LoadAllArtistMediaErrPersists(store, artistIDPos, mv, artistMediaInfo, data0, i + 1);
          r := Err(err.value);
          break;
        }
        i := i + 1;
      }
      if i == |artistMediaInfo| {
        assert artistMediaInfo[..i] == artistMediaInfo;
        r := Ok(());
      }
      assert spec == (r, artistMediaData);
    }

    /** `joinArtistMediaData`: joins the media table into the artist-media
        table once per artist-media name. */
    method JoinArtistMediaData(artistMediaName: Cell, mediaName: Cell) returns (r: Result<()>)
      modifies this`artistMediaData, this`joinedStatus
      ensures (r, JoinState(artistMediaData, mediaData, joinedStatus)) ==
        JoinStep(JoinState(old(artistMediaData), mediaData, old(joinedStatus)), artistMediaName, mediaName)
      ensures old(Valid()) ==> Valid()
    {
      ghost var st := JoinState(artistMediaData, mediaData, joinedStatus);
      ghost var step := JoinStep(st, artistMediaName, mediaName);
      if !mediaName.CStr? {
        assert step == (Ok(()), st);
        return Ok(());
      }
      if !artistMediaName.CStr? {
        assert step == (Err("AssertionError"), st);
        return Err("AssertionError");
      }
      var a, m := artistMediaName.s, mediaName.s;
      if !HasTable(artistMediaData, a) || !HasTable(mediaData, m) {
        assert step == (Err("AssertionError"), st);
        return Err("AssertionError");
      }
      if a !in Latest(joinedStatus) {
        assert step == (Err("KeyError"), st);
        return Err("KeyError");
      }
      if Latest(joinedStatus)[a] {
        assert step == (Ok(()), st);
        return Ok(());
      }
      var joined := ResetIndex(LeftJoin(Latest(artistMediaData)[a].value, Latest(mediaData)[m].value, "Media"));
      if Valid() {
        JoinKeepsSync(artistMediaInfo, artistMediaData, joinedStatus, a, Some(joined));
      }
      artistMediaData := Put(artistMediaData, a, Some(joined));
      joinedStatus := Put(joinedStatus, a, true);
      r := Ok(());
      assert step == (r, JoinState(artistMediaData, mediaData, joinedStatus));
    }

    /** `setMediaData`, `setArtistMediaData` and `joinArtistMediaData`, as
        `getJoinedMediaData` calls them. */
    method LoadAndJoin(artistMediaName: string, mediaName: Cell) returns (r: Result<()>)
      modifies this`mediaData, this`artistMediaData, this`joinedStatus
      ensures (r, JoinState(artistMediaData, mediaData, joinedStatus)) ==
        LoadJoinStep(store, artistIDPos, modVals, mediaInfo, artistMediaInfo,
                     JoinState(old(artistMediaData), old(mediaData), old(joinedStatus)), artistMediaName, mediaName)
      ensures old(Valid()) ==> Valid()
    {
      ghost var st := JoinState(artistMediaData, mediaData, joinedStatus);
      ghost var spec := LoadJoinStep(store, artistIDPos, modVals, mediaInfo, artistMediaInfo, st, artistMediaName, mediaName);
      ghost var m := MediaStep(store, modVals, mediaInfo, st.mediaData);
      r := SetMediaData();
      if r.Err? {
        assert spec == (m.0, JoinState(st.artistMediaData, m.1, st.joinedStatus));
        return;
      }
      ghost var a := ArtistMediaStep(store, artistIDPos, modVals, artistMediaInfo, st.artistMediaData);
      r := SetArtistMediaData();
      if r.Err? {
        assert spec == (a.0, JoinState(a.1, m.1, st.joinedStatus));
        return;
      }
      r := JoinArtistMediaData(CStr(artistMediaName), mediaName);
    }

    /** `getJoinedMediaData`: puts ArtistID first in the caller's column list
        when it is missing, loads and joins, and selects those columns of
        the joined table. */
    method GetJoinedMediaData(artistMediaName: string, mediaName: Cell, colNames: ColumnList) returns (r: Result<MediaTable>)
      modifies this`mediaData, this`artistMediaData, this`joinedStatus, colNames
      ensures colNames.items ==
        if "ArtistID" in old(colNames.items) then old(colNames.items) else ["ArtistID"] + old(colNames.items)
      ensures (r, JoinState(artistMediaData, mediaData, joinedStatus)) ==
        GetJoinedStep(store, artistIDPos, modVals, mediaInfo, artistMediaInfo,
                      JoinState(old(artistMediaData), old(mediaData), old(joinedStatus)), artistMediaName, mediaName, colNames.items)
      ensures !mediaName.CStr? ==> joinedStatus == old(joinedStatus)
      ensures r.Ok? ==> r.value.cols == colNames.items && "ArtistID" in r.value.cols
      ensures old(Valid()) ==> Valid()
    {
      if "ArtistID" !in colNames.items {
        colNames.items := ["ArtistID"] + colNames.items;
      }
      var loaded := LoadAndJoin(artistMediaName, mediaName);
      if loaded.Err? {
        return Err(loaded.reason);
      }
      if artistMediaName !in Latest(artistMediaData) {
        return Err("KeyError");
      }
      var table := Latest(artistMediaData)[artistMediaName];
      if table.None? {
        return Err("TypeError");
      }
      r := Select(table.value, colNames.items);
    }

    /** `getMediaData`: loads, then looks the media table up. A consistent
        producer that loads gives a table for every registered name. */
    method GetMediaData(mediaName: string) returns (r: Result<Option<MediaTable>>)
      modifies this`mediaData
      ensures var s := MediaStep(store, modVals, mediaInfo, old(mediaData));
        mediaData == s.1 &&
        r == if s.0.Err? then Err(s.0.reason) else if mediaName in Latest(s.1) then Ok(Latest(s.1)[mediaName]) else Err("KeyError")
      ensures old(Valid()) ==> Valid()
      ensures old(Valid()) && r.Ok? ==> r.value.Some?
      ensures old(Valid()) && !AllLoaded(old(mediaData)) && r.Ok? ==> r.value.value.cols == Latest(mediaInfo)[mediaName]
    {
      ghost var valid := Valid();
      ghost var data0 := mediaData;
      var loaded := SetMediaData();
      if loaded.Err? {
        return Err(loaded.reason);
      }
      if mediaName !in Latest(mediaData) {
        return Err("KeyError");
      }
      r := Ok(Latest(mediaData)[mediaName]);
      if valid {
        LoadedValues(mediaData, mediaName);
        if !AllLoaded(data0) {
          MediaStepLoads(store, modVals, mediaInfo, data0);
        }
      }
    }

    /** `joinSummaryData(summaryType, summaryData, saveit)`: the refreshed
        summary table is saved, or returned when `saveit` is false; nothing
        is saved or returned when testing. */
    method JoinSummaryData(summaryType: string, data: KTable, saveit: bool) returns (r: Result<Option<KTable>>)
      modifies this`saves
      ensures var t := RefreshSummary(summaries("Summary" + summaryType), summaries("SummaryNumAlbums"), data);
        if t.Err? then r == Err(t.reason) && saves == old(saves)
        else if test.None? then r == Err("AttributeError") && saves == old(saves)
        else if test.value then r == Ok(None) && saves == old(saves)
        else if saveit then r == Ok(None) && saves == old(saves) + [("Summary" + summaryType, t.value)]
        else r == Ok(Some(t.value)) && saves == old(saves)
    {
      var t := RefreshSummary(summaries("Summary" + summaryType), summaries("SummaryNumAlbums"), data);
      if t.Err? {
        return Err(t.reason);
      }
      if test.None? {
        return Err("AttributeError");
      }
      if test.value {
        return Ok(None);
      }
      if saveit {
        saves := saves + [("Summary" + summaryType, t.value)];
        return Ok(None);
      }
      r := Ok(Some(t.value));
    }
  }
}
