/** `SummaryProducerIO`: folds the per-shard meta tables of one database
    into its summary tables. The shard store is a function from a meta type
    and a shard number to the table that shard file holds, `None` when the
    file does not exist or holds no DataFrame; every save is recorded. */
module Summary {
  import opened Values
  import opened Tables

  // =====================================================================
  // Handlers and the dispatch table
  // =====================================================================

  /** The `make{Type}SummaryData` methods of the class. */
  datatype Handler = HBasic | HMedia | HGenre | HLink | HBio | HDates | HMetric

  /** Every attribute of `SummaryProducerIO` that is a method, its own and
      the ones it inherits from `SummaryProducerBase`. */
  const ClassMethods: set<string> := {
    "__repr__", "__init__", "isUpdateModVal", "getSummaryTypes", "make",
    "makeBasicSummaryData", "makeMediaSummaryData", "makeGenreSummaryData",
    "makeLinkSummaryData", "makeBioSummaryData", "makeDatesSummaryData",
    "makeMetricSummaryData"
  }

  /** `"make{0}SummaryData".format(summaryType)`. */
  function MethodName(summaryType: string): string {
    "make" + summaryType + "SummaryData"
  }

  /** The bound method `eval("self." + MethodName(summaryType))` names. */
  function HandlerFor(summaryType: string): Option<Handler> {
    if summaryType == "Basic" then Some(HBasic)
    else if summaryType == "Media" then Some(HMedia)
    else if summaryType == "Genre" then Some(HGenre)
    else if summaryType == "Link" then Some(HLink)
    else if summaryType == "Bio" then Some(HBio)
    else if summaryType == "Dates" then Some(HDates)
    else if summaryType == "Metric" then Some(HMetric)
    else None
  }

  /** One summary type per `make` method name. */
  lemma MethodNameInjective(t: string, u: string)
    requires MethodName(t) == MethodName(u)
    ensures t == u
  {
    assert |t| == |u|;
    assert MethodName(t)[4..|t| + 4] == t;
    assert MethodName(u)[4..|u| + 4] == u;
  }

  lemma MethodNamesListed()
    ensures MethodName("Basic") == "makeBasicSummaryData" && MethodName("Media") == "makeMediaSummaryData"
    ensures MethodName("Genre") == "makeGenreSummaryData" && MethodName("Link") == "makeLinkSummaryData"
    ensures MethodName("Bio") == "makeBioSummaryData" && MethodName("Dates") == "makeDatesSummaryData"
    ensures MethodName("Metric") == "makeMetricSummaryData"
  {
    MethodNamesListedA();
    MethodNamesListedB();
  }

  lemma MethodNamesListedA()
    ensures MethodName("Basic") == "makeBasicSummaryData" && MethodName("Media") == "makeMediaSummaryData"
    ensures MethodName("Genre") == "makeGenreSummaryData"
  {
  }

  lemma MethodNamesListedB()
    ensures MethodName("Link") == "makeLinkSummaryData"
    ensures MethodName("Bio") == "makeBioSummaryData" && MethodName("Dates") == "makeDatesSummaryData"
    ensures MethodName("Metric") == "makeMetricSummaryData"
  {
  }

  /** A summary type has a handler exactly when the class has a callable
      attribute of the name `__init__` builds for it. */
  lemma HandlerIffMethod(t: string)
    ensures HandlerFor(t).Some? <==> MethodName(t) in ClassMethods
  {
    MethodNamesListed();
    var m := MethodName(t);
    assert m[0] == 'm' && |m| >= 15;
    if m in ClassMethods {
      if m == MethodName("Basic") { MethodNameInjective(t, "Basic"); }
      else if m == MethodName("Media") { MethodNameInjective(t, "Media"); }
      else if m == MethodName("Genre") { MethodNameInjective(t, "Genre"); }
      else if m == MethodName("Link") { MethodNameInjective(t, "Link"); }
      else if m == MethodName("Bio") { MethodNameInjective(t, "Bio"); }
      else if m == MethodName("Dates") { MethodNameInjective(t, "Dates"); }
      else if m == MethodName("Metric") { MethodNameInjective(t, "Metric"); }
    }
  }

  /** `dbsums` after the loop of `__init__` over the summary types. */
  function Dispatch(summaryTypes: seq<string>): seq<(string, Handler)>
    decreases |summaryTypes|
  {
    if summaryTypes == [] then []
    else
      var d := Dispatch(summaryTypes[..|summaryTypes| - 1]);
      var t := summaryTypes[|summaryTypes| - 1];
      match HandlerFor(t)
      case Some(h) => Put(d, t, h)
      case None => d
  }

  /** `dbsums` holds each type once, exactly the types that have a handler. */
  lemma {:induction false} DispatchKeys(summaryTypes: seq<string>)
    ensures UniqueKeys(Dispatch(summaryTypes))
    ensures forall t :: t in KeySet(Dispatch(summaryTypes)) <==> t in summaryTypes && HandlerFor(t).Some?
    decreases |summaryTypes|
  {
    if summaryTypes != [] {
      var init := summaryTypes[..|summaryTypes| - 1];
      var t := summaryTypes[|summaryTypes| - 1];
      DispatchKeys(init);
      assert forall u :: u in summaryTypes <==> u in init || u == t by {
        assert summaryTypes == init + [t];
      }
      if HandlerFor(t).Some? {
        PutKeys(Dispatch(init), t, HandlerFor(t).value);
      }
    }
  }

  /** Each type in `dbsums` is bound to its own handler. */
  lemma {:induction false} DispatchHandlers(summaryTypes: seq<string>)
    ensures forall t :: t in Latest(Dispatch(summaryTypes)) ==> HandlerFor(t) == Some(Latest(Dispatch(summaryTypes))[t])
    decreases |summaryTypes|
  {
    if summaryTypes != [] {
      var init := summaryTypes[..|summaryTypes| - 1];
      var t := summaryTypes[|summaryTypes| - 1];
      DispatchHandlers(init);
      if HandlerFor(t).Some? {
        DispatchKeys(init);
        PutLatest(Dispatch(init), t, HandlerFor(t).value);
      }
    }
  }

  /** `dbsums` holds a summary type iff the class defines its `make` method,
      bound to that method, each type once. */
  lemma DispatchTable(summaryTypes: seq<string>)
    ensures UniqueKeys(Dispatch(summaryTypes))
    ensures KeySet(Dispatch(summaryTypes)) == set t | t in summaryTypes && MethodName(t) in ClassMethods
    ensures forall t :: t in Latest(Dispatch(summaryTypes)) ==> HandlerFor(t) == Some(Latest(Dispatch(summaryTypes))[t])
  {
    DispatchKeys(summaryTypes);
    DispatchHandlers(summaryTypes);
    forall u | u in summaryTypes ensures HandlerFor(u).Some? <==> MethodName(u) in ClassMethods {
      HandlerIffMethod(u);
    }
  }

  // =====================================================================
  // Shards
  // =====================================================================

  /** A save through `rdio.saveData(key, data=...)`: a named series or a
      frame. */
  datatype Save = SaveSeries(key: string, name: string, series: Series<ArtistID>)
                | SaveFrame(key: string, frame: Frame<ArtistID>)

  type Store = (string, int) -> Option<Frame<ArtistID>>

  /** The tables of the shards whose file exists, in shard order. */
  function Present(store: Store, metaType: string, modVals: seq<int>): (r: seq<Frame<ArtistID>>)
    ensures |r| <= |modVals|
    decreases |modVals|
  {
    if modVals == [] then []
    else
      var m := modVals[|modVals| - 1];
      Present(store, metaType, modVals[..|modVals| - 1]) + (if store(metaType, m).Some? then [store(metaType, m).value] else [])
  }

  lemma PresentStep(store: Store, metaType: string, modVals: seq<int>, n: nat)
    requires n < |modVals|
    ensures Present(store, metaType, modVals[..n + 1]) ==
      Present(store, metaType, modVals[..n]) +
      (if store(metaType, modVals[n]).Some? then [store(metaType, modVals[n]).value] else [])
  {
    assert modVals[..n + 1][..n] == modVals[..n];
  }

  /** Shards are read independently: the tables of two runs of shards are
      those of each run, in order. */
  lemma {:induction false} PresentAppend(store: Store, metaType: string, a: seq<int>, b: seq<int>)
    ensures Present(store, metaType, a + b) == Present(store, metaType, a) + Present(store, metaType, b)
    decreases |b|
  {
    if b == [] {
      assert a + b == a;
    } else {
      assert (a + b)[..|a + b| - 1] == a + b[..|b| - 1];
      PresentAppend(store, metaType, a, b[..|b| - 1]);
    }
  }

  /** A shard whose file does not exist contributes nothing. */
  lemma AbsentShardSkipped(store: Store, metaType: string, a: seq<int>, m: int, b: seq<int>)
    requires store(metaType, m).None?
    ensures Present(store, metaType, a + [m] + b) == Present(store, metaType, a + b)
  {
    PresentAppend(store, metaType, a + [m], b);
    PresentAppend(store, metaType, a, [m]);
    PresentAppend(store, metaType, a, b);
    assert [m][..0] == [];
  }

  /** `acc = concat([acc, fn(frame)]) if acc is not None else fn(frame)` over
      the present shards. */
  function ConcatMapped(frames: seq<Frame<ArtistID>>, fn: Frame<ArtistID> -> Frame<ArtistID>): Option<Frame<ArtistID>>
    decreases |frames|
  {
    if frames == [] then None
    else
      var acc := ConcatMapped(frames[..|frames| - 1], fn);
      var f := fn(frames[|frames| - 1]);
      Some(if acc.Some? then Concat(acc.value, f) else f)
  }

  function RowsOf(frames: seq<Frame<ArtistID>>, fn: Frame<ArtistID> -> Frame<ArtistID>): seq<(ArtistID, Row)>
    decreases |frames|
  {
    if frames == [] then [] else RowsOf(frames[..|frames| - 1], fn) + fn(frames[|frames| - 1]).rows
  }

  /** The columns of any of the shards. */
  function ColsOf(frames: seq<Frame<ArtistID>>, fn: Frame<ArtistID> -> Frame<ArtistID>): set<string>
    decreases |frames|
  {
    if frames == [] then {} else ColsOf(frames[..|frames| - 1], fn) + ColSet(fn(frames[|frames| - 1]))
  }

  function ColSet(f: Frame<ArtistID>): set<string> {
    set c | c in f.cols
  }

  /** The fold yields a table exactly when some shard was present; its rows
      are the rows of every shard in shard order, duplicates kept, and its
      columns are those of any shard. */
  lemma {:induction false} ConcatMappedRows(frames: seq<Frame<ArtistID>>, fn: Frame<ArtistID> -> Frame<ArtistID>)
    ensures ConcatMapped(frames, fn).Some? <==> frames != []
    ensures frames != [] ==> ConcatMapped(frames, fn).value.rows == RowsOf(frames, fn)
    ensures frames != [] ==> forall c :: c in ConcatMapped(frames, fn).value.cols <==> c in ColsOf(frames, fn)
    decreases |frames|
  {
    if frames != [] {
      var init := frames[..|frames| - 1];
      ConcatMappedRows(init, fn);
      if init != [] {
        ConcatCols(ConcatMapped(init, fn).value, fn(frames[|frames| - 1]));
      }
      if init == [] {
        assert RowsOf(frames, fn) == [] + fn(frames[0]).rows;
      }
    }
  }

  // =====================================================================
  // makeBasicSummaryData
  // =====================================================================

  /** The three series the basic fold builds. */
  datatype BasicSeries = BasicSeries(names: Series<ArtistID>, refs: Series<ArtistID>, numAlbums: Series<ArtistID>)

  /** `df[c]`, empty where the column is missing. */
  function ColumnOr(f: Frame<ArtistID>, c: string): Series<ArtistID> {
    var col := Column(f, c);
    if col.Ok? then col.value else []
  }

  /** The basic fold: `sns.update(df["ArtistName"], "Name")`, `df["URL"]` and
      `df["NumAlbums"]` of every present shard concatenated; a KeyError when a
      shard lacks one of the columns. */
  function BasicFold(nameStd: Series<ArtistID> -> Series<ArtistID>, frames: seq<Frame<ArtistID>>): Result<Option<BasicSeries>>
    decreases |frames|
  {
    if frames == [] then Ok(None)
    else
      var acc := BasicFold(nameStd, frames[..|frames| - 1]);
      var f := frames[|frames| - 1];
      if acc.Err? then acc
      else if !HasBasicColumns(f) then Err("KeyError")
      else Ok(Some(AddShard(nameStd, acc.value, f)))
  }

  predicate HasBasicColumns(f: Frame<ArtistID>) {
    "ArtistName" in f.cols && "URL" in f.cols && "NumAlbums" in f.cols
  }

  function Bundle(names: Option<Series<ArtistID>>, refs: Option<Series<ArtistID>>, counts: Option<Series<ArtistID>>): Option<BasicSeries> {
    if names.Some? && refs.Some? && counts.Some? then Some(BasicSeries(names.value, refs.value, counts.value)) else None
  }

  /** The three series with one more shard's columns appended. */
  function AddShard(nameStd: Series<ArtistID> -> Series<ArtistID>, acc: Option<BasicSeries>, f: Frame<ArtistID>): BasicSeries {
    var names, refs, counts := nameStd(ColumnOr(f, "ArtistName")), ColumnOr(f, "URL"), ColumnOr(f, "NumAlbums");
    if acc.Some? then BasicSeries(acc.value.names + names, acc.value.refs + refs, acc.value.numAlbums + counts)
    else BasicSeries(names, refs, counts)
  }

  lemma BasicFoldSnoc(nameStd: Series<ArtistID> -> Series<ArtistID>, fs: seq<Frame<ArtistID>>, f: Frame<ArtistID>)
    ensures BasicFold(nameStd, fs + [f]) ==
      if BasicFold(nameStd, fs).Err? then BasicFold(nameStd, fs)
      else if !HasBasicColumns(f) then Err("KeyError")
      else Ok(Some(AddShard(nameStd, BasicFold(nameStd, fs).value, f)))
  {
    assert (fs + [f])[..|fs + [f]| - 1] == fs;
  }

  function NamesOf(nameStd: Series<ArtistID> -> Series<ArtistID>, frames: seq<Frame<ArtistID>>): seq<Series<ArtistID>>
    decreases |frames|
  {
    if frames == [] then []
    else NamesOf(nameStd, frames[..|frames| - 1]) + [nameStd(ColumnOr(frames[|frames| - 1], "ArtistName"))]
  }

  function ColumnsOf(frames: seq<Frame<ArtistID>>, c: string): seq<Series<ArtistID>>
    decreases |frames|
  {
    if frames == [] then [] else ColumnsOf(frames[..|frames| - 1], c) + [ColumnOr(frames[|frames| - 1], c)]
  }

  /** The basic fold fails exactly when a present shard lacks a column. */
  lemma {:induction false} BasicFoldFails(nameStd: Series<ArtistID> -> Series<ArtistID>, frames: seq<Frame<ArtistID>>)
    ensures BasicFold(nameStd, frames).Ok? <==> forall i :: 0 <= i < |frames| ==> HasBasicColumns(frames[i])
    ensures BasicFold(nameStd, frames).Ok? ==> (BasicFold(nameStd, frames).value.Some? <==> frames != [])
    decreases |frames|
  {
    if frames != [] {
      var init := frames[..|frames| - 1];
      BasicFoldFails(nameStd, init);
      assert forall i :: 0 <= i < |init| ==> init[i] == frames[i];
    }
  }

  /** When some shard was present and none lacks a column, each basic series
      is the concatenation of that column over the shards, in shard order. */
  lemma {:induction false} BasicFoldMeaning(nameStd: Series<ArtistID> -> Series<ArtistID>, frames: seq<Frame<ArtistID>>)
    requires BasicFold(nameStd, frames).Ok? && frames != []
    ensures BasicFold(nameStd, frames).value.Some?
    ensures var b := BasicFold(nameStd, frames).value.value;
      b.names == Flatten(NamesOf(nameStd, frames)) &&
      b.refs == Flatten(ColumnsOf(frames, "URL")) &&
      b.numAlbums == Flatten(ColumnsOf(frames, "NumAlbums"))
    decreases |frames|
  {
    var init := frames[..|frames| - 1];
    var f := frames[|frames| - 1];
    var names, refs, counts := nameStd(ColumnOr(f, "ArtistName")), ColumnOr(f, "URL"), ColumnOr(f, "NumAlbums");
    FlattenAppend(NamesOf(nameStd, init), [names]);
    FlattenAppend(ColumnsOf(init, "URL"), [refs]);
    FlattenAppend(ColumnsOf(init, "NumAlbums"), [counts]);
    FlattenOne(names);
    FlattenOne(refs);
    FlattenOne(counts);
    if init != [] {
      BasicFoldMeaning(nameStd, init);
    }
  }

  lemma FlattenOne<T>(s: seq<T>)
    ensures Flatten([s]) == s
  {
    assert [s][1..] == [];
  }

  /** An error in an earlier shard is the error of the whole fold. */
  lemma {:induction false} BasicFoldErrPersists(nameStd: Series<ArtistID> -> Series<ArtistID>, a: seq<Frame<ArtistID>>, b: seq<Frame<ArtistID>>)
    requires BasicFold(nameStd, a).Err?
    ensures BasicFold(nameStd, a + b) == BasicFold(nameStd, a)
    decreases |b|
  {
    if b == [] {
      assert a + b == a;
    } else {
      assert (a + b)[..|a + b| - 1] == a + b[..|b| - 1];
      BasicFoldErrPersists(nameStd, a, b[..|b| - 1]);
    }
  }

  /** What `makeBasicSummaryData` saves: Name, Ref and NumAlbums, or nothing
      in test mode; AttributeError when no shard was present, from the
      verbose report or from naming the missing series. */
  function BasicSaves(verbose: bool, test: bool, fold: Result<Option<BasicSeries>>): Result<seq<Save>> {
    if fold.Err? then Err(fold.reason)
    else if fold.value.None? && (verbose || !test) then Err("AttributeError")
    else if test then Ok([])
    else
      var b := fold.value.value;
      Ok([SaveSeries("SummaryName", "Name", b.names), SaveSeries("SummaryRef", "Ref", b.refs),
          SaveSeries("SummaryNumAlbums", "NumAlbums", b.numAlbums)])
  }

  // =====================================================================
  // makeMediaSummaryData
  // =====================================================================

  /** `getFlatList(x.values())`: the names of every media type of a cell,
      list after list. */
  function FlatValues(entries: seq<(string, Cell)>): seq<Cell>
    decreases |entries|
  {
    if entries == [] then []
    else
      var v := entries[|entries| - 1].1;
      FlatValues(entries[..|entries| - 1]) + (if v.CList? then v.items else [v])
  }

  /** The first `map`: a dict becomes the flat list of its values, anything
      else (NaN included) becomes None. */
  function FlatCell(c: Cell): (r: Cell)
    ensures r.CList? || r.CNone?
    ensures r.CList? <==> c.CDict?
  {
    if c.CDict? then CList(FlatValues(c.entries)) else CNone
  }

  /** The second `map`, then `fillna(0).astype(int)`: a list counts its
      names, anything else counts 0. */
  function CountCell(c: Cell): (r: Cell)
    ensures r.CInt? && r.i >= 0
    ensures r.i == if c.CList? then |c.items| else 0
  {
    if c.CList? then CInt(|c.items|) else CInt(0)
  }

  function FlatFrame(f: Frame<ArtistID>): Frame<ArtistID> {
    MapCells(f, FlatCell)
  }

  /** Every count is the number of names an artist has under that rank. */
  lemma CountOfFlat(c: Cell)
    ensures CountCell(FlatCell(c)) == CInt(if c.CDict? then |FlatValues(c.entries)| else 0)
  {
  }

  /** The non-null entries of a column: `Series.count()`. */
  function NonNullCount(rows: seq<(ArtistID, Row)>, c: string): (n: nat)
    ensures n <= |rows|
    decreases |rows|
  {
    if rows == [] then 0
    else NonNullCount(rows[..|rows| - 1], c) + (if CellAt(rows[|rows| - 1].1, c) != CNone then 1 else 0)
  }

  lemma {:induction false} NonNullCountPositive(rows: seq<(ArtistID, Row)>, c: string)
    ensures NonNullCount(rows, c) > 0 <==> exists i :: 0 <= i < |rows| && CellAt(rows[i].1, c) != CNone
    decreases |rows|
  {
    if rows != [] {
      var init := rows[..|rows| - 1];
      NonNullCountPositive(init, c);
      if exists i :: 0 <= i < |init| && CellAt(init[i].1, c) != CNone {
        var i :| 0 <= i < |init| && CellAt(init[i].1, c) != CNone;
        assert rows[i] == init[i];
      }
      if exists i :: 0 <= i < |rows| && CellAt(rows[i].1, c) != CNone {
        var i :| 0 <= i < |rows| && CellAt(rows[i].1, c) != CNone;
        if i < |init| {
          assert init[i] == rows[i];
        }
      }
    }
  }

  /** `len(col) > 0 and col.count() > 0`. */
  predicate Worth(media: Frame<ArtistID>, c: string) {
    |media.rows| > 0 && NonNullCount(media.rows, c) > 0
  }

  /** The ranked-media columns saved, in column order. */
  function ColumnSaves(media: Frame<ArtistID>, cols: seq<string>): seq<Save>
    decreases |cols|
  {
    if cols == [] then []
    else
      var c := cols[|cols| - 1];
      ColumnSaves(media, cols[..|cols| - 1]) +
      (if Worth(media, c) then [SaveSeries("Summary" + c + "Media", c, ColumnOr(media, c))] else [])
  }

  /** A ranked-media column is saved exactly when some artist has a list
      under it, and then under its own name. */
  lemma {:induction false} ColumnSavesNonEmpty(media: Frame<ArtistID>, cols: seq<string>)
    ensures forall s :: s in ColumnSaves(media, cols) ==>
      s.SaveSeries? && s.name in cols && s.key == "Summary" + s.name + "Media" &&
      (exists i :: 0 <= i < |media.rows| && CellAt(media.rows[i].1, s.name) != CNone)
    ensures forall c :: c in cols && (exists i :: 0 <= i < |media.rows| && CellAt(media.rows[i].1, c) != CNone) ==>
      exists s :: s in ColumnSaves(media, cols) && s.name == c
    decreases |cols|
  {
    if cols != [] {
      var init := cols[..|cols| - 1];
      var c := cols[|cols| - 1];
      ColumnSavesNonEmpty(media, init);
      NonNullCountPositive(media.rows, c);
      assert forall d :: d in cols <==> d in init || d == c by {
        assert cols == init + [c];
      }
      forall d | d in cols && (exists i :: 0 <= i < |media.rows| && CellAt(media.rows[i].1, d) != CNone)
        ensures exists s :: s in ColumnSaves(media, cols) && s.name == d
      {
        if d == c {
          assert SaveSeries("Summary" + c + "Media", c, ColumnOr(media, c)) in ColumnSaves(media, cols);
        } else {
          var s :| s in ColumnSaves(media, init) && s.name == d;
          assert s in ColumnSaves(media, cols);
        }
      }
    }
  }

  /** What `makeMediaSummaryData` saves: the counts table, then each
      ranked-media column with an entry; AttributeError when no shard was
      present. */
  function MediaSaves(test: bool, fold: Option<Frame<ArtistID>>): Result<seq<Save>> {
    if fold.None? then Err("AttributeError")
    else if test then Ok([])
    else Ok([SaveFrame("SummaryCounts", MapCells(fold.value, CountCell))] + ColumnSaves(fold.value, fold.value.cols))
  }

  // =====================================================================
  // makeGenre/Link/Bio/MetricSummaryData
  // =====================================================================

  function Keep(f: Frame<ArtistID>): Frame<ArtistID> {
    f
  }

  /** What the plain folds save: the concatenated table when some shard was
      present and not testing; AttributeError from the verbose report when
      none was. */
  function FrameSaves(summaryType: string, verbose: bool, test: bool, fold: Option<Frame<ArtistID>>): Result<seq<Save>> {
    if fold.None? && verbose then Err("AttributeError")
    else if test || fold.None? then Ok([])
    else Ok([SaveFrame("Summary" + summaryType, fold.value)])
  }

  // =====================================================================
  // make
  // =====================================================================

  /** The summary type a handler makes. */
  function TypeName(h: Handler): string {
    match h
    case HBasic => "Basic"
    case HMedia => "Media"
    case HGenre => "Genre"
    case HLink => "Link"
    case HBio => "Bio"
    case HDates => "Dates"
    case HMetric => "Metric"
  }

  /** `f"Meta{summaryType}"`: the meta table a handler reads. */
  function MetaType(h: Handler): string {
    "Meta" + TypeName(h)
  }

  /** What each handler does in one producer state, `makeDatesSummaryData`
      aside, which does nothing. */
  datatype Outcomes = Outcomes(basic: Result<seq<Save>>, media: Result<seq<Save>>, genre: Result<seq<Save>>,
                               link: Result<seq<Save>>, bio: Result<seq<Save>>, metric: Result<seq<Save>>)

  function OutcomesOf(store: Store, nameStd: Series<ArtistID> -> Series<ArtistID>,
                      verbose: bool, test: bool, modVals: seq<int>): Outcomes {
    Outcomes(BasicSaves(verbose, test, BasicFold(nameStd, Present(store, MetaType(HBasic), modVals))),
             MediaSaves(test, ConcatMapped(Present(store, MetaType(HMedia), modVals), FlatFrame)),
             FrameSaves(TypeName(HGenre), verbose, test, ConcatMapped(Present(store, MetaType(HGenre), modVals), Keep)),
             FrameSaves(TypeName(HLink), verbose, test, ConcatMapped(Present(store, MetaType(HLink), modVals), Keep)),
             FrameSaves(TypeName(HBio), verbose, test, ConcatMapped(Present(store, MetaType(HBio), modVals), Keep)),
             FrameSaves(TypeName(HMetric), verbose, test, ConcatMapped(Present(store, MetaType(HMetric), modVals), Keep)))
  }

  /** Before `make`, `self.modVals` and `self.test` do not exist yet: every
      handler but the dates one raises AttributeError at its shard loop. */
  const Unset: Outcomes := Outcomes(Err("AttributeError"), Err("AttributeError"), Err("AttributeError"),
                                    Err("AttributeError"), Err("AttributeError"), Err("AttributeError"))

  /** What every handler does in the producer's current state; `test` and
      `modVals` are None until `make` sets them both. */
  function OutcomesNow(store: Store, nameStd: Series<ArtistID> -> Series<ArtistID>,
                       verbose: bool, test: Option<bool>, modVals: Option<seq<int>>): Outcomes {
    if test.Some? && modVals.Some? then OutcomesOf(store, nameStd, verbose, test.value, modVals.value) else Unset
  }

  function Outcome(o: Outcomes, h: Handler): Result<seq<Save>> {
    match h
    case HBasic => o.basic
    case HMedia => o.media
    case HGenre => o.genre
    case HLink => o.link
    case HBio => o.bio
    case HDates => Ok([])
    case HMetric => o.metric
  }

  /** The handlers run in order; the saves made before one raises stay made. */
  function RunAll(hs: seq<(string, Handler)>, o: Outcomes): (seq<Save>, Option<string>)
    decreases |hs|
  {
    if hs == [] then ([], None)
    else
      var pre := RunAll(hs[..|hs| - 1], o);
      if pre.1.Some? then pre
      else
        var r := Outcome(o, hs[|hs| - 1].1);
        if r.Err? then (pre.0, Some(r.reason)) else (pre.0 + r.value, None)
  }

  lemma {:induction false} RunAllErrPersists(hs: seq<(string, Handler)>, o: Outcomes, j: nat)
    requires j <= |hs| && RunAll(hs[..j], o).1.Some?
    ensures RunAll(hs, o) == RunAll(hs[..j], o)
    decreases |hs| - j
  {
    if j < |hs| {
      assert hs[..j + 1][..j] == hs[..j];
      RunAllErrPersists(hs, o, j + 1);
    } else {
      assert hs[..j] == hs;
    }
  }

  lemma RunAllStep(hs: seq<(string, Handler)>, o: Outcomes, i: nat)
    requires i < |hs| && RunAll(hs[..i], o).1.None?
    ensures RunAll(hs[..i + 1], o) ==
      if Outcome(o, hs[i].1).Err? then (RunAll(hs[..i], o).0, Some(Outcome(o, hs[i].1).reason))
      else (RunAll(hs[..i], o).0 + Outcome(o, hs[i].1).value, None)
  {
    assert hs[..i + 1][..i] == hs[..i];
  }

  /** `makeDatesSummaryData` returns at once: it saves nothing and never
      fails. */
  lemma DatesIsNoOp(store: Store, nameStd: Series<ArtistID> -> Series<ArtistID>, verbose: bool, test: bool, modVals: seq<int>)
    ensures Outcome(OutcomesOf(store, nameStd, verbose, test, modVals), HDates) == Ok([])
  {
  }

  /** In test mode no handler saves anything. */
  lemma TestHandlerSavesNothing(h: Handler, store: Store, nameStd: Series<ArtistID> -> Series<ArtistID>,
                                verbose: bool, modVals: seq<int>)
    ensures Outcome(OutcomesOf(store, nameStd, verbose, true, modVals), h).Ok? ==>
      Outcome(OutcomesOf(store, nameStd, verbose, true, modVals), h).value == []
  {
  }

  /** In test mode a whole run saves nothing. */
  lemma {:induction false} TestModeSavesNothing(hs: seq<(string, Handler)>, store: Store,
                                                nameStd: Series<ArtistID> -> Series<ArtistID>, verbose: bool, modVals: seq<int>)
    ensures RunAll(hs, OutcomesOf(store, nameStd, verbose, true, modVals)).0 == []
    decreases |hs|
  {
    if hs != [] {
      TestModeSavesNothing(hs[..|hs| - 1], store, nameStd, verbose, modVals);
      TestHandlerSavesNothing(hs[|hs| - 1].1, store, nameStd, verbose, modVals);
    }
  }

  /** A handler run before `make` saves nothing, and the run fails exactly
      when it reaches a handler other than the dates one. */
  lemma {:induction false} UnsetRunFails(hs: seq<(string, Handler)>)
    ensures RunAll(hs, Unset).0 == []
    ensures RunAll(hs, Unset).1.None? <==> forall i :: 0 <= i < |hs| ==> hs[i].1.HDates?
    ensures RunAll(hs, Unset).1.Some? ==> RunAll(hs, Unset).1.value == "AttributeError"
    decreases |hs|
  {
    if hs != [] {
      var init := hs[..|hs| - 1];
      UnsetRunFails(init);
      assert forall i :: 0 <= i < |init| ==> init[i] == hs[i];
    }
  }

  /** With a test run, only shard 0 is read. */
  function ModValsFor(test: bool, modVals: seq<int>): (r: seq<int>)
    ensures test ==> r == [0]
    ensures !test ==> r == modVals
  {
    if test then [0] else modVals
  }

  // =====================================================================
  // The shard loops
  // =====================================================================

  /** The shard loop of the Media, Genre, Link, Bio and Metric makers: the
      tables of the present shards folded with `concat`. */
  method FoldShards(store: Store, metaType: string, modVals: seq<int>, fn: Frame<ArtistID> -> Frame<ArtistID>)
    returns (acc: Option<Frame<ArtistID>>)
    ensures acc == ConcatMapped(Present(store, metaType, modVals), fn)
  {
    acc := None;
    var n := 0;
    while n < |modVals|
      invariant 0 <= n <= |modVals|
      invariant acc == ConcatMapped(Present(store, metaType, modVals[..n]), fn)
    {
      PresentStep(store, metaType, modVals, n);
      var modValMetaData := store(metaType, modVals[n]);
      if modValMetaData.Some? {
        ghost var pre := Present(store, metaType, modVals[..n + 1]);
        assert pre[..|pre| - 1] == Present(store, metaType, modVals[..n]);
        assert pre[|pre| - 1] == modValMetaData.value;
        var frame := fn(modValMetaData.value);
        acc := if acc.Some? then Some(Concat(acc.value, frame)) else Some(frame);
      } else {
        assert Present(store, metaType, modVals[..n + 1]) == Present(store, metaType, modVals[..n]);
      }
      n := n + 1;
    }
    assert modVals[..n] == modVals;
  }

  /** The shard loop of the basic maker, with its three accumulators. */
  method FoldBasic(store: Store, nameStd: Series<ArtistID> -> Series<ArtistID>, metaType: string, modVals: seq<int>)
    returns (r: Result<Option<BasicSeries>>)
    ensures r == BasicFold(nameStd, Present(store, metaType, modVals))
  {
    var artistIDToName: Option<Series<ArtistID>> := None;
    var artistIDToRef: Option<Series<ArtistID>> := None;
    var artistIDToNumAlbums: Option<Series<ArtistID>> := None;
    var n := 0;
    while n < |modVals|
      invariant 0 <= n <= |modVals|
      invariant artistIDToName.Some? == artistIDToRef.Some? == artistIDToNumAlbums.Some?
      invariant BasicFold(nameStd, Present(store, metaType, modVals[..n])) ==
        Ok(Bundle(artistIDToName, artistIDToRef, artistIDToNumAlbums))
    {
      PresentStep(store, metaType, modVals, n);
      var modValMetaData := store(metaType, modVals[n]);
      if modValMetaData.Some? {
        var frame := modValMetaData.value;
        ghost var names0, refs0, counts0 := artistIDToName, artistIDToRef, artistIDToNumAlbums;
        ghost var prior := Present(store, metaType, modVals[..n]);
        BasicFoldSnoc(nameStd, prior, frame);
        if !HasBasicColumns(frame) {
          BasicFoldStopsAt(store, nameStd, metaType, modVals, n + 1);
          return Err("KeyError");
        }
        var artistNames := nameStd(ColumnOr(frame, "ArtistName"));
        artistIDToName := if artistIDToName.Some? then Some(artistIDToName.value + artistNames) else Some(artistNames);
        var artistURLs := ColumnOr(frame, "URL");
        artistIDToRef := if artistIDToRef.Some? then Some(artistIDToRef.value + artistURLs) else Some(artistURLs);
        var artistNumAlbums := ColumnOr(frame, "NumAlbums");
        artistIDToNumAlbums := if artistIDToNumAlbums.Some? then Some(artistIDToNumAlbums.value + artistNumAlbums) else Some(artistNumAlbums);
        assert Bundle(artistIDToName, artistIDToRef, artistIDToNumAlbums) == Some(AddShard(nameStd, Bundle(names0, refs0, counts0), frame));
      } else {
        assert Present(store, metaType, modVals[..n + 1]) == Present(store, metaType, modVals[..n]);
      }
      n := n + 1;
    }
    assert modVals[..n] == modVals;
    r := Ok(Bundle(artistIDToName, artistIDToRef, artistIDToNumAlbums));
  }

  lemma BasicFoldStopsAt(store: Store, nameStd: Series<ArtistID> -> Series<ArtistID>, metaType: string, modVals: seq<int>, n: nat)
    requires n <= |modVals| && BasicFold(nameStd, Present(store, metaType, modVals[..n])).Err?
    ensures BasicFold(nameStd, Present(store, metaType, modVals)) == BasicFold(nameStd, Present(store, metaType, modVals[..n]))
  {
    PresentAppend(store, metaType, modVals[..n], modVals[n..]);
    assert modVals[..n] + modVals[n..] == modVals;
    BasicFoldErrPersists(nameStd, Present(store, metaType, modVals[..n]), Present(store, metaType, modVals[n..]));
  }

  /** The save loop of the media maker over the ranked-media columns. */
  method SaveColumns(media: Frame<ArtistID>) returns (out: seq<Save>)
    ensures out == ColumnSaves(media, media.cols)
  {
    out := [];
    var k := 0;
    while k < |media.cols|
      invariant 0 <= k <= |media.cols|
      invariant out == ColumnSaves(media, media.cols[..k])
    {
      assert media.cols[..k + 1][..k] == media.cols[..k];
      var rankedMediaType := media.cols[k];
      var rankedMediaTypeData := ColumnOr(media, rankedMediaType);
      if |rankedMediaTypeData| > 0 && NonNullCount(media.rows, rankedMediaType) > 0 {
        out := out + [SaveSeries("Summary" + rankedMediaType + "Media", rankedMediaType, rankedMediaTypeData)];
      }
      k := k + 1;
    }
    assert media.cols[..k] == media.cols;
  }

  // =====================================================================
  // The producer
  // =====================================================================

  class SummaryProducer {
    /** `rdio.getData(metaType, modVal)` where the file exists. */
    const store: Store
    /** `sns.update(series, "Name")`. */
    const nameStd: Series<ArtistID> -> Series<ArtistID>
    var verbose: bool
    var test: Option<bool>
    var modVals: Option<seq<int>>
    var dbsums: seq<(string, Handler)>
    /** Every `rdio.saveData` so far, in order. */
    var saves: seq<Save>

    /** `test` and `modVals` exist together: `make` is the only place that
        sets them. */
    ghost predicate Valid()
      reads this
    {
      test.Some? <==> modVals.Some?
    }

    /** `__init__`: one handler per summary type the class can make;
        `test` and `modVals` are not set yet. */
    constructor (summaryTypes: seq<string>, store: Store, nameStd: Series<ArtistID> -> Series<ArtistID>, verbose: bool)
      ensures this.store == store && this.nameStd == nameStd && this.verbose == verbose
      ensures dbsums == Dispatch(summaryTypes) && saves == [] && test.None? && modVals.None?
      ensures Valid()
    {
      this.store := store;
      this.nameStd := nameStd;
      this.verbose := verbose;
      test := None;
      modVals := None;
      saves := [];
      var sums: seq<(string, Handler)> := [];
      var i := 0;
      while i < |summaryTypes|
        invariant 0 <= i <= |summaryTypes|
        invariant sums == Dispatch(summaryTypes[..i])
      {
        assert summaryTypes[..i + 1][..i] == summaryTypes[..i];
        var summaryType := summaryTypes[i];
        var handler := HandlerFor(summaryType);
        if handler.Some? {
          sums := Put(sums, summaryType, handler.value);
        }
        i := i + 1;
      }
      assert summaryTypes[..i] == summaryTypes;
      dbsums := sums;
    }

    /** `getSummaryTypes(key)`: a string key selects its own handler and
      must name one; any other key selects them all. */
    function GetSummaryTypes(key: Cell): (r: Result<seq<(string, Handler)>>)
      reads this`dbsums
      ensures key.CStr? && key.s !in KeySet(dbsums) <==> r.Err?
      ensures r.Ok? && key.CStr? ==> r.value == [(key.s, Latest(dbsums)[key.s])]
      ensures r.Ok? && !key.CStr? ==> r.value == dbsums
    {
      if key.CStr? then
        if key.s in KeySet(dbsums) then Ok([(key.s, Latest(dbsums)[key.s])]) else Err("AssertionError")
      else Ok(dbsums)
    }

    /** `makeBasicSummaryData`. */
    method MakeBasicSummaryData() returns (r: Result<()>)
      requires Valid()
      modifies this`saves
      ensures modVals.None? ==> r == Err("AttributeError") && saves == old(saves)
      ensures modVals.Some? ==>
        var spec := BasicSaves(verbose, test.value, BasicFold(nameStd, Present(store, MetaType(HBasic), modVals.value)));
        (r.Ok? <==> spec.Ok?) && (r.Err? ==> r.reason == spec.reason) &&
        saves == old(saves) + (if spec.Ok? then spec.value else [])
    {
      if modVals.None? {
        return Err("AttributeError");
      }
      var fold := FoldBasic(store, nameStd, MetaType(HBasic), modVals.value);
      if fold.Err? {
        return Err(fold.reason);
      }
      if fold.value.None? && (verbose || !test.value) {
        return Err("AttributeError");
      }
      if !test.value {
        var b := fold.value.value;
        saves := saves + [SaveSeries("SummaryName", "Name", b.names)];
        saves := saves + [SaveSeries("SummaryRef", "Ref", b.refs)];
        saves := saves + [SaveSeries("SummaryNumAlbums", "NumAlbums", b.numAlbums)];
      }
      r := Ok(());
    }

    /** `makeMediaSummaryData`. */
    method MakeMediaSummaryData() returns (r: Result<()>)
      requires Valid()
      modifies this`saves
      ensures modVals.None? ==> r == Err("AttributeError") && saves == old(saves)
      ensures modVals.Some? ==>
        var spec := MediaSaves(test.value, ConcatMapped(Present(store, MetaType(HMedia), modVals.value), FlatFrame));
        (r.Ok? <==> spec.Ok?) && (r.Err? ==> r.reason == spec.reason) &&
        saves == old(saves) + (if spec.Ok? then spec.value else [])
    {
      if modVals.None? {
        return Err("AttributeError");
      }
      var artistIDToMedia := FoldShards(store, MetaType(HMedia), modVals.value, FlatFrame);
      ghost var spec := MediaSaves(test.value, artistIDToMedia);
      if artistIDToMedia.None? {
        assert spec == Err("AttributeError");
        return Err("AttributeError");
      }
      var media := artistIDToMedia.value;
      var artistIDToCounts := MapCells(media, CountCell);
      r := Ok(());
      if test.value {
        assert spec == Ok([]);
      } else {
        var columns := SaveColumns(media);
        assert spec == Ok([SaveFrame("SummaryCounts", artistIDToCounts)] + columns);
        saves := saves + ([SaveFrame("SummaryCounts", artistIDToCounts)] + columns);
      }
    }

    /** `makeGenreSummaryData`, `makeLinkSummaryData`, `makeBioSummaryData`
        and `makeMetricSummaryData`, which differ only in the summary type. */
    method MakeFrameSummaryData(h: Handler) returns (r: Result<()>)
      requires h.HGenre? || h.HLink? || h.HBio? || h.HMetric?
      requires Valid()
      modifies this`saves
      ensures modVals.None? ==> r == Err("AttributeError") && saves == old(saves)
      ensures modVals.Some? ==>
        var spec := FrameSaves(TypeName(h), verbose, test.value, ConcatMapped(Present(store, MetaType(h), modVals.value), Keep));
        (r.Ok? <==> spec.Ok?) && (r.Err? ==> r.reason == spec.reason) &&
        saves == old(saves) + (if spec.Ok? then spec.value else [])
    {
      if modVals.None? {
        return Err("AttributeError");
      }
      var summaryType := TypeName(h);
      var acc := FoldShards(store, MetaType(h), modVals.value, Keep);
      if acc.None? && verbose {
        return Err("AttributeError");
      }
      if !test.value && acc.Some? {
        saves := saves + [SaveFrame("Summary" + summaryType, acc.value)];
      }
      r := Ok(());
    }

    /** Calls the handler `dbsums` binds; `o` is what every handler does in
        the current state. */
    method RunHandler(h: Handler, ghost o: Outcomes) returns (r: Result<()>)
      requires Valid() && o == OutcomesNow(store, nameStd, verbose, test, modVals)
      modifies this`saves
      ensures (r.Ok? <==> Outcome(o, h).Ok?) && (r.Err? ==> r.reason == Outcome(o, h).reason) &&
        saves == old(saves) + (if Outcome(o, h).Ok? then Outcome(o, h).value else [])
    {
      match h
      case HBasic => r := MakeBasicSummaryData();
      case HMedia => r := MakeMediaSummaryData();
      case HGenre => r := MakeFrameSummaryData(HGenre);
      case HLink => r := MakeFrameSummaryData(HLink);
      case HBio => r := MakeFrameSummaryData(HBio);
      case HDates => r := Ok(());
      case HMetric => r := MakeFrameSummaryData(HMetric);
    }

    /** The loop of `make` over the selected handlers. */
    method RunHandlers(hs: seq<(string, Handler)>, ghost o: Outcomes) returns (r: Result<()>)
      requires Valid() && o == OutcomesNow(store, nameStd, verbose, test, modVals)
      modifies this`saves
      ensures var run := RunAll(hs, o);
        saves == old(saves) + run.0 && (r.Err? <==> run.1.Some?) && (r.Err? ==> r.reason == run.1.value)
    {
      var i := 0;
      while i < |hs|
        invariant 0 <= i <= |hs|
        invariant RunAll(hs[..i], o).1.None?
        invariant saves == old(saves) + RunAll(hs[..i], o).0
      {
        RunAllStep(hs, o, i);
        ghost var before := saves;
        var res := RunHandler(hs[i].1, o);
        if res.Err? {
          RunAllErrPersists(hs, o, i + 1);
          return Err(res.reason);
        }
        ghost var made := Outcome(o, hs[i].1).value;
        ghost var prev := RunAll(hs[..i], o).0;
        assert saves == before + made;
        AppendAssoc(old(saves), prev, made);
        i := i + 1;
      }
      assert hs[..i] == hs;
      r := Ok(());
    }

    /** `make(modVal, key, test=..., verbose=...)`, where `modVals` is what
        `getModVals(modVal)` gives. */
    method Make(allModVals: seq<int>, key: Cell, testArg: bool, verboseArg: Option<bool>) returns (r: Result<()>)
      modifies this`verbose, this`test, this`modVals, this`saves
      ensures verbose == (if verboseArg.Some? then verboseArg.value else old(verbose))
      ensures test == Some(testArg) && modVals == Some(ModValsFor(testArg, allModVals)) && Valid()
      ensures GetSummaryTypes(key).Err? ==> r == Err(GetSummaryTypes(key).reason) && saves == old(saves)
      ensures GetSummaryTypes(key).Ok? ==>
        var run := RunAll(GetSummaryTypes(key).value, OutcomesOf(store, nameStd, verbose, testArg, modVals.value));
        saves == old(saves) + run.0 && (r.Err? <==> run.1.Some?) && (r.Err? ==> r.reason == run.1.value)
    {
      if verboseArg.Some? {
        verbose := verboseArg.value;
      }
      test := Some(testArg);
      modVals := Some(ModValsFor(testArg, allModVals));
      var summaryTypes := GetSummaryTypes(key);
      if summaryTypes.Err? {
        return Err(summaryTypes.reason);
      }
      r := RunHandlers(summaryTypes.value, OutcomesNow(store, nameStd, verbose, test, modVals));
    }
  }
}
