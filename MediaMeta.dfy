/** `MediaMetaProducer`: the per-artist media names grouped by media-type
    rank, their counts, and the per-shard rank table. */
module MediaMeta {
  import opened Values
  import opened ProdBase

  /** A producer: the rank classifier it was given and `MaxMediaNum`. */
  datatype MediaMetaProducer = MediaMetaProducer(rank: RankConfig, maxMediaNum: int)

  /** The per-type name lists of one artist (mediaType -> names). */
  type TypeNamesDict = seq<(string, seq<Cell>)>

  /** The ranked media of one artist (rank name -> mediaType -> names). */
  type RankedMedia = seq<(string, TypeNamesDict)>

  /** `__init__`: `MaxMediaNum` defaults to 500. */
  function NewMediaMetaProducer(rank: RankConfig, maxMediaNumArg: Option<int>): (p: MediaMetaProducer)
    ensures p.rank == rank
    ensures maxMediaNumArg.None? ==> p.maxMediaNum == 500
    ensures maxMediaNumArg.Some? ==> p.maxMediaNum == maxMediaNumArg.value
  {
    MediaMetaProducer(rank, if maxMediaNumArg.Some? then maxMediaNumArg.value else 500)
  }

  // ---------------------------------------------------------------------
  // getRankedMediaCountsData
  // ---------------------------------------------------------------------

  function Lengths(d: TypeNamesDict): (r: seq<int>)
    ensures |r| == |d| && forall i :: 0 <= i < |d| ==> r[i] == |d[i].1|
  {
    seq(|d|, i requires 0 <= i < |d| => |d[i].1|)
  }

  /** `getRankedMediaCountsData`: for each rank name, the total number of
      names over its media types. */
  function RankedMediaCounts(ranked: RankedMedia): (r: seq<(string, int)>)
    ensures |r| == |ranked|
    ensures forall i :: 0 <= i < |ranked| ==> r[i].0 == ranked[i].0 && r[i].1 == |Flatten(ValuesOf(ranked[i].1))|
  {
    var r := seq(|ranked|, i requires 0 <= i < |ranked| => (ranked[i].0, Sum(Lengths(ranked[i].1))));
    assert forall i :: 0 <= i < |ranked| ==> r[i].1 == |Flatten(ValuesOf(ranked[i].1))| by {
      forall i | 0 <= i < |ranked| ensures r[i].1 == |Flatten(ValuesOf(ranked[i].1))| {
        SumLengthsIsFlatLength(ranked[i].1);
      }
    }
    r
  }

  /** The sum of the list lengths is the length of the concatenated lists. */
  lemma {:induction false} SumLengthsIsFlatLength(d: TypeNamesDict)
    ensures Sum(Lengths(d)) == |Flatten(ValuesOf(d))|
    decreases |d|
  {
    if d != [] {
      assert Lengths(d)[1..] == Lengths(d[1..]);
      assert ValuesOf(d)[1..] == ValuesOf(d[1..]);
      SumLengthsIsFlatLength(d[1..]);
    }
  }

  // ---------------------------------------------------------------------
  // getRankedMediaData
  // ---------------------------------------------------------------------

  /** `retval[rankName][mediaType] = names`, creating `retval[rankName]`
      as `{}` when it is not there yet. */
  function AddUnder(res: RankedMedia, rankName: string, mediaType: string, names: seq<Cell>): RankedMedia {
    Put(res, rankName, Put(if rankName in KeySet(res) then Latest(res)[rankName] else [], mediaType, names))
  }

  /** `getMediaTypeRank` of a configuration, as a function on media types. */
  function RankOf(cfg: RankConfig): string -> Result<string> {
    t => GetMediaTypeRank(cfg, CStr(t))
  }

  /** The grouping loop of `getRankedMediaData` over the name lists, in
      order, with `rankOf` naming each media type's rank; the first
      failure of `rankOf` is the result. */
  function GroupByRank(rankOf: string -> Result<string>, pairs: TypeNamesDict): Result<RankedMedia>
    decreases |pairs|
  {
    if pairs == [] then Ok([])
    else
      var init := GroupByRank(rankOf, pairs[..|pairs| - 1]);
      var (mediaType, names) := pairs[|pairs| - 1];
      var rankName := rankOf(mediaType);
      if init.Err? then init
      else if rankName.Err? then Err(rankName.reason)
      else Ok(AddUnder(init.value, rankName.value, mediaType, names))
  }

  /** What `getRankedMediaData(rData)` returns. */
  function RankedMediaSpec(p: MediaMetaProducer, rData: RawRecord): Result<RankedMedia> {
    var names := MediaNamesSpec(rData, p.maxMediaNum);
    if names.Err? then Err(names.reason) else GroupByRank(RankOf(p.rank), names.value)
  }

  lemma {:induction false} GroupErrPersists(rankOf: string -> Result<string>, pairs: TypeNamesDict, j: nat)
    requires j <= |pairs| && GroupByRank(rankOf, pairs[..j]).Err?
    ensures GroupByRank(rankOf, pairs) == GroupByRank(rankOf, pairs[..j])
    decreases |pairs|
  {
    if j < |pairs| {
      var init := pairs[..|pairs| - 1];
      assert init[..j] == pairs[..j];
      GroupErrPersists(rankOf, init, j);
    } else {
      assert pairs[..j] == pairs;
    }
  }

  /** The loop of `getRankedMediaData`: for each media type in order, its
      name list goes under `rankOf(mediaType)`, the rank classifier's
      `getMediaTypeRank`. */
  method GroupNames(rankOf: string -> Result<string>, mediaData: TypeNamesDict) returns (r: Result<RankedMedia>)
    ensures r == GroupByRank(rankOf, mediaData)
  {
    var retval: RankedMedia := [];
    var i := 0;
    while i < |mediaData|
      invariant 0 <= i <= |mediaData|
      invariant GroupByRank(rankOf, mediaData[..i]) == Ok(retval)
    {
      var mediaType, mediaTypeData := mediaData[i].0, mediaData[i].1;
      assert mediaData[..i + 1][..i] == mediaData[..i];
      var rankName := rankOf(mediaType);
      if rankName.Err? {
        GroupErrPersists(rankOf, mediaData, i + 1);
        return Err(rankName.reason);
      }
      var inner := if rankName.value in KeySet(retval) then Latest(retval)[rankName.value] else [];
      retval := Put(retval, rankName.value, Put(inner, mediaType, mediaTypeData));
      i := i + 1;
    }
    assert mediaData[..|mediaData|] == mediaData;
    return Ok(retval);
  }

  /** `getRankedMediaData`: groups the artist's media-name lists (at most
      `MaxMediaNum` names each) by the rank name of their media type. */
  method RankedMediaData(p: MediaMetaProducer, rData: RawRecord) returns (r: Result<RankedMedia>)
    ensures r == RankedMediaSpec(p, rData)
  {
    var names := GetMediaNames(rData, p.maxMediaNum);
    if names.Err? {
      return Err(names.reason);
    }
    r := GroupNames(RankOf(p.rank), names.value);
  }

  // ----- what the grouping means -----

  /** The nested dict as a mapping: rank name -> mediaType -> names. */
  ghost function View(res: RankedMedia): map<string, map<string, seq<Cell>>> {
    ViewOf(Latest(res))
  }

  ghost function ViewOf(m: map<string, TypeNamesDict>): map<string, map<string, seq<Cell>>> {
    map n | n in m :: Latest(m[n])
  }

  lemma ViewOfUpdate(m: map<string, TypeNamesDict>, n: string, x: TypeNamesDict)
    ensures ViewOf(m[n := x]) == ViewOf(m)[n := Latest(x)]
  {
    var lhs, rhs := ViewOf(m[n := x]), ViewOf(m)[n := Latest(x)];
    assert lhs.Keys == rhs.Keys;
    forall q | q in lhs ensures lhs[q] == rhs[q] {
      if q != n {
        assert lhs[q] == Latest(m[q]) == rhs[q];
      }
    }
  }

  /** No rank name twice, and no media type twice under one rank name. */
  ghost predicate WellFormed(res: RankedMedia) {
    UniqueKeys(res) && forall n :: n in Latest(res) ==> UniqueKeys(Latest(res)[n])
  }

  ghost predicate AllRanked(rankOf: string -> Result<string>, m: map<string, seq<Cell>>) {
    forall t :: t in m ==> rankOf(t).Ok?
  }

  ghost function Image(rankOf: string -> Result<string>, m: map<string, seq<Cell>>): set<string> {
    set t | t in m && rankOf(t).Ok? :: rankOf(t).value
  }

  /** The reference grouping: every media type under its rank name, with
      its names, and no rank name without a media type. */
  ghost function Grouped(rankOf: string -> Result<string>, m: map<string, seq<Cell>>): map<string, map<string, seq<Cell>>> {
    map n | n in Image(rankOf, m) :: Group(rankOf, m, n)
  }

  /** The media types under rank name `n`, with their names. */
  ghost function Group(rankOf: string -> Result<string>, m: map<string, seq<Cell>>, n: string): map<string, seq<Cell>> {
    map t | t in m && rankOf(t) == Ok(n) :: m[t]
  }

  /** Setting a media type changes only the group of its own rank name. */
  lemma GroupStep(rankOf: string -> Result<string>, m: map<string, seq<Cell>>, t: string, v: seq<Cell>, n: string)
    ensures Group(rankOf, m[t := v], n) == if rankOf(t) == Ok(n) then Group(rankOf, m, n)[t := v] else Group(rankOf, m, n)
  {
  }

  /** A rank name with a media type is in the image. */
  lemma GroupInImage(rankOf: string -> Result<string>, m: map<string, seq<Cell>>, n: string)
    ensures Group(rankOf, m, n) != map[] ==> n in Image(rankOf, m)
  {
    if Group(rankOf, m, n) != map[] {
      var t :| t in Group(rankOf, m, n);
      assert t in m && rankOf(t) == Ok(n);
      assert rankOf(t).value in Image(rankOf, m);
    }
  }

  /** A rank name outside the image has no media types. */
  lemma GroupOutsideImage(rankOf: string -> Result<string>, m: map<string, seq<Cell>>, n: string)
    requires n !in Image(rankOf, m)
    ensures Group(rankOf, m, n) == map[]
  {
    GroupInImage(rankOf, m, n);
  }

  lemma AddUnderStep(res: RankedMedia, n: string, t: string, v: seq<Cell>)
    requires WellFormed(res)
    ensures WellFormed(AddUnder(res, n, t, v))
    ensures View(AddUnder(res, n, t, v)) == View(res)[n := (if n in View(res) then View(res)[n] else map[])[t := v]]
  {
    var inner := if n in KeySet(res) then Latest(res)[n] else [];
    assert UniqueKeys(inner);
    PutKeys(inner, t, v);
    PutLatest(inner, t, v);
    var x := Put(inner, t, v);
    PutKeys(res, n, x);
    PutLatest(res, n, x);
    var res' := Put(res, n, x);
    assert Latest(res') == Latest(res)[n := x];
    assert Latest(x) == Latest(inner)[t := v];
    ViewOfUpdate(Latest(res), n, x);
    assert Latest(inner) == (if n in View(res) then View(res)[n] else map[]);
  }

  lemma GroupedStep(rankOf: string -> Result<string>, m: map<string, seq<Cell>>, t: string, v: seq<Cell>)
    requires rankOf(t).Ok?
    ensures var r := rankOf(t).value;
      Grouped(rankOf, m[t := v]) == Grouped(rankOf, m)[r := (if r in Grouped(rankOf, m) then Grouped(rankOf, m)[r] else map[])[t := v]]
  {
    var r := rankOf(t).value;
    var m' := m[t := v];
    var g, g' := Grouped(rankOf, m), Grouped(rankOf, m');
    var rhs := g[r := (if r in g then g[r] else map[])[t := v]];
    ImageStep(rankOf, m, t, v);
    assert g'.Keys == rhs.Keys;
    forall n | n in g' ensures g'[n] == rhs[n] {
      GroupStep(rankOf, m, t, v, n);
      if n == r && r !in g {
        GroupOutsideImage(rankOf, m, r);
      }
    }
    assert g' == rhs;
  }

  /** Setting a media type adds its rank name to the image. */
  lemma ImageStep(rankOf: string -> Result<string>, m: map<string, seq<Cell>>, t: string, v: seq<Cell>)
    requires rankOf(t).Ok?
    ensures Image(rankOf, m[t := v]) == Image(rankOf, m) + {rankOf(t).value}
  {
    var m' := m[t := v];
    forall n | n in Image(rankOf, m) ensures n in Image(rankOf, m') {
      var t0 :| t0 in m && rankOf(t0).Ok? && rankOf(t0).value == n;
      assert t0 in m';
    }
    forall n | n in Image(rankOf, m') ensures n in Image(rankOf, m) + {rankOf(t).value} {
      var t0 :| t0 in m' && rankOf(t0).Ok? && rankOf(t0).value == n;
      if t0 != t {
        assert t0 in m;
      }
    }
    assert t in m';
  }

  /** The grouping loop puts each media type's name list, unchanged, under
      exactly the rank name `rankOf` gives it, and nowhere else; it fails
      exactly when `rankOf` fails for some media type. */
  lemma GroupByRankMeaning(rankOf: string -> Result<string>, pairs: TypeNamesDict)
    ensures GroupByRank(rankOf, pairs).Ok? <==> forall i :: 0 <= i < |pairs| ==> rankOf(pairs[i].0).Ok?
    ensures GroupByRank(rankOf, pairs).Ok? ==>
      AllRanked(rankOf, Latest(pairs)) &&
      WellFormed(GroupByRank(rankOf, pairs).value) &&
      View(GroupByRank(rankOf, pairs).value) == Grouped(rankOf, Latest(pairs))
  {
    GroupByRankOk(rankOf, pairs);
    if GroupByRank(rankOf, pairs).Ok? {
      GroupByRankView(rankOf, pairs);
    }
  }

  lemma {:induction false} GroupByRankOk(rankOf: string -> Result<string>, pairs: TypeNamesDict)
    ensures GroupByRank(rankOf, pairs).Ok? <==> forall i :: 0 <= i < |pairs| ==> rankOf(pairs[i].0).Ok?
    decreases |pairs|
  {
    if pairs != [] {
      GroupByRankOk(rankOf, pairs[..|pairs| - 1]);
      GroupByRankUnfold(rankOf, pairs);
      AllRankedSnoc(rankOf, pairs);
    }
  }

  lemma GroupByRankUnfold(rankOf: string -> Result<string>, pairs: TypeNamesDict)
    requires pairs != []
    ensures GroupByRank(rankOf, pairs).Ok? <==>
      GroupByRank(rankOf, pairs[..|pairs| - 1]).Ok? && rankOf(pairs[|pairs| - 1].0).Ok?
  {
  }

  /** `rankOf` succeeds on every media type of the list. */
  predicate EveryRankOk(rankOf: string -> Result<string>, pairs: TypeNamesDict) {
    forall i :: 0 <= i < |pairs| ==> rankOf(pairs[i].0).Ok?
  }

  lemma AllRankedSnoc(rankOf: string -> Result<string>, pairs: TypeNamesDict)
    requires pairs != []
    ensures EveryRankOk(rankOf, pairs) <==>
      EveryRankOk(rankOf, pairs[..|pairs| - 1]) && rankOf(pairs[|pairs| - 1].0).Ok?
  {
    var init := pairs[..|pairs| - 1];
    assert forall i :: 0 <= i < |init| ==> init[i] == pairs[i];
  }

  lemma {:induction false} GroupByRankView(rankOf: string -> Result<string>, pairs: TypeNamesDict)
    requires GroupByRank(rankOf, pairs).Ok?
    ensures AllRanked(rankOf, Latest(pairs))
    ensures WellFormed(GroupByRank(rankOf, pairs).value)
    ensures View(GroupByRank(rankOf, pairs).value) == Grouped(rankOf, Latest(pairs))
    decreases |pairs|
  {
    if pairs == [] {
      assert View([]) == map[];
      assert Grouped(rankOf, map[]) == map[];
    } else {
      var init := pairs[..|pairs| - 1];
      var t, v := pairs[|pairs| - 1].0, pairs[|pairs| - 1].1;
      var g := GroupByRank(rankOf, init);
      assert g.Ok? && rankOf(t).Ok?;
      GroupByRankView(rankOf, init);
      assert Latest(pairs) == Latest(init)[t := v];
      AddUnderStep(g.value, rankOf(t).value, t, v);
      GroupedStep(rankOf, Latest(init), t, v);
    }
  }

  /** Every rank name of the grouping is one `rankOf` gives. */
  lemma {:induction false} GroupedNamesAreRankNames(rankOf: string -> Result<string>, names: set<string>, pairs: TypeNamesDict)
    requires forall t :: rankOf(t).Ok? ==> rankOf(t).value in names
    requires GroupByRank(rankOf, pairs).Ok?
    ensures forall n :: n in KeySet(GroupByRank(rankOf, pairs).value) ==> n in names
    decreases |pairs|
  {
    if pairs != [] {
      var init := pairs[..|pairs| - 1];
      GroupedNamesAreRankNames(rankOf, names, init);
      var g := GroupByRank(rankOf, init).value;
      var (t, v) := pairs[|pairs| - 1];
      var n := rankOf(t).value;
      var inner := if n in KeySet(g) then Latest(g)[n] else [];
      assert GroupByRank(rankOf, pairs).value == Put(g, n, Put(inner, t, v));
      PutKeySet(g, n, Put(inner, t, v));
    }
  }

  /** The rank names `getMediaTypeRank` gives are configured names. */
  lemma RankOfNames(cfg: RankConfig)
    ensures forall t :: RankOf(cfg)(t).Ok? ==> RankOf(cfg)(t).value in RankNameSet(cfg)
  {
    forall t | RankOf(cfg)(t).Ok? ensures RankOf(cfg)(t).value in RankNameSet(cfg) {
      var r := GetMediaTypeRank(cfg, CStr(t));
      var i :| 0 <= i < |cfg.mediaTypes| && cfg.mediaTypes[i].1 == r.value;
    }
  }

  /** In `getRankedMediaData`, each media type of the artist sits under the
      rank name `getMediaTypeRank` gives it, with its name list, and under
      no other rank name. */
  lemma RankedMediaGrouping(p: MediaMetaProducer, rData: RawRecord)
    requires RankedMediaSpec(p, rData).Ok?
    ensures var pairs := MediaNamesSpec(rData, p.maxMediaNum).value;
      View(RankedMediaSpec(p, rData).value) == Grouped(RankOf(p.rank), Latest(pairs))
    ensures forall n :: n in KeySet(RankedMediaSpec(p, rData).value) ==> n in RankNameSet(p.rank)
  {
    var pairs := MediaNamesSpec(rData, p.maxMediaNum).value;
    GroupByRankMeaning(RankOf(p.rank), pairs);
    RankOfNames(p.rank);
    GroupedNamesAreRankNames(RankOf(p.rank), RankNameSet(p.rank), pairs);
  }

  /** With `MaxMediaNum >= 1`, no grouped name list is longer than it. */
  lemma RankedNamesBounded(p: MediaMetaProducer, rData: RawRecord)
    requires p.maxMediaNum >= 1 && RankedMediaSpec(p, rData).Ok?
    ensures forall n, t :: n in View(RankedMediaSpec(p, rData).value) && t in View(RankedMediaSpec(p, rData).value)[n] ==>
      |View(RankedMediaSpec(p, rData).value)[n][t]| <= p.maxMediaNum
  {
    var pairs := MediaNamesSpec(rData, p.maxMediaNum).value;
    GroupByRankMeaning(RankOf(p.rank), pairs);
    MediaNamesBounded(rData, p.maxMediaNum);
    forall t | t in Latest(pairs) ensures |Latest(pairs)[t]| <= p.maxMediaNum {
      LatestValue(pairs, t);
      var i :| 0 <= i < |pairs| && pairs[i] == (t, Latest(pairs)[t]);
      assert pairs[i] in pairs;
    }
  }

  // ---------------------------------------------------------------------
  // getMediaMetaData
  // ---------------------------------------------------------------------

  /** The rank names of the configuration: the result's columns. */
  function RankNameSet(cfg: RankConfig): set<string> {
    set i | 0 <= i < |cfg.mediaTypes| :: cfg.mediaTypes[i].1
  }

  /** The rank names of the configuration without repeats, in order. */
  function RankNames(cfg: RankConfig): (r: seq<string>)
    ensures forall n :: n in r <==> n in RankNameSet(cfg)
    ensures forall i, j :: 0 <= i < j < |r| ==> r[i] != r[j]
  {
    var names := seq(|cfg.mediaTypes|, i requires 0 <= i < |cfg.mediaTypes| => cfg.mediaTypes[i].1);
    assert forall n :: n in names <==> n in RankNameSet(cfg) by {
      forall n | n in RankNameSet(cfg) ensures n in names {
        var i :| 0 <= i < |cfg.mediaTypes| && cfg.mediaTypes[i].1 == n;
        assert names[i] == n;
      }
    }
    Dedup(names)
  }

  /** A nested dict as a table cell: mediaType -> list of names. */
  function ToCell(d: TypeNamesDict): (c: Cell)
    ensures c.CDict? && |c.entries| == |d|
    ensures forall i :: 0 <= i < |d| ==> c.entries[i] == (d[i].0, CList(d[i].1))
  {
    CDict(seq(|d|, i requires 0 <= i < |d| => (d[i].0, CList(d[i].1))))
  }

  /** The rank table under construction: rank name -> artist -> cell. */
  type RankTable = map<string, map<ArtistID, Cell>>

  /** The rows of artist `a` after its ranked media is written: every rank
      name it has gets its media, or `None` in every column when it has no
      media at all. An artist's earlier cells in other columns stay. */
  function WriteArtist(state: RankTable, a: ArtistID, ranked: RankedMedia): (r: RankTable)
    ensures r.Keys == state.Keys
  {
    if ranked == [] then map n | n in state :: state[n][a := CNone]
    else map n | n in state :: if n in KeySet(ranked) then state[n][a := ToCell(Latest(ranked)[n])] else state[n]
  }

  /** What `getMediaMetaData` builds, row by row of the shard. */
  function MetaSpec(p: MediaMetaProducer, rows: seq<(ArtistID, RawRecord)>): (r: Result<RankTable>)
    ensures r.Ok? ==> r.value.Keys == RankNameSet(p.rank)
    decreases |rows|
  {
    if rows == [] then Ok(map n | n in RankNameSet(p.rank) :: map[])
    else
      var init := MetaSpec(p, rows[..|rows| - 1]);
      var (a, rData) := rows[|rows| - 1];
      var ranked := RankedMediaSpec(p, rData);
      if init.Err? then init
      else if ranked.Err? then Err(ranked.reason)
      else Ok(WriteArtist(init.value, a, ranked.value))
  }

  /** The shard's rank table: the rank-name columns, in configuration
      order, and their cells. */
  datatype MetaFrame = MetaFrame(cols: seq<string>, cells: RankTable)

  lemma {:induction false} MetaErrPersists(p: MediaMetaProducer, rows: seq<(ArtistID, RawRecord)>, j: nat)
    requires j <= |rows| && MetaSpec(p, rows[..j]).Err?
    ensures MetaSpec(p, rows) == MetaSpec(p, rows[..j])
    decreases |rows|
  {
    if j < |rows| {
      var init := rows[..|rows| - 1];
      assert init[..j] == rows[..j];
      MetaErrPersists(p, init, j);
    } else {
      assert rows[..j] == rows;
    }
  }

  /** The inner loop over a non-empty ranked media dict. */
  method WriteRanked(state: RankTable, a: ArtistID, ranked: RankedMedia) returns (r: RankTable)
    requires forall n :: n in KeySet(ranked) ==> n in state
    requires ranked != []
    ensures r == WriteArtist(state, a, ranked)
  {
    r := state;
    var j := 0;
    while j < |ranked|
      invariant 0 <= j <= |ranked|
      invariant r == map n | n in state :: if n in KeySet(ranked[..j]) then state[n][a := ToCell(Latest(ranked[..j])[n])] else state[n]
    {
      var rankName, data := ranked[j].0, ranked[j].1;
      assert ranked[..j + 1][..j] == ranked[..j];
      assert KeySet(ranked[..j + 1]) == KeySet(ranked[..j]) + {rankName};
      assert rankName in KeySet(ranked);
      r := r[rankName := state[rankName][a := ToCell(data)]];
      j := j + 1;
    }
    assert ranked[..j] == ranked;
  }

  function NamesUpTo(cfg: RankConfig, k: int): set<string> {
    set i | 0 <= i < k && i < |cfg.mediaTypes| :: cfg.mediaTypes[i].1
  }

  /** The inner loop for an artist without media: `None` under every rank
      name of the configuration. */
  method WriteNone(cfg: RankConfig, state: RankTable, a: ArtistID) returns (r: RankTable)
    requires state.Keys == RankNameSet(cfg)
    ensures r == WriteArtist(state, a, [])
  {
    r := state;
    var k := 0;
    while k < |cfg.mediaTypes|
      invariant 0 <= k <= |cfg.mediaTypes|
      invariant r.Keys == state.Keys
      invariant forall n :: n in state ==> r[n] == if n in NamesUpTo(cfg, k) then state[n][a := CNone] else state[n]
    {
      var rankName := cfg.mediaTypes[k].1;
      assert NamesUpTo(cfg, k + 1) == NamesUpTo(cfg, k) + {rankName};
      r := r[rankName := state[rankName][a := CNone]];
      k := k + 1;
    }
    assert NamesUpTo(cfg, k) == RankNameSet(cfg);
    assert r == WriteArtist(state, a, []);
  }

  /** `getMediaMetaData`: one column per rank name; each artist gets its
      ranked media under the rank names it has, or `None` everywhere when
      it has no media. */
  method MediaMetaData(p: MediaMetaProducer, modValData: seq<(ArtistID, RawRecord)>) returns (r: Result<MetaFrame>)
    ensures r.Ok? <==> MetaSpec(p, modValData).Ok?
    ensures r.Ok? ==> r.value == MetaFrame(RankNames(p.rank), MetaSpec(p, modValData).value)
    ensures r.Err? ==> r == Err(MetaSpec(p, modValData).reason)
  {
    var mediaRankData: RankTable := map n | n in RankNameSet(p.rank) :: map[];
    var i := 0;
    while i < |modValData|
      invariant 0 <= i <= |modValData|
      invariant MetaSpec(p, modValData[..i]) == Ok(mediaRankData)
    {
      var artistID, artistIDData := modValData[i].0, modValData[i].1;
      assert modValData[..i + 1][..i] == modValData[..i];
      var rankedMediaData := RankedMediaData(p, artistIDData);
      if rankedMediaData.Err? {
        MetaErrPersists(p, modValData, i + 1);
        return Err(rankedMediaData.reason);
      }
      if |rankedMediaData.value| > 0 {
        RankedMediaGrouping(p, artistIDData);
        mediaRankData := WriteRanked(mediaRankData, artistID, rankedMediaData.value);
      } else {
        mediaRankData := WriteNone(p.rank, mediaRankData, artistID);
      }
      i := i + 1;
    }
    assert modValData[..|modValData|] == modValData;
    return Ok(MetaFrame(RankNames(p.rank), mediaRankData));
  }

  // ----- what the rank table means -----

  function ArtistIDs(rows: seq<(ArtistID, RawRecord)>): set<ArtistID> {
    set i | 0 <= i < |rows| :: rows[i].0
  }

  /** An artist the shard does not list has no cell in any column. */
  lemma {:induction false} AbsentArtistHasNoCells(p: MediaMetaProducer, rows: seq<(ArtistID, RawRecord)>, a: ArtistID)
    requires MetaSpec(p, rows).Ok? && a !in ArtistIDs(rows)
    ensures forall n :: n in MetaSpec(p, rows).value ==> a !in MetaSpec(p, rows).value[n]
    decreases |rows|
  {
    if rows != [] {
      var init := rows[..|rows| - 1];
      assert a !in ArtistIDs(init) by {
        forall i | 0 <= i < |init| ensures init[i].0 != a {
          assert init[i] == rows[i];
          assert rows[i].0 in ArtistIDs(rows);
        }
      }
      AbsentArtistHasNoCells(p, init, a);
      assert rows[|rows| - 1].0 != a;
    }
  }

  /** The last row of the shard decides its artist's cells: with no ranked
      media, `None` in every rank-name column; otherwise its ranked media
      in the columns of the rank names it has, and, for an artist not seen
      earlier in the shard, nothing in the other columns. */
  lemma ArtistRow(p: MediaMetaProducer, rows: seq<(ArtistID, RawRecord)>, a: ArtistID, rData: RawRecord)
    requires MetaSpec(p, rows + [(a, rData)]).Ok?
    ensures var t := MetaSpec(p, rows + [(a, rData)]).value;
      RankedMediaSpec(p, rData) == Ok([]) ==> forall n :: n in RankNameSet(p.rank) ==> a in t[n] && t[n][a] == CNone
    ensures var t := MetaSpec(p, rows + [(a, rData)]).value;
      var ranked := RankedMediaSpec(p, rData).value;
      ranked != [] ==> forall n :: n in KeySet(ranked) ==> n in t && a in t[n] && t[n][a] == ToCell(Latest(ranked)[n])
    ensures var t := MetaSpec(p, rows + [(a, rData)]).value;
      var ranked := RankedMediaSpec(p, rData).value;
      ranked != [] && a !in ArtistIDs(rows) ==> forall n :: n in t && n !in KeySet(ranked) ==> a !in t[n]
  {
    var all := rows + [(a, rData)];
    assert all[..|all| - 1] == rows;
    var ranked := RankedMediaSpec(p, rData).value;
    if ranked != [] {
      RankedMediaGrouping(p, rData);
      if a !in ArtistIDs(rows) {
        AbsentArtistHasNoCells(p, rows, a);
      }
    }
  }
}
