/** The shared producer bases: the omit test of `MatchOmitBase`, the
    progress schedule of `SummaryProducerBase`, the media-type rank
    classifier of `MediaTypeRankBase`, and the raw-record accessors and
    media-name extraction of `MetaProducerUtilBase`. */
module ProdBase {
  import opened Values

  // =====================================================================
  // MatchOmitBase
  // =====================================================================

  /** `MatchOmitBase.isValid`: `not omit.get(dbid, False)`. */
  function OmitIsValid(omit: map<ArtistID, Cell>, dbid: ArtistID): (r: bool)
    ensures r <==> dbid !in omit || !Truthy(omit[dbid])
  {
    !Truthy(if dbid in omit then omit[dbid] else CBool(false))
  }

  // =====================================================================
  // SummaryProducerBase
  // =====================================================================

  /** `isUpdateModVal(n)`: whether progress is reported after shard `n`. */
  function IsUpdateModVal(verbose: bool, n: int): (r: bool)
    ensures !verbose ==> !r
    ensures r ==> n == 4 || (n + 1) % 25 == 0
  {
    if !verbose then false else (n + 1) % 25 == 0 || n + 1 == 5
  }

  /** When verbose, reports come at shards 4, 24, 49, 74, ...: after the
      first two, one every 25 shards and none in between. */
  lemma {:induction false} UpdateModValSpacing(n: int)
    requires n >= 5 && IsUpdateModVal(true, n)
    ensures IsUpdateModVal(true, n + 25)
    ensures forall j :: n < j < n + 25 ==> !IsUpdateModVal(true, j)
  {
    var k := (n + 1) / 25;
    assert n + 1 == 25 * k;
    assert (n + 26) % 25 == 0 by { assert n + 26 == 25 * (k + 1); }
    forall j | n < j < n + 25 ensures !IsUpdateModVal(true, j) {
      assert 25 * k < j + 1 < 25 * (k + 1);
      assert j + 1 == 25 * k + (j - n);
      assert (j + 1) % 25 == j - n;
    }
  }

  /** When verbose, progress is reported after shard 4 and after every
      shard one before a multiple of 25. */
  lemma UpdateModValReports(k: nat)
    ensures IsUpdateModVal(true, 4)
    ensures IsUpdateModVal(true, 25 * k + 24)
  {
    assert 25 * k + 24 + 1 == 25 * (k + 1);
  }

  // =====================================================================
  // MediaTypeRankBase
  // =====================================================================

  /** The rank configuration: `mediaTypes` (rank -> rank name, from the
      master configuration) and `mediaRanking` (rank -> tags). Both are
      dicts, kept here in insertion order. */
  datatype RankConfig = RankConfig(mediaTypes: seq<(int, string)>, ranking: seq<(int, seq<string>)>)

  /** The output buckets of `sortMediaData`: a rank, or "Remaining". */
  datatype Bucket = Ranked(rank: int) | Remaining

  /** `mediaRanking` as `__init__` leaves it: every rank, no tags. */
  function DefaultRanking(mediaTypes: seq<(int, string)>): (r: seq<(int, seq<string>)>)
    ensures |r| == |mediaTypes|
    ensures forall i :: 0 <= i < |r| ==> r[i] == (mediaTypes[i].0, [])
  {
    seq(|mediaTypes|, i requires 0 <= i < |mediaTypes| => (mediaTypes[i].0, []))
  }

  function MaxKey<V>(d: seq<(int, V)>): (m: int)
    requires d != []
    ensures m in KeySet(d) && forall k :: k in KeySet(d) ==> k <= m
  {
    if |d| == 1 then d[0].0
    else
      var m := MaxKey(d[1..]);
      assert KeySet(d) == {d[0].0} + KeySet(d[1..]) by {
        forall k | k in KeySet(d) ensures k in {d[0].0} + KeySet(d[1..]) {
          var i :| 0 <= i < |d| && d[i].0 == k;
          if i > 0 { assert d[1..][i - 1] == d[i]; }
        }
        forall k | k in KeySet(d[1..]) ensures k in KeySet(d) {
          var i :| 0 <= i < |d[1..]| && d[1..][i].0 == k;
          assert d[i + 1] == d[1..][i];
        }
      }
      if d[0].0 > m then d[0].0 else m
  }

  /** `self.last = Series(self.mediaTypes).index.max()`: the largest rank,
      NaN (here `None`) when there are no media types. */
  function Last(cfg: RankConfig): (r: Option<int>)
    ensures r.None? <==> cfg.mediaTypes == []
    ensures r.Some? ==> (r.value in KeySet(cfg.mediaTypes) &&
      forall k :: k in KeySet(cfg.mediaTypes) ==> k <= r.value)
  {
    if cfg.mediaTypes == [] then None else Some(MaxKey(cfg.mediaTypes))
  }

  /** Some tag of the list is a substring of the text. */
  predicate AnyTagIn(text: string, tags: seq<string>) {
    exists t :: t in tags && Contains(text, t)
  }

  /** The ranks, other than `last`, with at least one positive tag count
      (`values[values > 0]`). */
  function HitRanks(ranking: seq<(int, seq<string>)>, last: Option<int>, text: string): (r: seq<(int, seq<string>)>)
    ensures forall k :: k in KeySet(r) <==>
      exists i :: 0 <= i < |ranking| && ranking[i].0 == k && Some(k) != last && AnyTagIn(text, ranking[i].1)
  {
    if ranking == [] then []
    else
      var rest := HitRanks(ranking[1..], last, text);
      var here := if Some(ranking[0].0) != last && AnyTagIn(text, ranking[0].1) then [ranking[0]] else [];
      KeySetAppend(here, rest);
      forall k ensures (exists i :: 0 <= i < |ranking| && ranking[i].0 == k && Some(k) != last && AnyTagIn(text, ranking[i].1))
        <==> (k in KeySet(here) || exists i :: 0 <= i < |ranking[1..]| && ranking[1..][i].0 == k && Some(k) != last && AnyTagIn(text, ranking[1..][i].1))
      {
        if exists i :: 0 <= i < |ranking| && ranking[i].0 == k && Some(k) != last && AnyTagIn(text, ranking[i].1) {
          var i :| 0 <= i < |ranking| && ranking[i].0 == k && Some(k) != last && AnyTagIn(text, ranking[i].1);
          if i > 0 { assert ranking[1..][i - 1] == ranking[i]; }
          else { assert here == [ranking[0]] && here[0].0 == k; }
        }
        if exists i :: 0 <= i < |ranking[1..]| && ranking[1..][i].0 == k && Some(k) != last && AnyTagIn(text, ranking[1..][i].1) {
          var i :| 0 <= i < |ranking[1..]| && ranking[1..][i].0 == k && Some(k) != last && AnyTagIn(text, ranking[1..][i].1);
          assert ranking[i + 1] == ranking[1..][i];
        }
      }
      here + rest
  }

  /** Where the classifier sends a label: the largest rank with a hit,
      "Remaining" when there is none. */
  function Classify(cfg: RankConfig, last: Option<int>, text: string): Bucket {
    var hits := HitRanks(cfg.ranking, last, text);
    if hits == [] then Remaining else Ranked(MaxKey(hits))
  }

  /** What the classification means: a label goes to the LARGEST rank,
      other than `last`, with a tag occurring in the label, and to
      "Remaining" exactly when no such rank exists. */
  lemma ClassifyFacts(cfg: RankConfig, last: Option<int>, text: string)
    ensures var b := Classify(cfg, last, text);
      b.Ranked? ==> (Some(b.rank) != last &&
        exists i :: 0 <= i < |cfg.ranking| && cfg.ranking[i].0 == b.rank && AnyTagIn(text, cfg.ranking[i].1))
    ensures var b := Classify(cfg, last, text);
      b.Ranked? ==> forall i :: (0 <= i < |cfg.ranking| && Some(cfg.ranking[i].0) != last &&
        AnyTagIn(text, cfg.ranking[i].1)) ==> cfg.ranking[i].0 <= b.rank
    ensures Classify(cfg, last, text) == Remaining <==>
      forall i :: 0 <= i < |cfg.ranking| && Some(cfg.ranking[i].0) != last ==> !AnyTagIn(text, cfg.ranking[i].1)
  {
    var hits := HitRanks(cfg.ranking, last, text);
    if hits == [] {
      forall i | 0 <= i < |cfg.ranking| && Some(cfg.ranking[i].0) != last
        ensures !AnyTagIn(text, cfg.ranking[i].1)
      {
        assert cfg.ranking[i].0 !in KeySet(hits);
      }
    } else {
      assert forall i :: (0 <= i < |cfg.ranking| && Some(cfg.ranking[i].0) != last &&
        AnyTagIn(text, cfg.ranking[i].1)) ==> cfg.ranking[i].0 in KeySet(hits);
      assert hits[0].0 in KeySet(hits);
    }
  }

  /** The classifier of a configuration, as a function on labels. */
  function Classifier(cfg: RankConfig): string -> Bucket {
    l => Classify(cfg, Last(cfg), l)
  }

  /** The labels of `counts` that a classifier sends to bucket `b`, with
      their counts. */
  function BucketOf(cls: string -> Bucket, counts: map<string, int>, b: Bucket): (r: map<string, int>)
    ensures forall l :: l in r <==> l in counts && cls(l) == b
    ensures forall l :: l in r ==> r[l] == counts[l]
  {
    map l | l in counts && cls(l) == b :: counts[l]
  }

  /** The buckets `sortMediaData` reports: every rank of `mediaRanking`
      except the last, and "Remaining". */
  function ReportedBuckets(cfg: RankConfig, last: int): set<Bucket> {
    (set k | k in KeySet(cfg.ranking) && k != last :: Ranked(k)) + {Remaining}
  }

  /** Adding one label to the counts changes only the bucket it is
      classified to. */
  lemma BucketStep(cls: string -> Bucket, counts: map<string, int>, l: string, c: int, b: Bucket)
    ensures BucketOf(cls, counts[l := c], b) ==
      if cls(l) == b then BucketOf(cls, counts, b)[l := c] else BucketOf(cls, counts, b)
  {
  }

  /** The last rank's bucket is always empty: it takes no part in the
      classification. */
  lemma LastBucketEmpty(cfg: RankConfig, counts: map<string, int>)
    requires Last(cfg).Some?
    ensures BucketOf(Classifier(cfg), counts, Ranked(Last(cfg).value)) == map[]
  {
    forall l | l in counts ensures Classifier(cfg)(l) != Ranked(Last(cfg).value) {
      var b := Classify(cfg, Last(cfg), l);
    }
  }

  /** A rank the classifier picks is one of the ranking's keys. */
  lemma ClassifiedRankIsKey(cfg: RankConfig, last: Option<int>, text: string)
    ensures Classify(cfg, last, text).Ranked? ==> Classify(cfg, last, text).rank in KeySet(cfg.ranking)
  {
  }

  /** The state of the `sortMediaData` loop: each rank's dict and
      `remaining` hold exactly the labels seen so far classified there. */
  ghost predicate TallyInv(cls: string -> Bucket, results: map<int, map<string, int>>, remaining: map<string, int>,
                           seen: map<string, int>) {
    (forall k :: k in results ==> results[k] == BucketOf(cls, seen, Ranked(k))) &&
    remaining == BucketOf(cls, seen, Remaining)
  }

  /** One iteration of the loop keeps its state. */
  lemma TallyStep(cls: string -> Bucket, results: map<int, map<string, int>>, remaining: map<string, int>,
                  seen: map<string, int>, l: string, c: int)
    requires TallyInv(cls, results, remaining, seen)
    requires cls(l).Ranked? ==> cls(l).rank in results
    ensures cls(l).Ranked? ==>
      TallyInv(cls, results[cls(l).rank := results[cls(l).rank][l := c]], remaining, seen[l := c])
    ensures cls(l) == Remaining ==> TallyInv(cls, results, remaining[l := c], seen[l := c])
  {
    forall k | k in results {
      BucketStep(cls, seen, l, c, Ranked(k));
    }
    BucketStep(cls, seen, l, c, Remaining);
  }

  /** The loop of `sortMediaData`: every rank of `mediaRanking` gets the
      labels classified to it, "Remaining" the others; a repeated label
      keeps its last count. */
  method TallyMediaData(cfg: RankConfig, mediaData: seq<(string, int)>)
    returns (results: map<int, map<string, int>>, remaining: map<string, int>)
    ensures results.Keys == KeySet(cfg.ranking)
    ensures TallyInv(Classifier(cfg), results, remaining, Latest(mediaData))
  {
    results := map k | k in KeySet(cfg.ranking) :: map[];
    remaining := map[];
    ghost var seen: map<string, int> := map[];
    var i := 0;
    while i < |mediaData|
      invariant 0 <= i <= |mediaData|
      invariant seen == Latest(mediaData[..i])
      invariant results.Keys == KeySet(cfg.ranking)
      invariant TallyInv(Classifier(cfg), results, remaining, seen)
    {
      var mediaType, cnt := mediaData[i].0, mediaData[i].1;
      assert mediaData[..i + 1][..i] == mediaData[..i];
      assert Latest(mediaData[..i + 1]) == seen[mediaType := cnt];
      var b := Classify(cfg, Last(cfg), mediaType);
      ghost var cls := Classifier(cfg);
      assert cls(mediaType) == b;
      ClassifiedRankIsKey(cfg, Last(cfg), mediaType);
      TallyStep(cls, results, remaining, seen, mediaType, cnt);
      if b.Ranked? {
        results := results[b.rank := results[b.rank][mediaType := cnt]];
      } else {
        remaining := remaining[mediaType := cnt];
      }
      seen := seen[mediaType := cnt];
      i := i + 1;
    }
    assert mediaData[..|mediaData|] == mediaData;
  }

  /** `sortMediaData`: partitions a label -> count Series into the
      configured ranks (except the last) and "Remaining". It fails with
      KeyError when there is no last rank among the ranking's keys. */
  method SortMediaData(cfg: RankConfig, mediaData: seq<(string, int)>) returns (r: Result<map<Bucket, map<string, int>>>)
    ensures r.Err? <==> Last(cfg).None? || Last(cfg).value !in KeySet(cfg.ranking)
    ensures r.Ok? ==> r.value.Keys == ReportedBuckets(cfg, Last(cfg).value)
    ensures r.Ok? ==> forall b :: b in r.value ==> r.value[b] == BucketOf(Classifier(cfg), Latest(mediaData), b)
  {
    var last := Last(cfg);
    var results, remaining := TallyMediaData(cfg, mediaData);
    if last.None? || last.value !in results {
      return Err("KeyError");
    }
    ghost var cls, counts := Classifier(cfg), Latest(mediaData);
    LastBucketEmpty(cfg, counts);
    assert results[last.value] == map[];
    remaining := remaining + results[last.value];
    assert remaining == BucketOf(cls, counts, Remaining);
    var out: map<Bucket, map<string, int>> := map k | k in results && k != last.value :: Ranked(k) := results[k];
    out := out[Remaining := remaining];
    assert out.Keys == ReportedBuckets(cfg, last.value) by {
      forall b | b in ReportedBuckets(cfg, last.value) ensures b in out {
        if b.Ranked? { assert b.rank in results; }
      }
    }
    forall b | b in out ensures out[b] == BucketOf(cls, counts, b) {
      if b.Ranked? {
        assert b.rank in results && out[b] == results[b.rank];
      }
    }
    return Ok(out);
  }

  /** `getMediaTypeRank`: the name of the rank a text is classified to;
      the last rank's name for an unmatched text or a non-string. Fails
      with KeyError when that rank has no name. */
  function GetMediaTypeRank(cfg: RankConfig, mediaType: Cell): (r: Result<string>)
    ensures r.Ok? ==> exists i :: 0 <= i < |cfg.mediaTypes| && cfg.mediaTypes[i].1 == r.value
    ensures !mediaType.CStr? ==> r == (if Last(cfg).None? then Err("KeyError") else Ok(Latest(cfg.mediaTypes)[Last(cfg).value]))
  {
    var last := Last(cfg);
    var bucket := if mediaType.CStr? then Classify(cfg, last, mediaType.s) else Remaining;
    var rank := if bucket.Ranked? then Some(bucket.rank) else last;
    if rank.Some? && rank.value in KeySet(cfg.mediaTypes) then
      var names := Latest(cfg.mediaTypes);
      LatestValue(cfg.mediaTypes, rank.value);
      Ok(names[rank.value])
    else Err("KeyError")
  }

  /** The rank name `getMediaTypeRank` gives a string text is the name of
      the bucket `sortMediaData` puts it in; "Remaining" labels get the last
      rank's name. */
  lemma RankNameOfBucket(cfg: RankConfig, text: string)
    requires Last(cfg).Some?
    ensures Classify(cfg, Last(cfg), text).Ranked? && Classify(cfg, Last(cfg), text).rank in KeySet(cfg.mediaTypes) ==>
      GetMediaTypeRank(cfg, CStr(text)) == Ok(Latest(cfg.mediaTypes)[Classify(cfg, Last(cfg), text).rank])
    ensures Classify(cfg, Last(cfg), text) == Remaining ==>
      GetMediaTypeRank(cfg, CStr(text)) == Ok(Latest(cfg.mediaTypes)[Last(cfg).value])
  {
  }

  /** A text that tags of two ranks match goes to the larger rank, however
      many tags each matches. */
  lemma LargestRankWins(cfg: RankConfig, text: string, i: nat, j: nat)
    requires i < |cfg.ranking| && j < |cfg.ranking|
    requires cfg.ranking[i].0 < cfg.ranking[j].0
    requires Some(cfg.ranking[j].0) != Last(cfg)
    requires AnyTagIn(text, cfg.ranking[i].1) && AnyTagIn(text, cfg.ranking[j].1)
    ensures Classify(cfg, Last(cfg), text) != Ranked(cfg.ranking[i].0)
  {
  }

  /** Every text of the input lands in exactly one reported bucket, with
      the count `dict` keeps for it. */
  lemma SortPartitions(cfg: RankConfig, mediaData: seq<(string, int)>, out: map<Bucket, map<string, int>>, text: string)
    requires Last(cfg).Some? && Last(cfg).value in KeySet(cfg.ranking)
    requires out.Keys == ReportedBuckets(cfg, Last(cfg).value)
    requires forall b :: b in out ==> out[b] == BucketOf(Classifier(cfg), Latest(mediaData), b)
    requires text in KeySet(mediaData)
    ensures exists b :: b in out && text in out[b] && out[b][text] == Latest(mediaData)[text]
    ensures forall b1, b2 :: b1 in out && b2 in out && text in out[b1] && text in out[b2] ==> b1 == b2
  {
    var b := Classify(cfg, Last(cfg), text);
    assert b in out by {
      if b.Ranked? {
        var i :| 0 <= i < |cfg.ranking| && cfg.ranking[i].0 == b.rank && AnyTagIn(text, cfg.ranking[i].1);
      }
    }
    assert text in out[b];
  }

  /** With the tag lists `__init__` leaves (all empty) nothing matches:
      every text is "Remaining". */
  lemma DefaultRankingIsRemaining(mediaTypes: seq<(int, string)>, text: string)
    ensures Classify(RankConfig(mediaTypes, DefaultRanking(mediaTypes)), Last(RankConfig(mediaTypes, DefaultRanking(mediaTypes))), text) == Remaining
  {
    var cfg := RankConfig(mediaTypes, DefaultRanking(mediaTypes));
    forall i | 0 <= i < |cfg.ranking| ensures !AnyTagIn(text, cfg.ranking[i].1) {
      assert cfg.ranking[i].1 == [];
    }
  }

  // =====================================================================
  // MetaProducerUtilBase: raw records
  // =====================================================================

  /** One release of an artist's media; `None` for an attribute it lacks. */
  datatype MediaItem = MediaItem(album: Option<Cell>, name: Option<Cell>)

  /** The releases of one media type: a dict mediaID -> release, or some
      other object. */
  datatype TypeValue = TypeDict(items: seq<(string, MediaItem)>) | TypeNotDict

  /** The media of an artist: a dict mediaType -> releases, or some other
      object. */
  datatype MediaValue = MediaDict(types: seq<(string, TypeValue)>) | MediaNotDict

  /** `rData.profile`: its sub-objects, `None` when an attribute is missing. */
  datatype Profile = Profile(extra: Option<Cell>, general: Option<Cell>, external: Option<Cell>,
                             genres: Option<Cell>, tags: Option<Cell>)

  /** A raw per-artist record. `className` is its class name ("RawData" for
      a full record); `media` is `rData.media.media` (outer `None`: no
      `media` attribute, inner `None`: it has no `media` of its own);
      `artistName`, `url` and `mediaCounts` are `rData.artist.name`,
      `rData.url.url` and the values of `rData.mediaCounts.counts`. */
  datatype RawRecord = RawRecord(className: string, profile: Option<Profile>, media: Option<Option<MediaValue>>,
                                 artistName: Option<Cell>, url: Option<Cell>, mediaCounts: Option<seq<int>>)

  predicate IsRawData(rData: RawRecord) {
    rData.className == "RawData"
  }

  /** `getProfileData`: the profile of a RawData record, else `None`. */
  function GetProfileData(rData: RawRecord): (r: Option<Profile>)
    ensures r.Some? ==> IsRawData(rData) && rData.profile == r
  {
    if IsRawData(rData) then rData.profile else None
  }

  function OrNone(c: Option<Cell>): Cell {
    if c.Some? then c.value else CNone
  }

  /** `d.get(key, default)` if `d` is a dict, else `default`. */
  function DictGet(d: Cell, key: string, default: Cell): (r: Cell)
    ensures r != default ==> d.CDict? && key in KeySet(d.entries)
  {
    if d.CDict? && key in KeySet(d.entries) then Latest(d.entries)[key] else default
  }

  function GetExtraDictData(rData: RawRecord): Cell {
    var p := GetProfileData(rData);
    if p.Some? then OrNone(p.value.extra) else CNone
  }

  function GetGeneralDictData(rData: RawRecord): Cell {
    var p := GetProfileData(rData);
    if p.Some? then OrNone(p.value.general) else CNone
  }

  function GetExternalDictData(rData: RawRecord): Cell {
    var p := GetProfileData(rData);
    if p.Some? then OrNone(p.value.external) else CNone
  }

  /** `getExtraData`: `default` unless the record is RawData with a profile
      whose `extra` is a dict holding `key`. */
  function GetExtraData(rData: RawRecord, key: string, default: Cell): (r: Cell)
    ensures r != default ==> (IsRawData(rData) && rData.profile.Some? && rData.profile.value.extra.Some? &&
      rData.profile.value.extra.value.CDict? && key in KeySet(rData.profile.value.extra.value.entries))
  {
    DictGet(GetExtraDictData(rData), key, default)
  }

  /** `getGeneralData`: as `getExtraData`, on `profile.general`. */
  function GetGeneralData(rData: RawRecord, key: string, default: Cell): (r: Cell)
    ensures r != default ==> (IsRawData(rData) && rData.profile.Some? && rData.profile.value.general.Some? &&
      rData.profile.value.general.value.CDict? && key in KeySet(rData.profile.value.general.value.entries))
  {
    DictGet(GetGeneralDictData(rData), key, default)
  }

  /** `getExternalData`: as `getExtraData`, on `profile.external`. */
  function GetExternalData(rData: RawRecord, key: string, default: Cell): (r: Cell)
    ensures r != default ==> (IsRawData(rData) && rData.profile.Some? && rData.profile.value.external.Some? &&
      rData.profile.value.external.value.CDict? && key in KeySet(rData.profile.value.external.value.entries))
  {
    DictGet(GetExternalDictData(rData), key, default)
  }

  /** `getGenresData`: `profile.genres` of a RawData record when present,
      whatever its type; `default` otherwise. */
  function GetGenresData(rData: RawRecord, default: Cell): (r: Cell)
    ensures (IsRawData(rData) && rData.profile.Some? && rData.profile.value.genres.Some?) ==>
      r == rData.profile.value.genres.value
    ensures !(IsRawData(rData) && rData.profile.Some? && rData.profile.value.genres.Some?) ==> r == default
  {
    var p := GetProfileData(rData);
    if p.Some? && p.value.genres.Some? then p.value.genres.value else default
  }

  /** `getTagsData`: as `getGenresData`, on `profile.tags`. */
  function GetTagsData(rData: RawRecord, default: Cell): (r: Cell)
    ensures (IsRawData(rData) && rData.profile.Some? && rData.profile.value.tags.Some?) ==>
      r == rData.profile.value.tags.value
    ensures !(IsRawData(rData) && rData.profile.Some? && rData.profile.value.tags.Some?) ==> r == default
  {
    var p := GetProfileData(rData);
    if p.Some? && p.value.tags.Some? then p.value.tags.value else default
  }

  /** `getMediaData`: `rData.media.media` of a RawData record when both
      attributes exist, `default` otherwise. */
  function GetMediaData(rData: RawRecord, default: MediaValue): (r: MediaValue)
    ensures (IsRawData(rData) && rData.media.Some? && rData.media.value.Some?) ==> r == rData.media.value.value
    ensures !(IsRawData(rData) && rData.media.Some? && rData.media.value.Some?) ==> r == default
  {
    if IsRawData(rData) && rData.media.Some? && rData.media.value.Some? then rData.media.value.value else default
  }

  /** `getMediaDates`: returns `{}` at once; the release years below its
      `return` are never read. */
  function GetMediaDates(rData: RawRecord): seq<(string, seq<Cell>)> {
    []
  }

  // =====================================================================
  // MetaProducerUtilBase.getMediaNames
  // =====================================================================

  /** What one release contributes to its type's name list: its `album`,
      else its `name`, else nothing. */
  function NameOf(item: MediaItem): (r: seq<Cell>)
    ensures item.album.Some? ==> r == [item.album.value]
    ensures item.album.None? && item.name.Some? ==> r == [item.name.value]
    ensures item.album.None? && item.name.None? ==> r == []
  {
    if item.album.Some? then [item.album.value]
    else if item.name.Some? then [item.name.value]
    else []
  }

  /** The names of all releases, in order, none dropped. */
  function Extracted(items: seq<(string, MediaItem)>): seq<Cell>
    decreases |items|
  {
    if items == [] then [] else Extracted(items[..|items| - 1]) + NameOf(items[|items| - 1].1)
  }

  lemma {:induction false} ExtractedPrefix(items: seq<(string, MediaItem)>, j: nat)
    requires j <= |items|
    ensures Extracted(items[..j]) <= Extracted(items)
    ensures |Extracted(items[..j])| <= |Extracted(items)|
    decreases |items|
  {
    if j < |items| {
      var init := items[..|items| - 1];
      assert init[..j] == items[..j];
      ExtractedPrefix(init, j);
    } else {
      assert items[..j] == items;
    }
  }

  /** The name list of one media type: the first `maxNum` names, or, since
      the length test comes after the first release, the first release's
      name alone when `maxNum < 1`. */
  function TypeNames(t: TypeValue, maxNum: int): seq<Cell> {
    if !t.TypeDict? then []
    else if maxNum >= 1 then Take(Extracted(t.items), maxNum)
    else Extracted(t.items[..if t.items == [] then 0 else 1])
  }

  function TypePairs(types: seq<(string, TypeValue)>, maxNum: int): (r: seq<(string, seq<Cell>)>)
    ensures |r| == |types| && forall i :: 0 <= i < |types| ==> r[i] == (types[i].0, TypeNames(types[i].1, maxNum))
  {
    seq(|types|, i requires 0 <= i < |types| => (types[i].0, TypeNames(types[i].1, maxNum)))
  }

  /** What `getMediaNames(rData, maxNum)` returns: `{}` when the media is
      not a dict; AttributeError when some type's releases are not a dict;
      otherwise every media type with its name list. */
  function MediaNamesSpec(rData: RawRecord, maxNum: int): Result<seq<(string, seq<Cell>)>> {
    var media := GetMediaData(rData, MediaDict([]));
    if !media.MediaDict? then Ok([])
    else if exists i :: 0 <= i < |media.types| && !media.types[i].1.TypeDict? then Err("AttributeError")
    else Ok(FromPairs(TypePairs(media.types, maxNum)))
  }

  /** The inner loop of `getMediaNames`: the album (else name) of each
      release in order, stopping once `maxNum` names are collected; the
      length test follows each release, so one release is always read. */
  method CollectNames(items: seq<(string, MediaItem)>, maxNum: int) returns (names: seq<Cell>)
    ensures names == TypeNames(TypeDict(items), maxNum)
  {
    names := [];
    var j := 0;
    while j < |items|
      invariant 0 <= j <= |items|
      invariant names == Extracted(items[..j])
      invariant maxNum >= 1 ==> |names| < maxNum
      invariant maxNum < 1 ==> j == 0
    {
      var item := items[j].1;
      assert items[..j + 1][..j] == items[..j];
      if item.album.Some? {
        names := names + [item.album.value];
      } else if item.name.Some? {
        names := names + [item.name.value];
      }
      if |names| >= maxNum {
        CollectStops(items, j + 1, maxNum);
        return;
      }
      j := j + 1;
    }
    assert items[..j] == items;
  }

  /** The inner loop stops after `j` releases once `maxNum` names are in,
      or after the first release when `maxNum < 1`. */
  lemma CollectStops(items: seq<(string, MediaItem)>, j: nat, maxNum: int)
    requires 1 <= j <= |items| && |Extracted(items[..j])| >= maxNum
    requires maxNum >= 1 ==> |Extracted(items[..j])| == maxNum
    requires maxNum < 1 ==> j == 1
    ensures Extracted(items[..j]) == TypeNames(TypeDict(items), maxNum)
  {
    if maxNum >= 1 {
      ExtractedPrefix(items, j);
      var e := Extracted(items);
      assert Extracted(items[..j]) == e[..maxNum];
    }
  }

  /** `getMediaNames`: the name list of every media type, in order. */
  method GetMediaNames(rData: RawRecord, maxNum: int) returns (r: Result<seq<(string, seq<Cell>)>>)
    ensures r == MediaNamesSpec(rData, maxNum)
  {
    var media := GetMediaData(rData, MediaDict([]));
    if !media.MediaDict? {
      return Ok([]);
    }
    var types := media.types;
    var retval: seq<(string, seq<Cell>)> := [];
    var i := 0;
    while i < |types|
      invariant 0 <= i <= |types|
      invariant forall k :: 0 <= k < i ==> types[k].1.TypeDict?
      invariant retval == FromPairs(TypePairs(types[..i], maxNum))
    {
      var mediaType, mediaTypeData := types[i].0, types[i].1;
      if !mediaTypeData.TypeDict? {
        assert !media.types[i].1.TypeDict?;
        return Err("AttributeError");
      }
      var names := CollectNames(mediaTypeData.items, maxNum);
      MediaNamesStep(types, i, maxNum);
      retval := Put(retval, mediaType, names);
      assert forall k :: 0 <= k < i + 1 ==> types[k].1.TypeDict? by {
        assert types[i].1.TypeDict?;
      }
      i := i + 1;
    }
    assert types[..|types|] == types;
    return Ok(retval);
  }

  /** One more media type adds its name list to the dict under construction. */
  lemma MediaNamesStep(types: seq<(string, TypeValue)>, i: nat, maxNum: int)
    requires i < |types|
    ensures FromPairs(TypePairs(types[..i + 1], maxNum)) ==
      Put(FromPairs(TypePairs(types[..i], maxNum)), types[i].0, TypeNames(types[i].1, maxNum))
  {
    var pre := TypePairs(types[..i + 1], maxNum);
    assert pre[..i] == TypePairs(types[..i], maxNum);
  }

  lemma FromPairsElems<K, V>(s: seq<(K, V)>)
    ensures forall e :: e in FromPairs(s) ==> e in s
    decreases |s|
  {
    if s != [] {
      var init := s[..|s| - 1];
      FromPairsElems(init);
      var d, last := FromPairs(init), s[|s| - 1];
      forall e | e in Put(d, last.0, last.1) ensures e in s {
        if e != (last.0, last.1) {
          var i :| 0 <= i < |Put(d, last.0, last.1)| && Put(d, last.0, last.1)[i] == e;
          assert e in d;
          assert e in init;
        }
      }
    }
  }

  /** `getMediaNames` keeps every media type as a key, each once; when the
      media dict's keys are distinct (as a dict's are), in their order. */
  lemma MediaNamesKeepsTypes(rData: RawRecord, maxNum: int, types: seq<(string, TypeValue)>)
    requires GetMediaData(rData, MediaDict([])) == MediaDict(types)
    requires MediaNamesSpec(rData, maxNum).Ok?
    ensures KeySet(MediaNamesSpec(rData, maxNum).value) == KeySet(types)
    ensures UniqueKeys(MediaNamesSpec(rData, maxNum).value)
    ensures UniqueKeys(types) ==> (|MediaNamesSpec(rData, maxNum).value| == |types| &&
      forall i :: 0 <= i < |types| ==> MediaNamesSpec(rData, maxNum).value[i] == (types[i].0, TypeNames(types[i].1, maxNum)))
  {
    var pairs := TypePairs(types, maxNum);
    FromPairsFacts(pairs);
    assert KeySet(pairs) == KeySet(types) by {
      forall k | k in KeySet(types) ensures k in KeySet(pairs) {
        var i :| 0 <= i < |types| && types[i].0 == k;
        assert pairs[i].0 == k;
      }
    }
    if UniqueKeys(types) {
      FromPairsOfUnique(pairs);
    }
  }

  /** With `maxNum >= 1` no name list is longer than `maxNum`; with
      `maxNum < 1` none has more than one name. */
  lemma MediaNamesBounded(rData: RawRecord, maxNum: int)
    requires MediaNamesSpec(rData, maxNum).Ok?
    ensures forall e :: e in MediaNamesSpec(rData, maxNum).value ==> |e.1| <= (if maxNum >= 1 then maxNum else 1)
  {
    var media := GetMediaData(rData, MediaDict([]));
    if media.MediaDict? {
      var pairs := TypePairs(media.types, maxNum);
      FromPairsElems(pairs);
      forall e | e in pairs ensures |e.1| <= (if maxNum >= 1 then maxNum else 1) {
        var i :| 0 <= i < |pairs| && pairs[i] == e;
        var t := media.types[i].1;
        if t.TypeDict? && maxNum < 1 {
          var k := if t.items == [] then 0 else 1;
          assert |Extracted(t.items[..k])| <= 1 by {
            if k == 1 {
              assert t.items[..k][..0] == [];
            }
          }
        }
      }
    }
  }
}
