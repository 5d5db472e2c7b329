# dbmeta core, modelled in Dafny

dbmeta builds per-artist metadata, summary and match tables for a music
database. The data is kept in shards ("modVals"), and the work is done by a
set of producers:

- **Media-type rank classifier** (`MediaTypeRankBase`). It sends a media-type
  label to the largest-keyed rank whose tags occur in it. Labels that match
  nothing go to "Remaining".
- **Media names** (`MetaProducerUtilBase.getMediaNames`). It collects the
  album or name of each release per media type, truncated at `maxNum`.
- **Media metadata** (`MediaMetaProducer`). It groups those name lists by
  rank name and writes one column per rank name.
- **Universal metadata** (`UniversalMetaProducer`). It builds the
  ArtistName/URL/NumAlbums table and the min/max/median release years.
- **Summaries** (`SummaryProducerIO`). It folds the per-shard meta tables
  into summary series and tables and saves the non-empty ones. A dispatch
  table is built from the class's `make…SummaryData` methods.
- **Media summaries** (`MediaSummaryProducerBase`). It loads media and
  artist-media tables shard by shard and derives each artist key. It
  left-joins artist media with media once per artist-media name, and merges
  new summary columns into the saved summary tables.
- **Matching** (`MatchProducerIO`, `MusicDBIgnoreData`). It keeps the
  matchable, non-omitted artists of each summary as a match table, and turns
  the manual ignore lists into per-database flag maps.

Every Python file of the core has its own module in the model:

| module | file |
|---|---|
| `Values` | shared helpers: dynamic values, dicts as ordered pairs, `str.split`, sums; `Tables` holds frames and series |
| `ProdBase` | `src/dbmeta/prodbase.py` |
| `MediaMeta` | `src/dbmeta/mediametaprod.py` |
| `Universal` | `src/dbmeta/universalprod.py` |
| `Summary` | `src/dbmeta/summaryprod.py` |
| `MediaSum` | `src/dbmeta/mediasumprod.py` |
| `Match` | `src/dbmeta/matchprod.py` |

How Python is modelled:

- A Python dict that is built in a loop is a sequence of (key, value) pairs
  in insertion order. `Values.Latest` gives the mapping it denotes.
- The shard tables, the media and artist-media tables and the tables built
  from them are `Tables.Frame`s: columns in order and rows with their index
  labels. Duplicate labels are allowed, as `concat` produces them. The saved
  summary tables that `joinSummaryData` reads and writes are instead
  `MediaSum.KTable`s, whose rows are a map keyed by ArtistID. A NaN cell is a
  column missing from the row's map.
- An exception or a failed `assert` is a `Result` error that names the
  exception.
- File reads are store parameters: from a file key (and shard) to the table,
  or `None` when there is no file or no DataFrame. Saves are recorded in a
  `saves` sequence.
- The name standardisers are function parameters.
- Stateful producers are classes. Their fields are the source's fields, and
  their methods are proved against specification functions: the loop of a
  method is proved equal to a recursive function, and the lemmas state what
  that function means.

## Model

| member | source | states |
|---|---|---|
| ProdBase.OmitIsValid | src/dbmeta/prodbase.py:59-61 | An ID is valid exactly when the omit map does not hold a truthy value for it; absent IDs are valid |
| ProdBase.IsUpdateModVal | src/dbmeta/prodbase.py:83-87 | Progress is never reported when not verbose, and when reported the shard is the fifth or one before a multiple of 25; `MediaSummaryProducerBase.isUpdateModVal` is the same rule |
| ProdBase.UpdateModValSpacing | src/dbmeta/prodbase.py:86 | From shard 5 on, reports come exactly every 25 shards with none in between |
| ProdBase.UpdateModValReports | src/dbmeta/prodbase.py:86 | When verbose, progress is reported after shard 4 and after every shard one before a multiple of 25 |
| ProdBase.DefaultRanking | src/dbmeta/prodbase.py:98 | `__init__` gives every rank an empty tag list |
| ProdBase.Last | src/dbmeta/prodbase.py:97 | `last` is the largest rank key, and is missing exactly when there are no media types |
| ProdBase.HitRanks | src/dbmeta/prodbase.py:104-105 | The ranks with a positive tag count are exactly the non-last ranks that have some tag occurring in the label |
| ProdBase.ClassifyFacts | src/dbmeta/prodbase.py:104-109 | A classified label goes to a non-last rank with a matching tag, and no larger such rank exists; it goes to "Remaining" exactly when no non-last rank matches |
| ProdBase.LargestRankWins | src/dbmeta/prodbase.py:104-107 | A label matched by tags of two ranks never goes to the smaller rank, however many tags each matches |
| ProdBase.LastBucketEmpty | src/dbmeta/prodbase.py:104-112 | The last rank's tags are never consulted, so its bucket is always empty |
| ProdBase.DefaultRankingIsRemaining | src/dbmeta/prodbase.py:98-109 | With the tag lists `__init__` leaves, every label lands in "Remaining" |
| ProdBase.BucketOf | src/dbmeta/prodbase.py:107-109 | A bucket holds exactly the labels classified to it, each with its count |
| ProdBase.TallyMediaData | src/dbmeta/prodbase.py:101-109 | After the loop, each rank's dict and `remaining` hold exactly the labels classified there, with the count the dict keeps for each |
| ProdBase.SortMediaData | src/dbmeta/prodbase.py:100-115 | KeyError when there is no last rank among the ranking's keys; otherwise the keys are every rank except the last plus "Remaining", and each bucket is the labels classified to it |
| ProdBase.SortPartitions | src/dbmeta/prodbase.py:103-114 | Every input label is in exactly one reported bucket, with its count unchanged |
| ProdBase.GetMediaTypeRank | src/dbmeta/prodbase.py:117-125 | The result is a configured rank name; a non-string input gives the last rank's name (KeyError when there is none) |
| ProdBase.RankNameOfBucket | src/dbmeta/prodbase.py:117-122 | For a string, the rank name is the name of the rank `sortMediaData` would put it under, or the last rank's name for "Remaining" |
| ProdBase.GetProfileData | src/dbmeta/prodbase.py:155-157 | A profile is returned only for a RawData record that has one |
| ProdBase.DictGet | src/dbmeta/prodbase.py:166 | Anything but the default requires a dict holding the key |
| ProdBase.GetExtraData | src/dbmeta/prodbase.py:159-167 | The default unless the record is RawData with a profile whose `extra` is a dict holding the key |
| ProdBase.GetGeneralData | src/dbmeta/prodbase.py:169-177 | The same rule on `profile.general` |
| ProdBase.GetExternalData | src/dbmeta/prodbase.py:179-187 | The same rule on `profile.external` |
| ProdBase.GetGenresData | src/dbmeta/prodbase.py:189-192 | `profile.genres` of a RawData record whenever present, whatever its type; the default otherwise |
| ProdBase.GetTagsData | src/dbmeta/prodbase.py:194-197 | The same rule on `profile.tags` |
| ProdBase.GetMediaData | src/dbmeta/prodbase.py:199-202 | `rData.media.media` when the record is RawData and both attributes exist; the default otherwise |
| ProdBase.NameOf | src/dbmeta/prodbase.py:212-215 | A release gives its album, else its name, else nothing |
| ProdBase.CollectNames | src/dbmeta/prodbase.py:211-217 | The inner loop yields the names of the first releases in order, stopping at `maxNum` names; for `maxNum < 1` it stops after the first release |
| ProdBase.GetMediaNames | src/dbmeta/prodbase.py:204-218 | Equals the reference result: `{}` when the media is not a dict, AttributeError when some type's releases are not a dict, otherwise each type's name list |
| ProdBase.MediaNamesKeepsTypes | src/dbmeta/prodbase.py:209-210 | Every media type is a key exactly once, and for a dict's distinct keys in the dict's order |
| ProdBase.MediaNamesBounded | src/dbmeta/prodbase.py:216-217 | No list is longer than `maxNum` when `maxNum >= 1`, nor longer than one otherwise |
| MediaMeta.NewMediaMetaProducer | src/dbmeta/mediametaprod.py:10-13 | `MaxMediaNum` defaults to 500 |
| MediaMeta.RankedMediaCounts | src/dbmeta/mediametaprod.py:18-20 | Each rank name keeps its place and counts all the names of its media types |
| MediaMeta.SumLengthsIsFlatLength | src/dbmeta/mediametaprod.py:19 | The sum of the list lengths is the number of names in all lists |
| MediaMeta.GroupNames | src/dbmeta/mediametaprod.py:26-30 | The grouping loop equals the reference grouping, including the first rank-name failure |
| MediaMeta.RankedMediaData | src/dbmeta/mediametaprod.py:22-32 | `getRankedMediaData` groups `getMediaNames(rData, MaxMediaNum)` by rank name |
| MediaMeta.GroupByRankMeaning | src/dbmeta/mediametaprod.py:26-30 | The grouping succeeds exactly when every media type has a rank name; it then puts each type's list, unchanged, under its own rank name and nowhere else, and creates no rank name without a type |
| MediaMeta.RankedMediaGrouping | src/dbmeta/mediametaprod.py:22-32 | Each media type of the artist sits under `getMediaTypeRank(mediaType)`, and every rank name used is a configured one |
| MediaMeta.RankedNamesBounded | src/dbmeta/mediametaprod.py:13-24 | No grouped list is longer than `MaxMediaNum` |
| MediaMeta.RankNames | src/dbmeta/mediametaprod.py:35-45 | The result's columns are the configured rank names, each once |
| MediaMeta.WriteRanked | src/dbmeta/mediametaprod.py:38-40 | An artist with media gets its ranked media under each rank name it has |
| MediaMeta.WriteNone | src/dbmeta/mediametaprod.py:41-43 | An artist without media gets `None` under every rank name |
| MediaMeta.MediaMetaData | src/dbmeta/mediametaprod.py:34-46 | The table equals the row-by-row reference, with the configured rank names as columns |
| MediaMeta.MetaSpec | src/dbmeta/mediametaprod.py:35-43 | The reference table has exactly the configured rank names as columns |
| MediaMeta.ArtistRow | src/dbmeta/mediametaprod.py:37-43 | The last row of an artist decides its cells: `None` everywhere without media; otherwise its media under its rank names, and nothing elsewhere for an artist not seen before |
| MediaMeta.AbsentArtistHasNoCells | src/dbmeta/mediametaprod.py:36-43 | An artist not in the shard has no cell in any column |
| Universal.BasicRow | src/dbmeta/universalprod.py:20-25 | A row exists exactly when name, URL and counts exist; NumAlbums is the sum of the counts |
| Universal.BasicMetaData | src/dbmeta/universalprod.py:18-28 | The columns are exactly ArtistName, URL and NumAlbums |
| Universal.BasicMetaDataRows | src/dbmeta/universalprod.py:20-28 | One row per artist, in shard order, with the artist's name, URL and album total; it fails exactly when some artist lacks an attribute |
| Universal.BasicMetaDataAppend | src/dbmeta/universalprod.py:20-27 | The table of two shards is the concatenation of their tables |
| Universal.PyInt | src/dbmeta/universalprod.py:42 | `int()` keeps an int, and fails on None, lists, dicts and other values |
| Universal.ParseShowInt | src/dbmeta/universalprod.py:42 | A year written by `str` reads back as itself |
| Universal.NonNumericYearDropped | src/dbmeta/universalprod.py:41-44 | A year containing a letter fails `int()` |
| Universal.ParsedYearsMembers | src/dbmeta/universalprod.py:40-45 | The kept years are exactly the years `int()` accepts: every kept year comes from an input year, and every accepted year is kept |
| Universal.ParseTypeYears | src/dbmeta/universalprod.py:39-45 | The year loop equals the reference list of accepted years |
| Universal.MediaDateStats | src/dbmeta/universalprod.py:36-51 | `getMediaDateStats` equals the reference statistics: none without a parsed year, otherwise min, max and truncated median of the parsed years |
| Universal.AllYearsOfDict | src/dbmeta/universalprod.py:47-49 | The statistics are over all parsed years of all media types, in order |
| Universal.NoParsedYears | src/dbmeta/universalprod.py:50 | No parsed year gives `(None, None, None)` |
| Universal.MedianBetween | src/dbmeta/universalprod.py:50 | min <= median <= max |
| Universal.DateStatsOrdered | src/dbmeta/universalprod.py:50 | The statistics of a shard row are ordered |
| Universal.SortInts | src/dbmeta/universalprod.py:50 | The years are sorted and are a permutation of the input |
| Universal.TruncHalf | src/dbmeta/universalprod.py:50 | `int(x / 2)` halves and truncates toward zero |
| Universal.DatesMetaData | src/dbmeta/universalprod.py:33-57 | Because `getMediaDates` (prodbase.py 220-221) returns `{}` at once, every artist gets `(None, None, None)` |
| Summary.DispatchTable | src/dbmeta/summaryprod.py:24-27 | `dbsums` holds a summary type exactly when the class defines its `make…SummaryData` method, each type once and bound to its own handler |
| Summary.HandlerIffMethod | src/dbmeta/summaryprod.py:25-26 | A type has a handler exactly when its method name is a callable attribute of the class |
| Summary.MethodNameInjective | src/dbmeta/summaryprod.py:25 | Distinct types give distinct method names |
| Summary.SummaryProducer.constructor | src/dbmeta/summaryprod.py:18-29 | `dbsums` is the dispatch table, nothing is saved yet, and `test` and `modVals` do not exist until `make` sets them |
| Summary.UnsetRunFails | src/dbmeta/summaryprod.py:55-60 | Before `make`, a run of handlers saves nothing and fails with AttributeError exactly when it reaches a handler other than the dates one, since each reads `self.modVals` in its shard loop |
| Summary.SummaryProducer.GetSummaryTypes | src/dbmeta/summaryprod.py:31-36 | A string key gives its own handler and fails when unknown; any other key gives all handlers |
| Summary.SummaryProducer.Make | src/dbmeta/summaryprod.py:41-50 | Sets `test` and `modVals` together (only shard 0 when testing) and runs the selected handlers in order; saves made before a failure stay |
| Summary.ModValsFor | src/dbmeta/summaryprod.py:44 | Testing reads only shard 0 |
| Summary.Present | src/dbmeta/summaryprod.py:63-67 | At most one table is read per shard |
| Summary.PresentAppend | src/dbmeta/summaryprod.py:63-66 | Shards are read independently |
| Summary.AbsentShardSkipped | src/dbmeta/summaryprod.py:66-67 | A shard with no file contributes nothing |
| Summary.FoldBasic | src/dbmeta/summaryprod.py:60-73 | The basic shard loop equals the reference fold over the present shards |
| Summary.BasicFoldFails | src/dbmeta/summaryprod.py:68-73 | The fold fails exactly when a present shard lacks a column, and yields series exactly when some shard was present |
| Summary.BasicFoldMeaning | src/dbmeta/summaryprod.py:68-73 | Name, Ref and NumAlbums are the concatenations of the shards' columns in shard order, names standardised |
| Summary.SummaryProducer.MakeBasicSummaryData | src/dbmeta/summaryprod.py:55-90 | AttributeError before `make`; otherwise saves the three series unless testing, or fails as the source does |
| Summary.FlatCell | src/dbmeta/summaryprod.py:107 | A dict cell becomes a list and anything else `None` |
| Summary.CountCell | src/dbmeta/summaryprod.py:110-111 | A list counts its length and anything else 0 |
| Summary.CountOfFlat | src/dbmeta/summaryprod.py:107-111 | Every count is the number of names an artist has under that rank |
| Summary.FoldShards | src/dbmeta/summaryprod.py:100-146 | The shard loop of the table makers equals the fold over the present shards |
| Summary.ConcatMappedRows | src/dbmeta/summaryprod.py:108-146 | The fold exists exactly when a shard was present; its rows are the shards' rows in order, and its columns are those of any shard |
| Summary.ColumnSavesNonEmpty | src/dbmeta/summaryprod.py:124-127 | A ranked-media column is saved exactly when some artist has a value under it, and then under its own name |
| Summary.SaveColumns | src/dbmeta/summaryprod.py:124-127 | The save loop equals the reference column saves |
| Summary.SummaryProducer.MakeMediaSummaryData | src/dbmeta/summaryprod.py:95-129 | AttributeError before `make`; otherwise saves the counts and the non-empty media columns unless testing, or fails |
| Summary.SummaryProducer.MakeFrameSummaryData | src/dbmeta/summaryprod.py:134-268 | AttributeError before `make`; otherwise saves the folded table only when testing is off and some shard produced a DataFrame |
| Summary.DatesIsNoOp | src/dbmeta/summaryprod.py:218-219 | `makeDatesSummaryData` saves nothing and never fails |
| Summary.TestModeSavesNothing | src/dbmeta/summaryprod.py:80-152 | In test mode a whole run saves nothing |
| Summary.SummaryProducer.RunHandlers | src/dbmeta/summaryprod.py:48-49 | Handlers run in order and the first failure stops the run |
| Summary.RunAllErrPersists | src/dbmeta/summaryprod.py:48-49 | After a failure, later handlers do not run |
| MediaSum.MediaSummaryProducer.constructor | src/dbmeta/mediasumprod.py:16-30 | All registries start empty, `artistIDPos` is None, and the producer is consistent |
| MediaSum.MediaSummaryProducer.Make | src/dbmeta/mediasumprod.py:35-44 | Sets verbose (default True), test and modVals; runs the named procedure, or every procedure when none has that name |
| MediaSum.MediaSummaryProducer.SetModVals | src/dbmeta/mediasumprod.py:55-57 | `modVals` becomes the given shards |
| MediaSum.MediaSummaryProducer.AddMediaInfo | src/dbmeta/mediasumprod.py:59-61 | Registers the columns, sets the data to `None`, and keeps the registries in step |
| MediaSum.MediaSummaryProducer.AddArtistMediaInfo | src/dbmeta/mediasumprod.py:63-66 | The same, and sets the join status to False |
| MediaSum.MediaSummaryProducer.SetArtistIDPos | src/dbmeta/mediasumprod.py:68-70 | Accepts exactly the ints (booleans included); otherwise an assertion fails and the position is unchanged |
| MediaSum.MediaShard | src/dbmeta/mediasumprod.py:81-90 | A shard loads exactly when it holds a DataFrame with every requested column, and then has exactly those columns |
| MediaSum.ConcatFrames | src/dbmeta/mediasumprod.py:94 | `concat` fails on an empty list |
| MediaSum.LoadedMediaFacts | src/dbmeta/mediasumprod.py:94 | A media table loads exactly when there are shards and each has every column; it then has exactly those columns |
| MediaSum.MediaShardsFacts | src/dbmeta/mediasumprod.py:94 | The rows are those of the shards, in shard order |
| MediaSum.LoadMedia | src/dbmeta/mediasumprod.py:94 | The shard loop equals the reference load |
| MediaSum.MediaSummaryProducer.SetMediaData | src/dbmeta/mediasumprod.py:75-96 | The call has the effect `MediaStep` states: nothing once all are loaded, AttributeError while `modVals` is unset, otherwise each name loaded in turn with the first failure raised. It keeps the registries in step and leaves every entry loaded on success |
| MediaSum.MediaStepLoads | src/dbmeta/mediasumprod.py:75-96 | A successful call on a registry in step leaves every entry loaded, and when it had to load, every name holds a table with its registered columns |
| MediaSum.MediaStepSync | src/dbmeta/mediasumprod.py:92-95 | A call, successful or not, keeps the media registry in step with its column lists |
| MediaSum.LoadAllMediaLoads | src/dbmeta/mediasumprod.py:92-95 | After the load every listed name holds a table with exactly its columns, and no other entry changes |
| MediaSum.LoadAllMediaCompletes | src/dbmeta/mediasumprod.py:78-95 | After a successful load a second call returns at once |
| MediaSum.LastSegmentMeaning | src/dbmeta/mediasumprod.py:118 | The index is the part of the identifier after the last '-', or `None` for a non-string identifier |
| MediaSum.SegmentAtMeaning | src/dbmeta/mediasumprod.py:126 | A position is valid exactly within the number of pieces; the piece has no '-', and a non-string identifier gives `None` |
| MediaSum.Reindex | src/dbmeta/mediasumprod.py:118 | Re-keying keeps every row's cells and the columns |
| MediaSum.ArtistShardsFails | src/dbmeta/mediasumprod.py:113-122 | The shard loop fails exactly when some shard does |
| MediaSum.ArtistShardsRows | src/dbmeta/mediasumprod.py:119-122 | Each shard is appended after the rows already there, in shard order |
| MediaSum.CollectArtistShards | src/dbmeta/mediasumprod.py:113-122 | The shard loop equals the reference fold |
| MediaSum.PositionalArtistID | src/dbmeta/mediasumprod.py:125-132 | With a position, an ArtistID column is added from the identifier and `mediaID` is dropped |
| MediaSum.NamedArtistID | src/dbmeta/mediasumprod.py:127-132 | With a column name, the column must exist and is renamed to ArtistID |
| MediaSum.RenameRow | src/dbmeta/mediasumprod.py:129 | Renaming moves one cell and keeps the others |
| MediaSum.FinishDropsMediaID | src/dbmeta/mediasumprod.py:131-132 | No `mediaID` column is left |
| MediaSum.MediaSummaryProducer.LoadArtistMedia | src/dbmeta/mediasumprod.py:113-133 | Loading one name equals the reference: its shards, its artist key, and `mediaID` dropped; a name missing from the registry fails with the first shard's error if it has one, else with KeyError |
| MediaSum.ArtistMediaAfterLoads | src/dbmeta/mediasumprod.py:113-133 | A successful load leaves the name holding its finished table and changes no other entry |
| MediaSum.LoadAllArtistMediaLoads | src/dbmeta/mediasumprod.py:109-133 | After a successful load every listed name holds a table with no `mediaID` column |
| MediaSum.LoadAllArtistMediaCompletes | src/dbmeta/mediasumprod.py:106-133 | After a successful load a second call returns at once |
| MediaSum.MediaSummaryProducer.SetArtistMediaData | src/dbmeta/mediasumprod.py:101-133 | The call has the effect `ArtistMediaStep` states: AssertionError for a non-int, non-string position; nothing once all are loaded; AttributeError while `modVals` is unset; otherwise the reference load. It keeps the registries in step |
| MediaSum.ArtistMediaStepLoads | src/dbmeta/mediasumprod.py:101-133 | A successful call on a registry in step leaves every entry loaded with the same names |
| MediaSum.ArtistMediaStepSync | src/dbmeta/mediasumprod.py:109-133 | A call, successful or not, keeps the artist-media names as they were registered |
| MediaSum.LeftJoinColumns | src/dbmeta/mediasumprod.py:148 | The join gets every left column, and every right column under its own name or with the 'Media' suffix on a clash |
| MediaSum.JoinRowsLonger | src/dbmeta/mediasumprod.py:148 | A left join yields at least one row per artist-media row |
| MediaSum.JoinRowsKeep | src/dbmeta/mediasumprod.py:148 | For a media table with distinct labels, every artist-media row is kept in place with its label and cells |
| MediaSum.ResetIndex | src/dbmeta/mediasumprod.py:149 | Rows are relabelled 0, 1, 2, … and keep their cells |
| MediaSum.JoinOnce | src/dbmeta/mediasumprod.py:138-150 | A successful join marks the name joined, and every later call for it, with any media name, changes nothing |
| MediaSum.JoinedIsNoOp | src/dbmeta/mediasumprod.py:139-145 | Once joined, a call changes nothing and fails only when the media name has no table |
| MediaSum.JoinKeepsArtistRows | src/dbmeta/mediasumprod.py:148-149 | The first join keeps the rows of the artist-media table |
| MediaSum.MediaSummaryProducer.JoinArtistMediaData | src/dbmeta/mediasumprod.py:138-151 | Equals the reference join step, and keeps the registries in step |
| MediaSum.MediaSummaryProducer.GetJoinedMediaData | src/dbmeta/mediasumprod.py:156-164 | Puts "ArtistID" first in the caller's list when missing; the result and the new tables and join status are those of loading, loading artist media, joining and selecting the list's columns; with a non-string media name nothing is joined and the join status is unchanged |
| MediaSum.MediaSummaryProducer.LoadAndJoin | src/dbmeta/mediasumprod.py:159-161 | The three calls change the tables and join status as `setMediaData`, `setArtistMediaData` and `joinArtistMediaData` state, stopping at the first failure |
| MediaSum.LoadJoinRepeat | src/dbmeta/mediasumprod.py:159-161 | On a consistent producer a successful load and join with a media name marks the name joined, and repeating it changes nothing |
| MediaSum.JoinLoadedRepeat | src/dbmeta/mediasumprod.py:143-150 | Joining loaded tables keeps them loaded and marks the name joined, and a second join changes nothing |
| MediaSum.GetJoinedRepeat | src/dbmeta/mediasumprod.py:156-164 | On a consistent producer a successful call with a media name marks the artist-media name joined, and a second call returns the same table and changes nothing |
| MediaSum.MediaSummaryProducer.GetMediaData | src/dbmeta/mediasumprod.py:169-172 | The registry becomes what `setMediaData` leaves, and the result is its entry for the name (KeyError when unregistered) or the load's error; for a consistent producer the entry is a table, with the registered columns when the call had to load |
| MediaSum.RefreshCreates | src/dbmeta/mediasumprod.py:183-187 | With no saved table the rows are exactly the SummaryNumAlbums artists, NumAlbums is dropped, and each new column holds the new value |
| MediaSum.RefreshReplaces | src/dbmeta/mediasumprod.py:188-193 | With a saved table its rows are kept, overlapping columns take the new values, and other saved columns keep theirs |
| MediaSum.MediaSummaryProducer.JoinSummaryData | src/dbmeta/mediasumprod.py:177-204 | The refreshed table is saved, or returned when `saveit` is false; nothing is saved, and nothing returned, when testing |
| Match.Duplicated | src/dbmeta/matchprod.py:33 | A row is a duplicate exactly when its label occurred earlier |
| Match.TestDuplicatedMeaning | src/dbmeta/matchprod.py:31-35 | The check fails exactly when some label occurs twice |
| Match.MatchableFlags | src/dbmeta/matchprod.py:60-62 | The flags cover the union of both indexes |
| Match.MatchableMeaning | src/dbmeta/matchprod.py:22-62 | An artist is matchable exactly when its count reaches `minMedia` (1) and its name is a non-empty string |
| Match.MatchTable | src/dbmeta/matchprod.py:76-79 | `loc` fails (ValueError) exactly when a row has no matchable flag |
| Match.KeptRowsMeaning | src/dbmeta/matchprod.py:77-83 | The match table's keys are exactly the matchable summary artists that the omit registry accepts |
| Match.MatchRunSaves | src/dbmeta/matchprod.py:67-95 | Nothing is saved when testing; each save is a non-empty table of matchable, accepted artists, saved under "Match" and a listed type whose summary exists |
| Match.MissingSummarySkipped | src/dbmeta/matchprod.py:70-73 | A type without summary data is skipped and the loop continues |
| Match.MatchProducer.MakeOne | src/dbmeta/matchprod.py:70-95 | One match type is built and saved as its reference says |
| Match.MatchProducer.MakeAll | src/dbmeta/matchprod.py:67-95 | The loop over the match types equals the reference run |
| Match.MatchProducer.Make | src/dbmeta/matchprod.py:40-97 | Works out the matchable artists, then runs every match type; the first failure is raised with earlier tables saved |
| Match.EmptyFlags | src/dbmeta/matchprod.py:116 | Every listed database starts with an empty flag map |
| Match.FlagAllFacts | src/dbmeta/matchprod.py:121-123 | Flagging fails exactly when a database is invalid or unlisted; it keeps the databases and earlier flags, stores only True, and flags every pair |
| Match.FlagAllOnlyListed | src/dbmeta/matchprod.py:121-123 | Flagging sets nothing beyond the listed pairs |
| Match.FlagSpecificFacts | src/dbmeta/matchprod.py:124-131 | An invalid database fails; every listed ID is flagged under its database and only True is stored |
| Match.FlagSpecificOnlyListed | src/dbmeta/matchprod.py:124-131 | The Specific section flags nothing beyond its listed IDs |
| Match.FlagEntries | src/dbmeta/matchprod.py:121-123 | The flag loop equals the reference flagging |
| Match.FlagGeneral | src/dbmeta/matchprod.py:118-123 | The General loop equals the reference flagging |
| Match.FlagSpecificEntries | src/dbmeta/matchprod.py:124-131 | The Specific loop equals the reference flagging |
| Match.NewIgnoreData | src/dbmeta/matchprod.py:116-132 | Construction succeeds exactly when the reference flags do, and stores them |
| Match.IgnoreFlagsFacts | src/dbmeta/matchprod.py:116-132 | After construction every database has a flag map, only True is stored, and every listed ID is flagged |
| Match.IgnoreFlagsRejects | src/dbmeta/matchprod.py:122-125 | An invalid database in either section fails construction |
| Match.IgnoreFlagsOnlyListed | src/dbmeta/matchprod.py:116-132 | Construction flags only listed IDs |
| Match.IgnoreData.DBDataOf | src/dbmeta/matchprod.py:143-145 | Fails exactly for an invalid database; gives the flag map when there is one, else the empty list |
| Match.IgnoreData.IsValidAsWritten | src/dbmeta/matchprod.py:147-150 | As written: true only for a stored False |
| Match.IsValidAsWrittenAlwaysFalse | src/dbmeta/matchprod.py:123-149 | As written, `isValid` is false for every ID of a constructed registry |
| Match.IsValidAsWrittenRejectsUnlisted | src/dbmeta/matchprod.py:149 | A concrete registry in which an unlisted ID is invalid as written, but valid as intended |
| Match.IgnoreData.IsValid | src/dbmeta/matchprod.py:147-150 | As intended: an ID is valid exactly when it is not flagged |
| Match.IsValidAfterConstruction | src/dbmeta/matchprod.py:116-150 | As intended, an ID is invalid exactly when General or Specific lists it for that database |

## Left out

- File I/O is not modelled. `rdio.getData`/`getFilename().exists()` are store parameters, and `saveData` is a recorded save. The YAML load of the ignore lists is a parameter, and `copyLocal` and `getData` of `MusicDBIgnoreData` are omitted, because they are I/O.
- `Timestat`, `print` and progress reporting are left out. Only the rule that decides when a report is made is modelled.
- `MasterMetas`, `MasterParams` and `MatchOmitBase.setMatchTypes` come from libraries that are not part of this model. Media types, rankings, summary types, match types, databases and `mp.isValid` are therefore parameters, and `getModVals` is the given shard list.
- `SummaryNameStandard`/`MatchNameStandard.update` are foreign helpers. They are function parameters, applied value by value.
- `getFlatList` comes from `utils`, which is not part of this model. It is modelled as concatenating the list values in order, with a non-list value taken as the one-item list holding it (`Summary.FlatValues`).
- pandas index alignment, NaN arithmetic, `DataFrame.T`, the order of a join's columns and dtype conversions are not modelled. A NaN is an unset cell, and `fillna(0)` is the count of a non-list.
- `MediaSum.JoinRow`: when a right column's suffixed name equals a left column's name, the left cell wins and the table keeps one column of that name. pandas would keep both columns.
- The summary and match series are modelled as sequences of (label, value). A DataFrame that the code treats as a Series is not distinguished from one.
- `Universal.MedianOf`: `statistics.median` is modelled on integers only. The mean of the two middle years truncated toward zero stands in for `int()` of the float median.
- `Universal.PyInt`: `int()` of a float, of Unicode digits and of bytes is not modelled. Strings are ASCII: whitespace (space, tab, line feed, carriage return, vertical tab, form feed and the separators 0x1C to 0x1F), sign, digits and single underscores.
- `src/dbmeta/mediasumprodbase.py` and `src/dbmeta/metaprodbase.py` are not part of this model. They are driver loops over collaborators that are not shown.
- The code after the early `return` in `getMediaDates`, `getMediaArtists` and `getMediaFormats` is dead and is not modelled. `getMediaArtists` and `getMediaFormats` return `{}` and are used nowhere in the core.
- `isinstance` assertions that Dafny's types already guarantee are not modelled: string names, list column names, dict registries.
- `MediaSum.MediaSummaryProducer.SetModVals`: the list-or-range assertion is implied by the parameter type.
- `MediaSum.Rename`: pandas' duplicate-column behaviour, when ArtistID already exists, is not modelled.
- `MediaSum.MediaSummaryProducer.JoinSummaryData`: the saved and new summary tables are modelled as maps keyed by ArtistID (`MediaSum.KTable`). Duplicate ArtistID labels and row order, both of which `DataFrame.join` keeps (it repeats a left row once per matching right row and keeps the left table's order), are therefore not modelled; the model's saved table holds one row per ID.
- `MediaSum.RefreshSummary`: summary tables are maps keyed by ArtistID, so duplicate labels and row order are not modelled. The precedence of the left side in a join whose columns clash with the new data is not modelled. The new data's columns are dropped from the saved table first, as the source does, so no clash arises.
- `MediaSum.MediaSummaryProducer.SetArtistMediaData`: the `isUpdateModVal(modVal)` progress call and the `index.name = None` line do nothing to the model's state.
- `Match.MatchableFlags`: a count cell that is neither an int nor missing counts as not matchable. pandas' comparison of other types is not modelled.
- `Summary.SummaryProducer.Make`: the `**kwargs` passed on to the handlers are ignored, since no handler reads them.
- `Match.IgnoreFlags`: the ignore lists keep the YAML key order. Dict key uniqueness within a group is not required, because later entries only set the same flag again.
- `MediaMeta.RankedMediaData`: `del mediaData` is not modelled.
- `MediaSummaryProducerBase.isUpdateModVal` (`src/dbmeta/mediasumprod.py` lines 49-53) is not a member of its own. It is the same rule as `ProdBase.IsUpdateModVal`, which the model uses for both.
- `ProdBase.IsUpdateModVal`: the converse direction (verbose and shard 4 or one before a multiple of 25 reports) is not stated as an ensures. It is stated by `ProdBase.UpdateModValReports` instead.

## Findings

| source | as written | input that shows it | evidently intended | confidence | as-written member | corrected member |
|---|---|---|---|---|---|---|
| src/dbmeta/matchprod.py:149 | `dbData.get(dbID) is False` holds only for a stored False and construction stores only True so every ID of every valid database is reported invalid | a registry `{"db": {"ignored": True}}` and ID `"other"`, which appears in no ignore list | `not dbData.get(dbID, False)`, as `MatchOmitBase.isValid` does: invalid exactly when the ID is flagged | not executed | Match.IsValidAsWrittenAlwaysFalse | Match.IsValidAfterConstruction |

