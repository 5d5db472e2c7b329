/** `MatchProducerIO` and `MusicDBIgnoreData`: the match tables built from
    the summary tables of matchable artists, filtered by the omit registry,
    and the per-database ignore flags built from the manual ignore lists.
    Summary files are a store from a key to a Series keyed by artist; every
    save is recorded. The name standardiser is a function on cell values. */
module Match {
  import opened Values
  import opened Tables
  import opened ProdBase

  /** `rdio.getData(key)`: the Series in the file, `None` when it holds
      no Series or DataFrame. */
  type SeriesStore = string -> Option<Series<ArtistID>>

  /** `mns.update(value, dtype)`, applied to every value of a Series. */
  type Standardiser = (Cell, string) -> Cell

  // =====================================================================
  // testDuplicated
  // =====================================================================

  /** `index.duplicated()`: every occurrence of a label after its first. */
  function Duplicated(keys: seq<ArtistID>): (r: seq<bool>)
    ensures |r| == |keys| && forall j :: 0 <= j < |keys| ==> (r[j] <==> keys[j] in keys[..j])
  {
    seq(|keys|, j requires 0 <= j < |keys| => keys[j] in keys[..j])
  }

  /** `testDuplicated`: ValueError when some row is a duplicate. */
  function TestDuplicated(keys: seq<ArtistID>): (r: Result<()>)
    ensures r.Err? ==> r.reason == "ValueError"
  {
    if exists j :: 0 <= j < |keys| && Duplicated(keys)[j] then Err("ValueError") else Ok(())
  }

  /** The check fails exactly when some label occurs twice. */
  lemma TestDuplicatedMeaning(keys: seq<ArtistID>)
    ensures TestDuplicated(keys).Ok? <==> forall i, j :: 0 <= i < j < |keys| ==> keys[i] != keys[j]
  {
    var d := Duplicated(keys);
    if TestDuplicated(keys).Err? {
      var j :| 0 <= j < |keys| && d[j];
      var i :| 0 <= i < j && keys[..j][i] == keys[j];
      assert keys[i] == keys[j];
    } else {
      forall i, j | 0 <= i < j < |keys| ensures keys[i] != keys[j] {
        assert !d[j];
        assert keys[i] == keys[..j][i];
      }
    }
  }

  // =====================================================================
  // Matchable artists
  // =====================================================================

  /** `artistCountsData >= minMedia` for one count; an unset count is False. */
  predicate CountAtLeast(count: Cell, minMedia: int) {
    match count
    case CInt(i) => i >= minMedia
    case CBool(b) => (if b then 1 else 0) >= minMedia
    case _ => false
  }

  /** `isinstance(value, str) and len(value) > 0`. */
  predicate UsableName(name: Cell) {
    name.CStr? && |name.s| > 0
  }

  /** `countsReq & nameReq`: the Series is aligned on the union of both
      indexes, a missing side counting as False. */
  function MatchableFlags(names: Series<ArtistID>, counts: Series<ArtistID>, minMedia: int): (flags: map<ArtistID, bool>)
    ensures flags.Keys == KeySet(names) + KeySet(counts)
  {
    var n := Latest(names);
    var c := Latest(counts);
    map k | k in KeySet(names) + KeySet(counts) :: k in n && k in c && CountAtLeast(c[k], minMedia) && UsableName(n[k])
  }

  /** An artist is matchable exactly when its count reaches `minMedia` and
      its name is a non-empty string. */
  lemma MatchableMeaning(names: Series<ArtistID>, counts: Series<ArtistID>, minMedia: int, k: ArtistID)
    requires k in KeySet(names) + KeySet(counts)
    ensures MatchableFlags(names, counts, minMedia)[k] <==>
      k in Latest(counts) && CountAtLeast(Latest(counts)[k], minMedia) &&
      k in Latest(names) && Latest(names)[k].CStr? && |Latest(names)[k].s| >= 1
  {
  }

  // =====================================================================
  // One match table
  // =====================================================================

  /** The rows a match table keeps: matchable artists the omit registry
      accepts, with standardised values. */
  function KeptRows(rows: Series<ArtistID>, flags: map<ArtistID, bool>, omit: map<ArtistID, Cell>,
                    standardise: Standardiser, dtype: string): Series<ArtistID>
    requires forall i :: 0 <= i < |rows| ==> rows[i].0 in flags
    decreases |rows|
  {
    if rows == [] then []
    else
      var k := rows[|rows| - 1].0;
      KeptRows(rows[..|rows| - 1], flags, omit, standardise, dtype) +
        (if flags[k] && OmitIsValid(omit, k) then [(k, standardise(rows[|rows| - 1].1, dtype))] else [])
  }

  /** The match table of one summary Series: `summaryData.loc[matchable]`
      fails (reported as ValueError) when some row has no matchable flag;
      then the values are standardised and omitted artists dropped. */
  function MatchTable(summary: Series<ArtistID>, flags: map<ArtistID, bool>, omit: map<ArtistID, Cell>,
                      standardise: Standardiser, dtype: string): (r: Result<Series<ArtistID>>)
    ensures r.Ok? <==> forall i :: 0 <= i < |summary| ==> summary[i].0 in flags
    ensures r.Err? ==> r.reason == "ValueError"
  {
    if forall i :: 0 <= i < |summary| ==> summary[i].0 in flags then Ok(KeptRows(summary, flags, omit, standardise, dtype))
    else Err("ValueError")
  }

  /** Every kept row is a matchable, non-omitted artist; every row of the
      summary for such an artist is kept, in order, with its value
      standardised. */
  lemma {:induction false} KeptRowsMeaning(rows: Series<ArtistID>, flags: map<ArtistID, bool>, omit: map<ArtistID, Cell>,
                                           standardise: Standardiser, dtype: string)
    requires forall i :: 0 <= i < |rows| ==> rows[i].0 in flags
    ensures (forall k :: k in KeySet(KeptRows(rows, flags, omit, standardise, dtype)) <==>
      k in KeySet(rows) && flags[k] && OmitIsValid(omit, k))
    ensures |KeptRows(rows, flags, omit, standardise, dtype)| <= |rows|
    decreases |rows|
  {
    if rows != [] {
      var init := rows[..|rows| - 1];
      var last := rows[|rows| - 1];
      KeptRowsMeaning(init, flags, omit, standardise, dtype);
      var pre := KeptRows(init, flags, omit, standardise, dtype);
      var tail: Series<ArtistID> := if flags[last.0] && OmitIsValid(omit, last.0) then [(last.0, standardise(last.1, dtype))] else [];
      assert KeptRows(rows, flags, omit, standardise, dtype) == pre + tail;
      KeySetAppend(pre, tail);
      KeySetAppend(init, [last]);
      assert rows == init + [last];
      assert KeySet(rows) == KeySet(init) + KeySet([last]);
      assert [last][0].0 == last.0;
      assert KeySet([last]) == {last.0};
      if tail != [] {
        assert tail[0].0 == last.0;
        assert KeySet(tail) == {last.0};
      }
    }
  }

  // =====================================================================
  // make
  // =====================================================================

  /** The steps of `make` before the loop: the names must have been loaded
      (with `verbose` their row count is read first) and carry no duplicate
      label; the counts must have been loaded for the comparison. */
  function MatchableOf(names: Option<Series<ArtistID>>, counts: Option<Series<ArtistID>>, minMedia: int,
                       verbose: bool): (r: Result<map<ArtistID, bool>>)
    ensures r.Ok? <==> names.Some? && counts.Some? && TestDuplicated(IndexOfKeys(names.value)).Ok?
  {
    if names.None? then Err(if verbose then "AttributeError" else "AssertionError")
    else if TestDuplicated(IndexOfKeys(names.value)).Err? then Err("ValueError")
    else if counts.None? then Err("TypeError")
    else Ok(MatchableFlags(names.value, counts.value, minMedia))
  }

  /** The index labels of a Series, in order. */
  function IndexOfKeys(s: Series<ArtistID>): (r: seq<ArtistID>)
    ensures |r| == |s| && forall i :: 0 <= i < |s| ==> r[i] == s[i].0
  {
    seq(|s|, i requires 0 <= i < |s| => s[i].0)
  }

  /** What one match type contributes: nothing when its summary is missing
      or when testing or when its match table is empty, else the save of
      its match table. */
  function MatchSaves(store: SeriesStore, flags: map<ArtistID, bool>, omit: map<ArtistID, Cell>,
                      standardise: Standardiser, test: bool, key: string): Result<seq<(string, Series<ArtistID>)>>
  {
    var summary := store("Summary" + key);
    if summary.None? then Ok([])
    else
      var t := MatchTable(summary.value, flags, omit, standardise, if key == "Name" then "Name" else "Media");
      if t.Err? then Err(t.reason)
      else if test || |t.value| == 0 then Ok([])
      else Ok([("Match" + key, t.value)])
  }

  /** The loop of `make` over the match types: the saves made, in order,
      and the error raised, if any. */
  function MatchRun(store: SeriesStore, flags: map<ArtistID, bool>, omit: map<ArtistID, Cell>,
                    standardise: Standardiser, test: bool, types: seq<string>): (seq<(string, Series<ArtistID>)>, Option<string>)
    decreases |types|
  {
    if types == [] then ([], None)
    else
      var pre := MatchRun(store, flags, omit, standardise, test, types[..|types| - 1]);
      if pre.1.Some? then pre
      else
        var s := MatchSaves(store, flags, omit, standardise, test, types[|types| - 1]);
        if s.Err? then (pre.0, Some(s.reason)) else (pre.0 + s.value, None)
  }

  /** A match table is saved only when testing is off and it is non-empty;
      it is saved under "Match" and the name of a listed type whose summary
      exists, and holds only matchable artists the omit registry accepts. */
  lemma {:induction false} MatchRunSaves(store: SeriesStore, flags: map<ArtistID, bool>, omit: map<ArtistID, Cell>,
                                         standardise: Standardiser, test: bool, types: seq<string>)
    ensures test ==> MatchRun(store, flags, omit, standardise, test, types).0 == []
    ensures forall j :: 0 <= j < |MatchRun(store, flags, omit, standardise, test, types).0| ==>
      var save := MatchRun(store, flags, omit, standardise, test, types).0[j];
      |save.1| > 0 && (exists key :: key in types && save.0 == "Match" + key && store("Summary" + key).Some?) &&
      forall k :: k in KeySet(save.1) ==> k in flags && flags[k] && OmitIsValid(omit, k)
    decreases |types|
  {
    if types != [] {
      var init := types[..|types| - 1];
      var key := types[|types| - 1];
      MatchRunSaves(store, flags, omit, standardise, test, init);
      var pre := MatchRun(store, flags, omit, standardise, test, init);
      var out := MatchRun(store, flags, omit, standardise, test, types).0;
      var s := MatchSaves(store, flags, omit, standardise, test, key);
      if pre.1.None? && s.Ok? {
        assert out == pre.0 + s.value;
        if s.value != [] {
          var summary := store("Summary" + key).value;
          KeptRowsMeaning(summary, flags, omit, standardise, if key == "Name" then "Name" else "Media");
        }
        forall j | 0 <= j < |out|
          ensures |out[j].1| > 0 && (exists k :: k in types && out[j].0 == "Match" + k && store("Summary" + k).Some?) &&
            forall k :: k in KeySet(out[j].1) ==> k in flags && flags[k] && OmitIsValid(omit, k)
        {
          if j < |pre.0| {
            assert out[j] == pre.0[j];
            var k0 :| k0 in init && out[j].0 == "Match" + k0 && store("Summary" + k0).Some?;
            assert k0 in types;
          } else {
            assert out[j] == s.value[j - |pre.0|];
          }
        }
      }
    }
  }

  /** A match type whose summary is missing is skipped, and the loop goes on. */
  lemma MissingSummarySkipped(store: SeriesStore, flags: map<ArtistID, bool>, omit: map<ArtistID, Cell>,
                              standardise: Standardiser, test: bool, types: seq<string>, key: string)
    requires store("Summary" + key).None?
    ensures MatchRun(store, flags, omit, standardise, test, types + [key]) == MatchRun(store, flags, omit, standardise, test, types)
  {
    assert (types + [key])[..|types|] == types;
    var pre := MatchRun(store, flags, omit, standardise, test, types);
    assert pre.0 + [] == pre.0;
  }

  lemma MatchRunStep(store: SeriesStore, flags: map<ArtistID, bool>, omit: map<ArtistID, Cell>,
                     standardise: Standardiser, test: bool, types: seq<string>, i: nat)
    requires i < |types| && MatchRun(store, flags, omit, standardise, test, types[..i]).1.None?
    ensures var s := MatchSaves(store, flags, omit, standardise, test, types[i]);
      var pre := MatchRun(store, flags, omit, standardise, test, types[..i]).0;
      MatchRun(store, flags, omit, standardise, test, types[..i + 1]) == if s.Err? then (pre, Some(s.reason)) else (pre + s.value, None)
  {
    assert types[..i + 1][..i] == types[..i];
  }

  lemma {:induction false} MatchRunErrPersists(store: SeriesStore, flags: map<ArtistID, bool>, omit: map<ArtistID, Cell>,
                                               standardise: Standardiser, test: bool, types: seq<string>, j: nat)
    requires j <= |types| && MatchRun(store, flags, omit, standardise, test, types[..j]).1.Some?
    ensures MatchRun(store, flags, omit, standardise, test, types) == MatchRun(store, flags, omit, standardise, test, types[..j])
    decreases |types| - j
  {
    if j < |types| {
      assert types[..j + 1][..j] == types[..j];
      MatchRunErrPersists(store, flags, omit, standardise, test, types, j + 1);
    } else {
      assert types[..j] == types;
    }
  }

  /** `MatchProducerIO`: the omit registry and its match types are given;
      `minMedia` is 1. */
  class MatchProducer {
    const store: SeriesStore
    const omit: map<ArtistID, Cell>
    const matchTypes: seq<string>
    const standardise: Standardiser
    const minMedia: int
    var verbose: bool
    /** Every `saveData` call, in order. */
    var saves: seq<(string, Series<ArtistID>)>

    constructor(store: SeriesStore, omit: map<ArtistID, Cell>, matchTypes: seq<string>, standardise: Standardiser,
                verbose: Option<bool>)
      ensures this.store == store && this.omit == omit && this.matchTypes == matchTypes && this.standardise == standardise
      ensures minMedia == 1 && this.verbose == (verbose.Some? && verbose.value) && saves == []
    {
      this.store := store;
      this.omit := omit;
      this.matchTypes := matchTypes;
      this.standardise := standardise;
      minMedia := 1;
      this.verbose := verbose.Some? && verbose.value;
      saves := [];
    }

    /** One pass of the loop of `make`: a missing summary is skipped; else
        its match table is built, filtered, and saved when testing is off
        and it is non-empty. */
    method MakeOne(key: string, flags: map<ArtistID, bool>, test: bool) returns (err: Option<string>)
      modifies this`saves
      ensures var c := MatchSaves(store, flags, omit, standardise, test, key);
        if c.Err? then err == Some(c.reason) && saves == old(saves) else err.None? && saves == old(saves) + c.value
    {
      var summary := store("Summary" + key);
      if summary.None? {
        return None;
      }
      var table := MatchTable(summary.value, flags, omit, standardise, if key == "Name" then "Name" else "Media");
      if table.Err? {
        return Some(table.reason);
      }
      if !test && |table.value| > 0 {
        saves := saves + [("Match" + key, table.value)];
      }
      err := None;
    }

    /** The loop of `make` over the match types. */
    method MakeAll(flags: map<ArtistID, bool>, test: bool) returns (err: Option<string>)
      modifies this`saves
      ensures var run := MatchRun(store, flags, omit, standardise, test, matchTypes);
        saves == old(saves) + run.0 && err == run.1
    {
      ghost var saves0 := saves;
      ghost var made: seq<(string, Series<ArtistID>)> := [];
      assert matchTypes[..0] == [];
      var i := 0;
      while i < |matchTypes|
        invariant 0 <= i <= |matchTypes|
        invariant MatchRun(store, flags, omit, standardise, test, matchTypes[..i]) == (made, None)
        invariant saves == saves0 + made
      {
        MatchRunStep(store, flags, omit, standardise, test, matchTypes, i);
        var err := MakeOne(matchTypes[i], flags, test);
        if err.Some? {
          MatchRunErrPersists(store, flags, omit, standardise, test, matchTypes, i + 1);
          return err;
        }
        ghost var contributed := MatchSaves(store, flags, omit, standardise, test, matchTypes[i]).value;
        assert saves0 + made + contributed == saves0 + (made + contributed);
        made := made + contributed;
        i := i + 1;
      }
      assert matchTypes[..i] == matchTypes;
      err := None;
    }

    /** `make(verbose=..., test=...)`: works out the matchable artists, then
        builds, filters and saves the match table of every match type in
        turn; the first failure is raised with the earlier tables saved. */
    method Make(verboseArg: Option<bool>, test: bool) returns (r: Result<()>)
      modifies this`saves
      ensures var flags := MatchableOf(store("SummaryName"), store("SummaryNumAlbums"), minMedia,
                                       verboseArg.None? || verboseArg.value);
        if flags.Err? then r == Err(flags.reason) && saves == old(saves)
        else
          var run := MatchRun(store, flags.value, omit, standardise, test, matchTypes);
          saves == old(saves) + run.0 && r == (if run.1.Some? then Err(run.1.value) else Ok(()))
    {
      var showProgress := verboseArg.None? || verboseArg.value;
      var matchable := MatchableOf(store("SummaryName"), store("SummaryNumAlbums"), minMedia, showProgress);
      if matchable.Err? {
        return Err(matchable.reason);
      }
      var err := MakeAll(matchable.value, test);
      r := if err.Some? then Err(err.value) else Ok(());
    }
  }

  // =====================================================================
  // MusicDBIgnoreData
  // =====================================================================

  /** The ignore lists: under General, per group the ignored ID of each
      database; under Specific, per database the ignored ID of each artist
      name. A missing section is a KeyError. */
  datatype IgnoreLists = IgnoreLists(general: Option<seq<(string, seq<(string, ArtistID)>)>>,
                                     specific: Option<seq<(string, seq<(string, ArtistID)>)>>)

  /** The flag maps, one per database, and the first failure. */
  type Flags = map<string, map<ArtistID, bool>>

  /** `ignoreDBIDData[db][dbID] = True` after `assert mp.isValid(db)`:
      an invalid database fails the assertion; a valid one that `getDBs`
      does not list has no flag map (KeyError). */
  function Flag(flags: Flags, dbValid: string -> bool, db: string, dbID: ArtistID): Result<Flags> {
    if !dbValid(db) then Err("AssertionError")
    else if db !in flags then Err("KeyError")
    else Ok(flags[db := flags[db][dbID := true]])
  }

  /** Flags every (database, ID) pair of a list, in order. */
  function FlagAll(flags: Result<Flags>, dbValid: string -> bool, pairs: seq<(string, ArtistID)>): Result<Flags>
    decreases |pairs|
  {
    if pairs == [] then flags
    else
      var pre := FlagAll(flags, dbValid, pairs[..|pairs| - 1]);
      if pre.Err? then pre else Flag(pre.value, dbValid, pairs[|pairs| - 1].0, pairs[|pairs| - 1].1)
  }

  /** The (database, ID) pairs of the General section, in order. */
  function GeneralPairs(general: seq<(string, seq<(string, ArtistID)>)>): seq<(string, ArtistID)>
    decreases |general|
  {
    if general == [] then [] else GeneralPairs(general[..|general| - 1]) + general[|general| - 1].1
  }

  /** The Specific section: each database is checked before its IDs are flagged. */
  function FlagSpecific(flags: Result<Flags>, dbValid: string -> bool, specific: seq<(string, seq<(string, ArtistID)>)>): Result<Flags>
    decreases |specific|
  {
    if specific == [] then flags
    else
      var pre := FlagSpecific(flags, dbValid, specific[..|specific| - 1]);
      var db := specific[|specific| - 1].0;
      if pre.Err? then pre
      else if !dbValid(db) then Err("AssertionError")
      else FlagAll(pre, dbValid, SpecificPairs(db, specific[|specific| - 1].1))
  }

  /** The (database, ID) pairs of one database's Specific entries. */
  function SpecificPairs(db: string, entries: seq<(string, ArtistID)>): (r: seq<(string, ArtistID)>)
    ensures |r| == |entries| && forall i :: 0 <= i < |entries| ==> r[i] == (db, entries[i].1)
  {
    seq(|entries|, i requires 0 <= i < |entries| => (db, entries[i].1))
  }

  /** `{db: {} for db in mp.getDBs()}`. */
  function EmptyFlags(dbs: seq<string>): (r: Flags)
    ensures r.Keys == set i | 0 <= i < |dbs| :: dbs[i]
    ensures forall db :: db in r ==> r[db] == map[]
  {
    map db | db in dbs :: map[]
  }

  /** The flag maps `MusicDBIgnoreData.__init__` builds. */
  function IgnoreFlags(dbs: seq<string>, dbValid: string -> bool, lists: IgnoreLists): Result<Flags> {
    if lists.general.None? then Err("KeyError")
    else
      var g := FlagAll(Ok(EmptyFlags(dbs)), dbValid, GeneralPairs(lists.general.value));
      if g.Err? then g
      else if lists.specific.None? then Err("KeyError")
      else FlagSpecific(g, dbValid, lists.specific.value)
  }

  /** `ignoreDBIDData[db][dbID]` is True. */
  predicate Flagged(flags: Flags, db: string, id: ArtistID) {
    db in flags && id in flags[db] && flags[db][id]
  }

  /** Flagging keeps the databases it started with and every earlier flag. */
  ghost predicate Keeps(before: Flags, after: Flags) {
    after.Keys == before.Keys && forall db, id :: Flagged(before, db, id) ==> Flagged(after, db, id)
  }

  /** Only True is stored. */
  ghost predicate OnlyTrue(flags: Flags) {
    forall db, id :: db in flags && id in flags[db] ==> Flagged(flags, db, id)
  }

  /** Flagging a list of pairs keeps the databases, stores only True, and
      sets every listed pair; it fails exactly when a listed database is
      invalid or not listed by `getDBs`. */
  lemma {:induction false} FlagAllFacts(flags: Flags, dbValid: string -> bool, pairs: seq<(string, ArtistID)>)
    ensures FlagAll(Ok(flags), dbValid, pairs).Ok? <==>
      forall i :: 0 <= i < |pairs| ==> dbValid(pairs[i].0) && pairs[i].0 in flags
    ensures FlagAll(Ok(flags), dbValid, pairs).Ok? ==>
      var out := FlagAll(Ok(flags), dbValid, pairs).value;
      Keeps(flags, out) && (OnlyTrue(flags) ==> OnlyTrue(out)) &&
      forall i :: 0 <= i < |pairs| ==> Flagged(out, pairs[i].0, pairs[i].1)
    decreases |pairs|
  {
    if pairs != [] {
      var init := pairs[..|pairs| - 1];
      var last := pairs[|pairs| - 1];
      FlagAllFacts(flags, dbValid, init);
      assert forall i :: 0 <= i < |init| ==> init[i] == pairs[i];
      var pre := FlagAll(Ok(flags), dbValid, init);
      if pre.Ok? && last.0 in flags {
        assert last.0 in pre.value;
      }
    }
  }

  lemma {:induction false} FlagAllErr(dbValid: string -> bool, pairs: seq<(string, ArtistID)>, reason: string)
    ensures FlagAll(Err(reason), dbValid, pairs) == Err(reason)
    decreases |pairs|
  {
    if pairs != [] {
      FlagAllErr(dbValid, pairs[..|pairs| - 1], reason);
    }
  }

  /** The Specific section, likewise: only True is stored and every listed
      ID is flagged in its database; an invalid database always fails. */
  lemma {:induction false} FlagSpecificFacts(flags: Flags, dbValid: string -> bool, specific: seq<(string, seq<(string, ArtistID)>)>)
    ensures FlagSpecific(Ok(flags), dbValid, specific).Ok? ==>
      forall i :: 0 <= i < |specific| ==> dbValid(specific[i].0)
    ensures FlagSpecific(Ok(flags), dbValid, specific).Ok? ==>
      var out := FlagSpecific(Ok(flags), dbValid, specific).value;
      Keeps(flags, out) && (OnlyTrue(flags) ==> OnlyTrue(out)) &&
      forall i, j :: 0 <= i < |specific| && 0 <= j < |specific[i].1| ==> Flagged(out, specific[i].0, specific[i].1[j].1)
    decreases |specific|
  {
    if specific != [] {
      var init := specific[..|specific| - 1];
      var last := specific[|specific| - 1];
      FlagSpecificFacts(flags, dbValid, init);
      assert forall i :: 0 <= i < |init| ==> init[i] == specific[i];
      var pre := FlagSpecific(Ok(flags), dbValid, init);
      if pre.Ok? && dbValid(last.0) {
        var pairs := SpecificPairs(last.0, last.1);
        FlagAllFacts(pre.value, dbValid, pairs);
        var out := FlagSpecific(Ok(flags), dbValid, specific);
        assert out == FlagAll(pre, dbValid, pairs);
        if out.Ok? {
          forall i, j | 0 <= i < |specific| && 0 <= j < |specific[i].1|
            ensures Flagged(out.value, specific[i].0, specific[i].1[j].1)
          {
            if i < |init| {
              assert specific[i] == init[i];
              assert Flagged(pre.value, specific[i].0, specific[i].1[j].1);
            } else {
              assert specific[i] == last;
              assert pairs[j] == (specific[i].0, specific[i].1[j].1);
            }
          }
        }
      } else if pre.Err? {
        assert FlagSpecific(Ok(flags), dbValid, specific) == pre;
      }
    }
  }

  /** Some group of the General section lists `(db, id)`. */
  predicate InGeneral(general: seq<(string, seq<(string, ArtistID)>)>, db: string, id: ArtistID) {
    exists g, j :: 0 <= g < |general| && 0 <= j < |general[g].1| && general[g].1[j] == (db, id)
  }

  /** The Specific section lists `id` under database `db`. */
  predicate InSpecific(specific: seq<(string, seq<(string, ArtistID)>)>, db: string, id: ArtistID) {
    exists s, j :: 0 <= s < |specific| && 0 <= j < |specific[s].1| && specific[s].0 == db && specific[s].1[j].1 == id
  }

  /** Flagging a list of pairs flags nothing beyond the listed pairs. */
  lemma {:induction false} FlagAllOnlyListed(flags: Flags, dbValid: string -> bool, pairs: seq<(string, ArtistID)>)
    requires FlagAll(Ok(flags), dbValid, pairs).Ok?
    ensures forall db, id :: Flagged(FlagAll(Ok(flags), dbValid, pairs).value, db, id) ==>
      Flagged(flags, db, id) || (db, id) in pairs
    decreases |pairs|
  {
    if pairs != [] {
      var init := pairs[..|pairs| - 1];
      var last := pairs[|pairs| - 1];
      var pre := FlagAll(Ok(flags), dbValid, init);
      assert pre.Ok?;
      FlagAllOnlyListed(flags, dbValid, init);
      var out := FlagAll(Ok(flags), dbValid, pairs).value;
      assert out == pre.value[last.0 := pre.value[last.0][last.1 := true]];
      forall db, id | Flagged(out, db, id) ensures Flagged(flags, db, id) || (db, id) in pairs {
        if (db, id) != last {
          assert Flagged(pre.value, db, id);
          if (db, id) in init {
            var i :| 0 <= i < |init| && init[i] == (db, id);
            assert pairs[i] == (db, id);
          }
        }
      }
    }
  }

  /** The Specific section flags nothing beyond the IDs it lists under
      their database. */
  lemma {:induction false} FlagSpecificOnlyListed(flags: Flags, dbValid: string -> bool, specific: seq<(string, seq<(string, ArtistID)>)>)
    requires FlagSpecific(Ok(flags), dbValid, specific).Ok?
    ensures forall db, id :: Flagged(FlagSpecific(Ok(flags), dbValid, specific).value, db, id) ==>
      Flagged(flags, db, id) || InSpecific(specific, db, id)
    decreases |specific|
  {
    if specific != [] {
      var init := specific[..|specific| - 1];
      var last := specific[|specific| - 1];
      var pre := FlagSpecific(Ok(flags), dbValid, init);
      assert pre.Ok?;
      FlagSpecificOnlyListed(flags, dbValid, init);
      var pairs := SpecificPairs(last.0, last.1);
      var out := FlagSpecific(Ok(flags), dbValid, specific).value;
      assert FlagAll(pre, dbValid, pairs) == Ok(out);
      FlagAllOnlyListed(pre.value, dbValid, pairs);
      forall db, id | Flagged(out, db, id) ensures Flagged(flags, db, id) || InSpecific(specific, db, id) {
        if (db, id) in pairs {
          var j :| 0 <= j < |pairs| && pairs[j] == (db, id);
          assert specific[|specific| - 1].0 == db && specific[|specific| - 1].1[j].1 == id;
        } else if !Flagged(flags, db, id) {
          assert Flagged(pre.value, db, id);
          var s, j :| 0 <= s < |init| && 0 <= j < |init[s].1| && init[s].0 == db && init[s].1[j].1 == id;
          assert specific[s] == init[s];
        }
      }
    }
  }

  /** Every pair of the General section comes from one of its groups. */
  lemma {:induction false} GeneralPairsListed(general: seq<(string, seq<(string, ArtistID)>)>, p: (string, ArtistID))
    requires p in GeneralPairs(general)
    ensures exists g, j :: 0 <= g < |general| && 0 <= j < |general[g].1| && general[g].1[j] == p
    decreases |general|
  {
    var init := general[..|general| - 1];
    var pre := GeneralPairs(init);
    var last := general[|general| - 1].1;
    if p in pre {
      GeneralPairsListed(init, p);
      var g, j :| 0 <= g < |init| && 0 <= j < |init[g].1| && init[g].1[j] == p;
      assert general[g] == init[g];
    } else {
      var k :| 0 <= k < |GeneralPairs(general)| && GeneralPairs(general)[k] == p;
      assert GeneralPairs(general) == pre + last;
      assert last[k - |pre|] == p;
    }
  }

  lemma {:induction false} GeneralPairsMembers(general: seq<(string, seq<(string, ArtistID)>)>, i: nat, j: nat)
    requires i < |general| && j < |general[i].1|
    ensures general[i].1[j] in GeneralPairs(general)
    decreases |general|
  {
    if i < |general| - 1 {
      GeneralPairsMembers(general[..|general| - 1], i, j);
      assert general[..|general| - 1][i] == general[i];
    } else {
      var pre := GeneralPairs(general[..|general| - 1]);
      assert GeneralPairs(general)[|pre| + j] == general[i].1[j];
    }
  }

  /** The General section: every listed pair is flagged. */
  lemma GeneralFlagged(flags: Flags, dbValid: string -> bool, general: seq<(string, seq<(string, ArtistID)>)>)
    requires FlagAll(Ok(flags), dbValid, GeneralPairs(general)).Ok?
    ensures forall g, j :: 0 <= g < |general| && 0 <= j < |general[g].1| ==>
      dbValid(general[g].1[j].0) && Flagged(FlagAll(Ok(flags), dbValid, GeneralPairs(general)).value, general[g].1[j].0, general[g].1[j].1)
  {
    var pairs := GeneralPairs(general);
    FlagAllFacts(flags, dbValid, pairs);
    forall g, j | 0 <= g < |general| && 0 <= j < |general[g].1|
      ensures dbValid(general[g].1[j].0) && Flagged(FlagAll(Ok(flags), dbValid, pairs).value, general[g].1[j].0, general[g].1[j].1)
    {
      GeneralPairsMembers(general, g, j);
      var k :| 0 <= k < |pairs| && pairs[k] == general[g].1[j];
    }
  }

  /** After construction every database of `getDBs` has a flag map, only
      True is stored, and every ID listed under General or Specific is
      flagged True in its database. */
  lemma IgnoreFlagsFacts(dbs: seq<string>, dbValid: string -> bool, lists: IgnoreLists)
    requires IgnoreFlags(dbs, dbValid, lists).Ok?
    ensures var flags := IgnoreFlags(dbs, dbValid, lists).value;
      (forall db :: db in dbs ==> db in flags) && OnlyTrue(flags) &&
      (forall g, j :: 0 <= g < |lists.general.value| && 0 <= j < |lists.general.value[g].1| ==>
        Flagged(flags, lists.general.value[g].1[j].0, lists.general.value[g].1[j].1)) &&
      (forall s, j :: 0 <= s < |lists.specific.value| && 0 <= j < |lists.specific.value[s].1| ==>
        Flagged(flags, lists.specific.value[s].0, lists.specific.value[s].1[j].1))
  {
    var e := EmptyFlags(dbs);
    var general := lists.general.value;
    GeneralFlagged(e, dbValid, general);
    FlagAllFacts(e, dbValid, GeneralPairs(general));
    var g := FlagAll(Ok(e), dbValid, GeneralPairs(general)).value;
    FlagSpecificFacts(g, dbValid, lists.specific.value);
    var flags := IgnoreFlags(dbs, dbValid, lists).value;
    assert flags == FlagSpecific(Ok(g), dbValid, lists.specific.value).value;
    forall db | db in dbs ensures db in flags {
      var i :| 0 <= i < |dbs| && dbs[i] == db;
      assert db in e;
    }
  }

  /** An invalid database in either section fails construction. */
  lemma IgnoreFlagsRejects(dbs: seq<string>, dbValid: string -> bool, lists: IgnoreLists)
    requires IgnoreFlags(dbs, dbValid, lists).Ok?
    ensures forall g, j :: 0 <= g < |lists.general.value| && 0 <= j < |lists.general.value[g].1| ==>
      dbValid(lists.general.value[g].1[j].0)
    ensures forall s :: 0 <= s < |lists.specific.value| ==> dbValid(lists.specific.value[s].0)
  {
    var e := EmptyFlags(dbs);
    GeneralFlagged(e, dbValid, lists.general.value);
    var g := FlagAll(Ok(e), dbValid, GeneralPairs(lists.general.value)).value;
    FlagSpecificFacts(g, dbValid, lists.specific.value);
  }

  /** `ignoreDBIDData.get(db, [])`: the flag map of a database, or the
      empty list for one without. */
  datatype DBData = FlagMap(flags: map<ArtistID, bool>) | EmptyList

  /** `MusicDBIgnoreData` as constructed: `mp.isValid` and the flag maps;
      nothing changes them afterwards. */
  datatype IgnoreData = IgnoreData(dbValid: string -> bool, ignoreDBIDData: Flags)
  {
    /** `getDBData`: the database must be valid. */
    function DBDataOf(db: string): (r: Result<DBData>)
      ensures r.Err? <==> !dbValid(db)
      ensures r.Ok? ==> (db in ignoreDBIDData <==> r.value.FlagMap?)
      ensures r.Ok? && r.value.FlagMap? ==> r.value.flags == ignoreDBIDData[db]
    {
      if !dbValid(db) then Err("AssertionError")
      else if db in ignoreDBIDData then Ok(FlagMap(ignoreDBIDData[db]))
      else Ok(EmptyList)
    }

    /** `isValid` as written: `dbData.get(dbID) is False`; a list has no
        `get`. */
    function IsValidAsWritten(db: string, dbID: ArtistID): (r: Result<bool>)
      ensures r.Ok? <==> dbValid(db) && db in ignoreDBIDData
      ensures r.Ok? ==> (r.value <==> dbID in ignoreDBIDData[db] && !ignoreDBIDData[db][dbID])
    {
      var d := DBDataOf(db);
      if d.Err? then Err(d.reason)
      else if d.value.EmptyList? then Err("AttributeError")
      else Ok(dbID in d.value.flags && !d.value.flags[dbID])
    }

    /** `isValid` as intended, like `MatchOmitBase.isValid`:
        `not dbData.get(dbID, False)`. */
    function IsValid(db: string, dbID: ArtistID): (r: Result<bool>)
      ensures r.Ok? <==> dbValid(db) && db in ignoreDBIDData
      ensures r.Ok? ==> (r.value <==> !Flagged(ignoreDBIDData, db, dbID))
    {
      var d := DBDataOf(db);
      if d.Err? then Err(d.reason)
      else if d.value.EmptyList? then Err("AttributeError")
      else Ok(!(dbID in d.value.flags && d.value.flags[dbID]))
    }
  }

  /** As written, `isValid` is false for every ID of a constructed registry,
      listed or not: construction stores only True, and `is False` holds
      only for a stored False. */
  lemma IsValidAsWrittenAlwaysFalse(dbs: seq<string>, dbValid: string -> bool, lists: IgnoreLists, db: string, dbID: ArtistID)
    requires IgnoreFlags(dbs, dbValid, lists).Ok? && dbValid(db) && db in dbs
    ensures IgnoreData(dbValid, IgnoreFlags(dbs, dbValid, lists).value).IsValidAsWritten(db, dbID) == Ok(false)
  {
    IgnoreFlagsFacts(dbs, dbValid, lists);
  }

  /** A concrete registry with one ignored ID: as written, an ID nobody
      listed is reported invalid. */
  lemma IsValidAsWrittenRejectsUnlisted()
    ensures var d := IgnoreData(db => db == "db", map["db" := map["ignored" := true]]);
      d.IsValidAsWritten("db", "other") == Ok(false) && d.IsValid("db", "other") == Ok(true) &&
      d.IsValid("db", "ignored") == Ok(false)
  {
    var d := IgnoreData(db => db == "db", map["db" := map["ignored" := true]]);
    assert !Flagged(d.ignoreDBIDData, "db", "other");
  }

  /** A constructed registry flags only the IDs its sections list. */
  lemma IgnoreFlagsOnlyListed(dbs: seq<string>, dbValid: string -> bool, lists: IgnoreLists, db: string, dbID: ArtistID)
    requires IgnoreFlags(dbs, dbValid, lists).Ok?
    requires Flagged(IgnoreFlags(dbs, dbValid, lists).value, db, dbID)
    ensures InGeneral(lists.general.value, db, dbID) || InSpecific(lists.specific.value, db, dbID)
  {
    var e := EmptyFlags(dbs);
    var general := lists.general.value;
    var g := FlagAll(Ok(e), dbValid, GeneralPairs(general));
    FlagAllOnlyListed(e, dbValid, GeneralPairs(general));
    FlagSpecificOnlyListed(g.value, dbValid, lists.specific.value);
    assert !Flagged(e, db, dbID);
    if Flagged(g.value, db, dbID) {
      GeneralPairsListed(general, (db, dbID));
    }
  }

  /** As intended, an ID of a constructed registry is valid exactly when
      neither section lists it for that database. */
  lemma IsValidAfterConstruction(dbs: seq<string>, dbValid: string -> bool, lists: IgnoreLists, db: string, dbID: ArtistID)
    requires IgnoreFlags(dbs, dbValid, lists).Ok? && dbValid(db) && db in dbs
    ensures var d := IgnoreData(dbValid, IgnoreFlags(dbs, dbValid, lists).value);
      d.IsValid(db, dbID).Ok? &&
      (!d.IsValid(db, dbID).value <==> InGeneral(lists.general.value, db, dbID) || InSpecific(lists.specific.value, db, dbID))
  {
    IgnoreFlagsFacts(dbs, dbValid, lists);
    if Flagged(IgnoreFlags(dbs, dbValid, lists).value, db, dbID) {
      IgnoreFlagsOnlyListed(dbs, dbValid, lists, db, dbID);
    }
  }

  lemma {:induction false} FlagAllAppend(flags: Result<Flags>, dbValid: string -> bool, p: seq<(string, ArtistID)>, q: seq<(string, ArtistID)>)
    ensures FlagAll(flags, dbValid, p + q) == FlagAll(FlagAll(flags, dbValid, p), dbValid, q)
    decreases |q|
  {
    if q == [] {
      assert p + q == p;
    } else {
      var q' := q[..|q| - 1];
      FlagAllAppend(flags, dbValid, p, q');
      assert (p + q)[..|p + q| - 1] == p + q';
    }
  }

  lemma {:induction false} GeneralPairsAppend(a: seq<(string, seq<(string, ArtistID)>)>, b: seq<(string, seq<(string, ArtistID)>)>)
    ensures GeneralPairs(a + b) == GeneralPairs(a) + GeneralPairs(b)
    decreases |b|
  {
    if b == [] {
      assert a + b == a;
    } else {
      var b' := b[..|b| - 1];
      GeneralPairsAppend(a, b');
      assert (a + b)[..|a + b| - 1] == a + b';
    }
  }

  /** A failure in group `g` of General fails the whole section. */
  lemma GeneralFails(flags: Result<Flags>, dbValid: string -> bool, general: seq<(string, seq<(string, ArtistID)>)>, g: nat)
    requires g < |general| && FlagAll(flags, dbValid, GeneralPairs(general[..g + 1])).Err?
    ensures FlagAll(flags, dbValid, GeneralPairs(general)) == FlagAll(flags, dbValid, GeneralPairs(general[..g + 1]))
  {
    var front := general[..g + 1];
    var rest := general[g + 1..];
    assert general == front + rest;
    GeneralPairsAppend(front, rest);
    FlagAllAppend(flags, dbValid, GeneralPairs(front), GeneralPairs(rest));
    FlagAllErr(dbValid, GeneralPairs(rest), FlagAll(flags, dbValid, GeneralPairs(front)).reason);
  }

  lemma {:induction false} FlagSpecificErrPersists(flags: Result<Flags>, dbValid: string -> bool,
                                                   specific: seq<(string, seq<(string, ArtistID)>)>, j: nat)
    requires j <= |specific| && FlagSpecific(flags, dbValid, specific[..j]).Err?
    ensures FlagSpecific(flags, dbValid, specific) == FlagSpecific(flags, dbValid, specific[..j])
    decreases |specific| - j
  {
    if j < |specific| {
      assert specific[..j + 1][..j] == specific[..j];
      FlagSpecificErrPersists(flags, dbValid, specific, j + 1);
    } else {
      assert specific[..j] == specific;
    }
  }

  /** `ignoreDBIDData[db][dbID] = True` for each pair of a list in turn. */
  method FlagEntries(flags0: Flags, dbValid: string -> bool, pairs: seq<(string, ArtistID)>) returns (r: Result<Flags>)
    ensures r == FlagAll(Ok(flags0), dbValid, pairs)
  {
    var flags := flags0;
    var j := 0;
    while j < |pairs|
      invariant 0 <= j <= |pairs|
      invariant FlagAll(Ok(flags0), dbValid, pairs[..j]) == Ok(flags)
    {
      assert pairs[..j + 1][..j] == pairs[..j];
      var f := Flag(flags, dbValid, pairs[j].0, pairs[j].1);
      if f.Err? {
        assert pairs == pairs[..j + 1] + pairs[j + 1..];
        FlagAllAppend(Ok(flags0), dbValid, pairs[..j + 1], pairs[j + 1..]);
        FlagAllErr(dbValid, pairs[j + 1..], f.reason);
        return Err(f.reason);
      }
      flags := f.value;
      j := j + 1;
    }
    assert pairs[..j] == pairs;
    r := Ok(flags);
  }

  /** The General loop of `MusicDBIgnoreData.__init__`. */
  method FlagGeneral(dbs: seq<string>, dbValid: string -> bool, general: seq<(string, seq<(string, ArtistID)>)>)
    returns (r: Result<Flags>)
    ensures r == FlagAll(Ok(EmptyFlags(dbs)), dbValid, GeneralPairs(general))
  {
    var flags := EmptyFlags(dbs);
    var g := 0;
    while g < |general|
      invariant 0 <= g <= |general|
      invariant FlagAll(Ok(EmptyFlags(dbs)), dbValid, GeneralPairs(general[..g])) == Ok(flags)
    {
      assert general[..g + 1][..g] == general[..g];
      FlagAllAppend(Ok(EmptyFlags(dbs)), dbValid, GeneralPairs(general[..g]), general[g].1);
      var f := FlagEntries(flags, dbValid, general[g].1);
      if f.Err? {
        GeneralFails(Ok(EmptyFlags(dbs)), dbValid, general, g);
        return f;
      }
      flags := f.value;
      g := g + 1;
    }
    assert general[..g] == general;
    r := Ok(flags);
  }

  /** The Specific loop of `MusicDBIgnoreData.__init__`. */
  method FlagSpecificEntries(flags0: Flags, dbValid: string -> bool, specific: seq<(string, seq<(string, ArtistID)>)>)
    returns (r: Result<Flags>)
    ensures r == FlagSpecific(Ok(flags0), dbValid, specific)
  {
    var flags := flags0;
    var s := 0;
    while s < |specific|
      invariant 0 <= s <= |specific|
      invariant FlagSpecific(Ok(flags0), dbValid, specific[..s]) == Ok(flags)
    {
      assert specific[..s + 1][..s] == specific[..s];
      var db := specific[s].0;
      if !dbValid(db) {
        FlagSpecificErrPersists(Ok(flags0), dbValid, specific, s + 1);
        return Err("AssertionError");
      }
      var f := FlagEntries(flags, dbValid, SpecificPairs(db, specific[s].1));
      if f.Err? {
        FlagSpecificErrPersists(Ok(flags0), dbValid, specific, s + 1);
        return f;
      }
      flags := f.value;
      s := s + 1;
    }
    assert specific[..s] == specific;
    r := Ok(flags);
  }

  /** `MusicDBIgnoreData()` from the loaded ignore lists. */
  method NewIgnoreData(dbs: seq<string>, dbValid: string -> bool, lists: IgnoreLists) returns (r: Result<IgnoreData>)
    ensures r.Ok? <==> IgnoreFlags(dbs, dbValid, lists).Ok?
    ensures r.Err? ==> r.reason == IgnoreFlags(dbs, dbValid, lists).reason
    ensures r.Ok? ==> r.value.dbValid == dbValid && r.value.ignoreDBIDData == IgnoreFlags(dbs, dbValid, lists).value
  {
    if lists.general.None? {
      return Err("KeyError");
    }
    var flags := FlagGeneral(dbs, dbValid, lists.general.value);
    if flags.Err? {
      return Err(flags.reason);
    }
    if lists.specific.None? {
      return Err("KeyError");
    }
    flags := FlagSpecificEntries(flags.value, dbValid, lists.specific.value);
    if flags.Err? {
      return Err(flags.reason);
    }
    r := Ok(IgnoreData(dbValid, flags.value));
  }
}
