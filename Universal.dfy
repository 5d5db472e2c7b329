/** `UniversalMetaProducer`: the basic per-artist facts of a shard (name,
    URL, album count) and the per-artist release-year statistics. */
module Universal {
  import opened Values
  import opened Tables
  import opened ProdBase

  // =====================================================================
  // getBasicMetaData
  // =====================================================================

  /** The three columns of the basic table, in order. */
  const BasicColumns: seq<string> := ["ArtistName", "URL", "NumAlbums"]

  /** One artist's row: `rData.artist.name`, `rData.url.url` and the sum of
      `rData.mediaCounts.counts`; AttributeError when one is missing. */
  function BasicRow(rData: RawRecord): (r: Result<Row>)
    ensures r.Ok? <==> rData.artistName.Some? && rData.url.Some? && rData.mediaCounts.Some?
    ensures r.Ok? ==> r.value.Keys == {"ArtistName", "URL", "NumAlbums"}
    ensures r.Ok? ==> r.value["ArtistName"] == rData.artistName.value && r.value["URL"] == rData.url.value
    ensures r.Ok? ==> r.value["NumAlbums"] == CInt(Sum(rData.mediaCounts.value))
  {
    if rData.artistName.None? || rData.url.None? || rData.mediaCounts.None? then Err("AttributeError")
    else Ok(map["ArtistName" := rData.artistName.value, "URL" := rData.url.value,
                "NumAlbums" := CInt(Sum(rData.mediaCounts.value))])
  }

  function BasicRows(modValData: seq<(ArtistID, RawRecord)>): Result<seq<(ArtistID, Row)>> {
    if modValData == [] then Ok([])
    else
      var row := BasicRow(modValData[0].1);
      var rest := BasicRows(modValData[1..]);
      if row.Err? then Err(row.reason)
      else if rest.Err? then rest
      else Ok([(modValData[0].0, row.value)] + rest.value)
  }

  /** `getBasicMetaData`: the ArtistName, URL and NumAlbums columns, one
      row per artist of the shard in shard order. */
  function BasicMetaData(modValData: seq<(ArtistID, RawRecord)>): (r: Result<Frame<ArtistID>>)
    ensures r.Ok? ==> r.value.cols == BasicColumns
  {
    var rows := BasicRows(modValData);
    if rows.Err? then Err(rows.reason) else Ok(Frame(BasicColumns, rows.value))
  }

  /** The basic table fails exactly when some artist lacks one of the
      attributes; otherwise it has one row per artist, in order, holding that
      artist's name, URL and album total. */
  lemma {:induction false} BasicMetaDataRows(modValData: seq<(ArtistID, RawRecord)>)
    ensures BasicMetaData(modValData).Ok? <==> forall i :: 0 <= i < |modValData| ==> BasicRow(modValData[i].1).Ok?
    ensures BasicMetaData(modValData).Ok? ==>
      |BasicMetaData(modValData).value.rows| == |modValData| &&
      forall i :: 0 <= i < |modValData| ==>
        BasicMetaData(modValData).value.rows[i] == (modValData[i].0, BasicRow(modValData[i].1).value)
    decreases |modValData|
  {
    if modValData != [] {
      BasicMetaDataRows(modValData[1..]);
      assert forall i :: 1 <= i < |modValData| ==> modValData[1..][i - 1] == modValData[i];
      if BasicRows(modValData).Ok? {
        var rows := BasicRows(modValData).value;
        assert rows == [(modValData[0].0, BasicRow(modValData[0].1).value)] + BasicRows(modValData[1..]).value;
        forall i | 0 <= i < |modValData| ensures rows[i] == (modValData[i].0, BasicRow(modValData[i].1).value) {
          if i > 0 {
            assert rows[i] == BasicRows(modValData[1..]).value[i - 1];
          }
        }
      }
    }
  }

  /** Building the basic table of two shards at once is concatenating their
      tables. */
  lemma {:induction false} BasicMetaDataAppend(a: seq<(ArtistID, RawRecord)>, b: seq<(ArtistID, RawRecord)>)
    requires BasicMetaData(a).Ok? && BasicMetaData(b).Ok?
    ensures BasicMetaData(a + b) == Ok(Frame(BasicColumns, BasicMetaData(a).value.rows + BasicMetaData(b).value.rows))
    decreases |a|
  {
    if a == [] {
      assert a + b == b;
      assert BasicMetaData(a).value.rows == [];
      assert [] + BasicMetaData(b).value.rows == BasicMetaData(b).value.rows;
    } else {
      assert (a + b)[0] == a[0];
      assert (a + b)[1..] == a[1..] + b;
      BasicMetaDataAppend(a[1..], b);
      var head := [(a[0].0, BasicRow(a[0].1).value)];
      var ra, rb := BasicRows(a[1..]).value, BasicRows(b).value;
      assert BasicRows(a + b) == Ok(head + (ra + rb));
      assert BasicRows(a).value == head + ra;
      assert head + (ra + rb) == (head + ra) + rb;
    }
  }

  // =====================================================================
  // int(year)
  // =====================================================================

  /** The whitespace `int()` ignores around its argument (ASCII). */
  predicate IsSpace(c: char) {
    c == ' ' || c == '\t' || c == '\n' || c == '\r' || c == '\U{B}' || c == '\U{C}' || '\U{1C}' <= c <= '\U{1F}'
  }

  predicate IsDigit(c: char) {
    '0' <= c <= '9'
  }

  function StripLeft(s: string): (r: string)
    ensures |r| <= |s| && (r != [] ==> !IsSpace(r[0]))
    ensures forall i :: 0 <= i < |s| - |r| ==> IsSpace(s[i])
    ensures r == s[|s| - |r|..]
  {
    if s != [] && IsSpace(s[0]) then StripLeft(s[1..]) else s
  }

  function StripRight(s: string): (r: string)
    ensures |r| <= |s| && r == s[..|r|]
    ensures r != [] ==> !IsSpace(r[|r| - 1])
    ensures forall i :: |r| <= i < |s| ==> IsSpace(s[i])
    decreases |s|
  {
    if s != [] && IsSpace(s[|s| - 1]) then
      var r := StripRight(s[..|s| - 1]);
      assert forall i :: |r| <= i < |s| - 1 ==> s[..|s| - 1][i] == s[i];
      r
    else s
  }

  /** `s.strip()`. */
  function Strip(s: string): string {
    StripRight(StripLeft(s))
  }

  /** Decimal digits with single underscores between them, as `int()`
      accepts them. */
  predicate ValidDigits(s: string) {
    s != [] && IsDigit(s[0]) && IsDigit(s[|s| - 1]) &&
    (forall i :: 0 <= i < |s| ==> IsDigit(s[i]) || s[i] == '_') &&
    (forall i :: 0 <= i < |s| - 1 ==> !(s[i] == '_' && s[i + 1] == '_'))
  }

  function DigitsValue(s: string): nat
    decreases |s|
  {
    if s == [] then 0
    else if IsDigit(s[|s| - 1]) then 10 * DigitsValue(s[..|s| - 1]) + (s[|s| - 1] as int - '0' as int)
    else DigitsValue(s[..|s| - 1])
  }

  /** `int(s)` on a string: surrounding whitespace, an optional sign, then
      digits; `None` when `int()` raises ValueError. */
  function ParseIntStr(s: string): (r: Option<int>)
    ensures r.Some? ==> Strip(s) != []
  {
    var t := Strip(s);
    if t != [] && (t[0] == '-' || t[0] == '+') then
      var v: int := DigitsValue(t[1..]);
      if ValidDigits(t[1..]) then Some(if t[0] == '-' then -v else v) else None
    else if ValidDigits(t) then Some(DigitsValue(t))
    else None
  }

  /** `int(year)` inside `try`: `None` when it raises (TypeError for
      `None`, lists, dicts and other objects; ValueError for a string that is
      not an integer literal). */
  function PyInt(c: Cell): (r: Option<int>)
    ensures c.CInt? ==> r == Some(c.i)
    ensures c.CNone? || c.CList? || c.CDict? || c.COther? ==> r.None?
  {
    match c
    case CInt(i) => Some(i)
    case CBool(b) => Some(if b then 1 else 0)
    case CStr(s) => ParseIntStr(s)
    case _ => None
  }

  function DigitChar(d: int): char
    requires 0 <= d < 10
  {
    ('0' as int + d) as char
  }

  /** `str(n)` for a natural number. */
  function ShowNat(n: nat): (r: string)
    ensures r != [] && forall i :: 0 <= i < |r| ==> IsDigit(r[i])
  {
    if n < 10 then [DigitChar(n)] else ShowNat(n / 10) + [DigitChar(n % 10)]
  }

  /** `str(n)`. */
  function ShowInt(n: int): string {
    if n < 0 then "-" + ShowNat(-n) else ShowNat(n)
  }

  lemma {:induction false} DigitsOfShowNat(n: nat)
    ensures ValidDigits(ShowNat(n)) && DigitsValue(ShowNat(n)) == n
  {
    if n >= 10 {
      DigitsOfShowNat(n / 10);
      var s := ShowNat(n);
      assert s[..|s| - 1] == ShowNat(n / 10);
    }
  }

  lemma StripNoSpace(s: string)
    requires s != [] && !IsSpace(s[0]) && !IsSpace(s[|s| - 1])
    ensures Strip(s) == s
  {
  }

  /** `int(str(n)) == n`: a year written out by `str` reads back as itself. */
  lemma ParseShowInt(n: int)
    ensures ParseIntStr(ShowInt(n)) == Some(n)
    ensures PyInt(CStr(ShowInt(n))) == Some(n)
  {
    if n < 0 {
      ParseShowNegative(n);
    } else {
      ParseShowNat(n);
    }
  }

  lemma ParseShowNat(n: nat)
    ensures ParseIntStr(ShowInt(n)) == Some(n)
  {
    var s := ShowNat(n);
    DigitsOfShowNat(n);
    assert IsDigit(s[0]) && IsDigit(s[|s| - 1]);
    StripNoSpace(s);
    assert s[0] != '-' && s[0] != '+';
  }

  lemma ParseShowNegative(n: int)
    requires n < 0
    ensures ParseIntStr(ShowInt(n)) == Some(n)
  {
    var m: nat := -n;
    var d := ShowNat(m);
    DigitsOfShowNat(m);
    ParseNegativeDigits(d);
    assert ShowInt(n) == "-" + d;
  }

  /** `int("-" + digits)` is the negated value of the digits. */
  lemma ParseNegativeDigits(d: string)
    requires ValidDigits(d)
    ensures ParseIntStr("-" + d) == Some(-(DigitsValue(d) as int))
  {
    var s := "-" + d;
    assert s[1..] == d;
    assert s[|s| - 1] == d[|d| - 1];
    StripNoSpace(s);
  }

  /** Letters in a year make `int()` fail, so the year is dropped. */
  lemma NonNumericYearDropped(s: string)
    requires exists i :: 0 <= i < |s| && !IsDigit(s[i]) && !IsSpace(s[i]) && s[i] != '_' && s[i] != '-' && s[i] != '+'
    ensures PyInt(CStr(s)) == None
  {
    var i :| 0 <= i < |s| && !IsDigit(s[i]) && !IsSpace(s[i]) && s[i] != '_' && s[i] != '-' && s[i] != '+';
    var t := Strip(s);
    var j := StripKeeps(s, i);
    if t[0] == '-' || t[0] == '+' {
      assert j >= 1;
      assert t[1..][j - 1] == t[j];
    }
  }

  /** A character that is not whitespace survives `strip()`. */
  lemma StripKeeps(s: string, i: nat) returns (j: nat)
    requires i < |s| && !IsSpace(s[i])
    ensures j < |Strip(s)| && Strip(s)[j] == s[i]
  {
    var l := StripLeft(s);
    var t := StripRight(l);
    var off := |s| - |l|;
    assert i >= off;
    assert l[i - off] == s[i];
    j := i - off;
    assert j < |t|;
    assert t[j] == l[j];
  }

  // =====================================================================
  // getDatesMetaData / getMediaDateStats
  // =====================================================================

  /** The statistics of one artist: `(min, max, int(median))` of the
      parsed years, or `(None, None, None)` when none parsed. */
  datatype DateStats = YearStats(minYear: int, maxYear: int, medianYear: int) | NoYears

  /** The years of one media type that `int()` accepts, in order. */
  function ParsedYears(years: seq<Cell>): (r: seq<int>)
    ensures |r| <= |years|
    decreases |years|
  {
    if years == [] then []
    else
      var v := PyInt(years[|years| - 1]);
      ParsedYears(years[..|years| - 1]) + (if v.Some? then [v.value] else [])
  }

  /** Every parsed year comes from a year `int()` accepts, and every such
      year is kept. */
  lemma {:induction false} ParsedYearsMembers(years: seq<Cell>)
    ensures forall y :: y in ParsedYears(years) ==> exists i :: 0 <= i < |years| && PyInt(years[i]) == Some(y)
    ensures forall i :: 0 <= i < |years| && PyInt(years[i]).Some? ==> PyInt(years[i]).value in ParsedYears(years)
    decreases |years|
  {
    if years != [] {
      var n := |years| - 1;
      var init := years[..n];
      var v := PyInt(years[n]);
      ParsedYearsMembers(init);
      var front := ParsedYears(init);
      assert ParsedYears(years) == front + (if v.Some? then [v.value] else []);
      forall y | y in ParsedYears(years) ensures exists i :: 0 <= i < |years| && PyInt(years[i]) == Some(y) {
        if y in front {
          var i :| 0 <= i < |init| && PyInt(init[i]) == Some(y);
          assert years[i] == init[i];
        } else {
          assert PyInt(years[n]) == Some(y);
        }
      }
      forall i | 0 <= i < |years| && PyInt(years[i]).Some? ensures PyInt(years[i]).value in ParsedYears(years) {
        if i < n {
          assert init[i] == years[i];
        }
      }
    }
  }

  /** The media types with at least one parsed year, with their years. */
  function NonEmptyParsed(mediaDates: seq<(string, seq<Cell>)>): (r: seq<(string, seq<int>)>)
    ensures forall i :: 0 <= i < |r| ==> r[i].1 != []
    decreases |mediaDates|
  {
    if mediaDates == [] then []
    else
      var (mediaType, years) := mediaDates[|mediaDates| - 1];
      var data := ParsedYears(years);
      NonEmptyParsed(mediaDates[..|mediaDates| - 1]) + (if |data| > 0 then [(mediaType, data)] else [])
  }

  /** All parsed years: `getFlatList(mediaTypeDates.values())`. */
  function AllYears(mediaDates: seq<(string, seq<Cell>)>): seq<int> {
    Flatten(ValuesOf(FromPairs(NonEmptyParsed(mediaDates))))
  }

  function MinOf(s: seq<int>): (m: int)
    requires s != []
    ensures m in s && forall x :: x in s ==> m <= x
  {
    if |s| == 1 then s[0]
    else
      var m := MinOf(s[1..]);
      assert forall x :: x in s ==> x == s[0] || x in s[1..];
      if s[0] <= m then s[0] else m
  }

  function MaxOf(s: seq<int>): (m: int)
    requires s != []
    ensures m in s && forall x :: x in s ==> x <= m
  {
    if |s| == 1 then s[0]
    else
      var m := MaxOf(s[1..]);
      assert forall x :: x in s ==> x == s[0] || x in s[1..];
      if s[0] >= m then s[0] else m
  }

  predicate SortedInts(s: seq<int>) {
    forall i, j :: 0 <= i < j < |s| ==> s[i] <= s[j]
  }

  function Insert(x: int, s: seq<int>): (r: seq<int>)
    requires SortedInts(s)
    ensures SortedInts(r) && multiset(r) == multiset(s) + multiset{x}
    decreases |s|
  {
    if s == [] then [x]
    else if x <= s[0] then [x] + s
    else
      var t := Insert(x, s[1..]);
      InsertBound(x, s, t);
      [s[0]] + t
  }

  /** Inserting past the head keeps the head in front. */
  lemma InsertBound(x: int, s: seq<int>, t: seq<int>)
    requires SortedInts(s) && s != [] && s[0] < x
    requires SortedInts(t) && multiset(t) == multiset(s[1..]) + multiset{x}
    ensures SortedInts([s[0]] + t) && multiset([s[0]] + t) == multiset(s) + multiset{x}
  {
    assert s == [s[0]] + s[1..];
    HeadBelow(x, s, t);
  }

  lemma HeadBelow(x: int, s: seq<int>, t: seq<int>)
    requires SortedInts(s) && s != [] && s[0] < x
    requires multiset(t) == multiset(s[1..]) + multiset{x}
    ensures forall k :: 0 <= k < |t| ==> s[0] <= t[k]
  {
    forall k | 0 <= k < |t| ensures s[0] <= t[k] {
      assert t[k] in multiset(t);
      if t[k] != x {
        assert t[k] in multiset(s[1..]);
        var j :| 0 <= j < |s[1..]| && s[1..][j] == t[k];
        assert s[j + 1] == t[k];
      }
    }
  }

  /** `sorted(s)`, as `statistics.median` sorts. */
  function SortInts(s: seq<int>): (r: seq<int>)
    ensures SortedInts(r) && multiset(r) == multiset(s)
  {
    if s == [] then []
    else
      assert s == [s[0]] + s[1..];
      Insert(s[0], SortInts(s[1..]))
  }

  /** `int(x / 2)`: halving, truncated toward zero. */
  function TruncHalf(x: int): (r: int)
    ensures x >= 0 ==> r == x / 2
    ensures 2 * r == x || 2 * r == x + 1 || 2 * r == x - 1
    ensures x >= 0 ==> 2 * r <= x
    ensures x < 0 ==> 2 * r >= x
  {
    if x >= 0 then x / 2 else -((-x) / 2)
  }

  /** `int(statistics.median(s))`: the middle of the sorted years, or the
      mean of the two middle ones truncated toward zero. */
  function MedianOf(s: seq<int>): int
    requires s != []
  {
    var t := SortInts(s);
    var n := |t|;
    if n % 2 == 1 then t[n / 2] else TruncHalf(t[n / 2 - 1] + t[n / 2])
  }

  /** What `getMediaDateStats(mediaDates)` returns. */
  function DateStatsSpec(mediaDates: seq<(string, seq<Cell>)>): DateStats {
    var years := AllYears(mediaDates);
    if |years| > 0 then YearStats(MinOf(years), MaxOf(years), MedianOf(years)) else NoYears
  }

  /** The years of one media type: `int(year)` of each, skipping those that
      raise. */
  method ParseTypeYears(mediaTypeYears: seq<Cell>) returns (data: seq<int>)
    ensures data == ParsedYears(mediaTypeYears)
  {
    data := [];
    var j := 0;
    while j < |mediaTypeYears|
      invariant 0 <= j <= |mediaTypeYears|
      invariant data == ParsedYears(mediaTypeYears[..j])
    {
      assert mediaTypeYears[..j + 1][..j] == mediaTypeYears[..j];
      var yearValue := PyInt(mediaTypeYears[j]);
      j := j + 1;
      if yearValue.None? {
        continue;
      }
      data := data + [yearValue.value];
    }
    assert mediaTypeYears[..j] == mediaTypeYears;
  }

  lemma NonEmptyParsedStep(mediaDates: seq<(string, seq<Cell>)>, i: nat)
    requires i < |mediaDates|
    ensures var data := ParsedYears(mediaDates[i].1);
      NonEmptyParsed(mediaDates[..i + 1]) ==
        NonEmptyParsed(mediaDates[..i]) + (if |data| > 0 then [(mediaDates[i].0, data)] else [])
  {
    assert mediaDates[..i + 1][..i] == mediaDates[..i];
  }

  /** One more media type adds its parsed years to the dict under
      construction when there are any. */
  lemma DateStatsStep(mediaDates: seq<(string, seq<Cell>)>, i: nat)
    requires i < |mediaDates|
    ensures var data := ParsedYears(mediaDates[i].1);
      var pre := FromPairs(NonEmptyParsed(mediaDates[..i]));
      FromPairs(NonEmptyParsed(mediaDates[..i + 1])) == if |data| > 0 then Put(pre, mediaDates[i].0, data) else pre
  {
    NonEmptyParsedStep(mediaDates, i);
    var data := ParsedYears(mediaDates[i].1);
    if |data| > 0 {
      var pre := NonEmptyParsed(mediaDates[..i + 1]);
      assert pre[..|pre| - 1] == NonEmptyParsed(mediaDates[..i]);
      assert pre[|pre| - 1] == (mediaDates[i].0, data);
      assert FromPairs(pre) == Put(FromPairs(pre[..|pre| - 1]), pre[|pre| - 1].0, pre[|pre| - 1].1);
    } else {
      assert NonEmptyParsed(mediaDates[..i + 1]) == NonEmptyParsed(mediaDates[..i]);
    }
  }

  /** `getMediaDateStats`: parses the years of every media type, keeps the
      media types with at least one, and takes min, max and median of all
      of them. */
  method MediaDateStats(mediaDates: seq<(string, seq<Cell>)>) returns (r: DateStats)
    ensures r == DateStatsSpec(mediaDates)
  {
    var mediaTypeDates: seq<(string, seq<int>)> := [];
    var i := 0;
    while i < |mediaDates|
      invariant 0 <= i <= |mediaDates|
      invariant mediaTypeDates == FromPairs(NonEmptyParsed(mediaDates[..i]))
    {
      var mediaType, mediaTypeYears := mediaDates[i].0, mediaDates[i].1;
      var mediaTypeYearsData := ParseTypeYears(mediaTypeYears);
      DateStatsStep(mediaDates, i);
      if |mediaTypeYearsData| > 0 {
        mediaTypeDates := Put(mediaTypeDates, mediaType, mediaTypeYearsData);
      }
      i := i + 1;
    }
    assert mediaDates[..|mediaDates|] == mediaDates;
    var years := Flatten(ValuesOf(mediaTypeDates));
    if |years| > 0 {
      r := YearStats(MinOf(years), MaxOf(years), MedianOf(years));
    } else {
      r := NoYears;
    }
  }

  /** The statistics are ordered: min <= median <= max. */
  lemma MedianBetween(s: seq<int>)
    requires s != []
    ensures MinOf(s) <= MedianOf(s) <= MaxOf(s)
  {
    var t := SortInts(s);
    var n := |t|;
    assert |t| == |s| by {
      assert |multiset(t)| == |multiset(s)|;
    }
    forall k | 0 <= k < n ensures MinOf(s) <= t[k] <= MaxOf(s) {
      assert t[k] in multiset(t);
      assert t[k] in s;
    }
    if n % 2 == 0 {
      assert MinOf(s) <= t[n / 2 - 1] && t[n / 2] <= MaxOf(s);
    }
  }

  lemma DateStatsOrdered(mediaDates: seq<(string, seq<Cell>)>)
    ensures DateStatsSpec(mediaDates).YearStats? ==>
      DateStatsSpec(mediaDates).minYear <= DateStatsSpec(mediaDates).medianYear <= DateStatsSpec(mediaDates).maxYear
  {
    if |AllYears(mediaDates)| > 0 {
      MedianBetween(AllYears(mediaDates));
    }
  }

  lemma {:induction false} NonEmptyParsedUnique(mediaDates: seq<(string, seq<Cell>)>)
    requires UniqueKeys(mediaDates)
    ensures UniqueKeys(NonEmptyParsed(mediaDates))
    ensures forall k :: k in KeySet(NonEmptyParsed(mediaDates)) ==> k in KeySet(mediaDates)
    decreases |mediaDates|
  {
    if mediaDates != [] {
      var init := mediaDates[..|mediaDates| - 1];
      assert UniqueKeys(init) by {
        forall a, b | 0 <= a < b < |init| ensures init[a].0 != init[b].0 {
          assert init[a] == mediaDates[a] && init[b] == mediaDates[b];
        }
      }
      NonEmptyParsedUnique(init);
      var rest := NonEmptyParsed(init);
      forall k | k in KeySet(init) ensures k in KeySet(mediaDates) {
        var i :| 0 <= i < |init| && init[i].0 == k;
        assert mediaDates[i] == init[i];
      }
      forall i | 0 <= i < |rest| ensures rest[i].0 != mediaDates[|mediaDates| - 1].0 {
        assert rest[i].0 in KeySet(rest);
        var j :| 0 <= j < |init| && init[j].0 == rest[i].0;
        assert mediaDates[j] == init[j];
      }
      assert mediaDates[|mediaDates| - 1].0 in KeySet(mediaDates);
    }
  }

  lemma {:induction false} FlattenNonEmptyParsed(mediaDates: seq<(string, seq<Cell>)>)
    ensures Flatten(ValuesOf(NonEmptyParsed(mediaDates))) ==
      Flatten(seq(|mediaDates|, i requires 0 <= i < |mediaDates| => ParsedYears(mediaDates[i].1)))
    decreases |mediaDates|
  {
    var all := seq(|mediaDates|, i requires 0 <= i < |mediaDates| => ParsedYears(mediaDates[i].1));
    if mediaDates != [] {
      var init := mediaDates[..|mediaDates| - 1];
      FlattenNonEmptyParsed(init);
      var allInit := seq(|init|, i requires 0 <= i < |init| => ParsedYears(init[i].1));
      var data := ParsedYears(mediaDates[|mediaDates| - 1].1);
      assert all == allInit + [data];
      FlattenAppend(allInit, [data]);
      var extra := if |data| > 0 then [(mediaDates[|mediaDates| - 1].0, data)] else [];
      assert ValuesOf(NonEmptyParsed(mediaDates)) == ValuesOf(NonEmptyParsed(init)) + ValuesOf(extra);
      FlattenAppend(ValuesOf(NonEmptyParsed(init)), ValuesOf(extra));
      assert Flatten([data]) == data by {
        assert [data][1..] == [];
      }
      if |data| > 0 {
        assert ValuesOf(extra) == [data];
      } else {
        assert ValuesOf(extra) == [];
      }
    } else {
      assert all == [];
    }
  }

  /** For a media-year dict (distinct media types) the statistics are over
      exactly the parsed years of all media types, in order. */
  lemma AllYearsOfDict(mediaDates: seq<(string, seq<Cell>)>)
    requires UniqueKeys(mediaDates)
    ensures AllYears(mediaDates) == Flatten(seq(|mediaDates|, i requires 0 <= i < |mediaDates| => ParsedYears(mediaDates[i].1)))
  {
    NonEmptyParsedUnique(mediaDates);
    FromPairsOfUnique(NonEmptyParsed(mediaDates));
    FlattenNonEmptyParsed(mediaDates);
  }

  /** No parsed year at all gives `(None, None, None)`. */
  lemma NoParsedYears(mediaDates: seq<(string, seq<Cell>)>)
    requires forall i, j :: 0 <= i < |mediaDates| && 0 <= j < |mediaDates[i].1| ==> PyInt(mediaDates[i].1[j]).None?
    ensures DateStatsSpec(mediaDates) == NoYears
  {
    assert NonEmptyParsed(mediaDates) == [] by {
      NoParsedYearsEmpty(mediaDates);
    }
  }

  lemma {:induction false} ParsedYearsNone(years: seq<Cell>)
    requires forall j :: 0 <= j < |years| ==> PyInt(years[j]).None?
    ensures ParsedYears(years) == []
    decreases |years|
  {
    if years != [] {
      ParsedYearsNone(years[..|years| - 1]);
    }
  }

  lemma {:induction false} NoParsedYearsEmpty(mediaDates: seq<(string, seq<Cell>)>)
    requires forall i, j :: 0 <= i < |mediaDates| && 0 <= j < |mediaDates[i].1| ==> PyInt(mediaDates[i].1[j]).None?
    ensures NonEmptyParsed(mediaDates) == []
    decreases |mediaDates|
  {
    if mediaDates != [] {
      var init := mediaDates[..|mediaDates| - 1];
      assert forall i :: 0 <= i < |init| ==> init[i] == mediaDates[i];
      NoParsedYearsEmpty(init);
      var years := mediaDates[|mediaDates| - 1].1;
      ParsedYearsNone(years);
    }
  }

  /** `getDatesMetaData`: the statistics of every artist of the shard over
      the years `getMediaDates` gives. That returns `{}` before reading any
      release, so every artist gets `(None, None, None)`. */
  function DatesMetaData(modValData: seq<(ArtistID, RawRecord)>): (r: seq<(ArtistID, DateStats)>)
    ensures |r| == |modValData|
    ensures forall i :: 0 <= i < |modValData| ==> r[i] == (modValData[i].0, NoYears)
  {
    seq(|modValData|, i requires 0 <= i < |modValData| => (modValData[i].0, DateStatsSpec(GetMediaDates(modValData[i].1))))
  }
}
