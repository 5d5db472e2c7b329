/** Python values and containers as the pipeline uses them: optional and
    failing results, dynamically typed cells, dicts built from key/value
    pairs (insertion-ordered, last assignment wins), `str.split`, list
    indexing with negative positions, and substring tests. */
module Values {

  datatype Option<+T> = None | Some(value: T)

  /** An operation that either returns a value or raises (a Python exception
      or a failed `assert`); `reason` names the exception. */
  datatype Result<+T> = Ok(value: T) | Err(reason: string)

  type ArtistID = string

  /** A Python object stored in a table cell, an attribute or a dict value.
      `CNone` stands both for `None` and for an unset (NaN) table cell. */
  datatype Cell =
    | CNone
    | CBool(b: bool)
    | CInt(i: int)
    | CStr(s: string)
    | CList(items: seq<Cell>)
    | CDict(entries: seq<(string, Cell)>)
    | COther

  /** Python truthiness (`bool(x)`); any other object is truthy. */
  predicate Truthy(c: Cell) {
    match c
    case CNone => false
    case CBool(b) => b
    case CInt(i) => i != 0
    case CStr(s) => s != ""
    case CList(items) => items != []
    case CDict(entries) => entries != []
    case COther => true
  }

  // ---------------------------------------------------------------------
  // Keys of a sequence of pairs, dict(pairs) and ordered dict assignment
  // ---------------------------------------------------------------------

  function KeySet<K, V>(s: seq<(K, V)>): set<K> {
    set i | 0 <= i < |s| :: s[i].0
  }

  predicate UniqueKeys<K(==), V>(s: seq<(K, V)>) {
    forall i, j :: 0 <= i < j < |s| ==> s[i].0 != s[j].0
  }

  /** The mapping `dict(s)` denotes: every key of `s`, bound to the value of
      its last occurrence. */
  function Latest<K, V>(s: seq<(K, V)>): (m: map<K, V>)
    ensures m.Keys == KeySet(s)
    decreases |s|
  {
    if s == [] then map[]
    else
      var init := s[..|s| - 1];
      assert KeySet(s) == KeySet(init) + {s[|s| - 1].0} by {
        forall k | k in KeySet(s) ensures k in KeySet(init) + {s[|s| - 1].0} {
          var i :| 0 <= i < |s| && s[i].0 == k;
          if i < |s| - 1 { assert init[i] == s[i]; }
        }
        forall k | k in KeySet(init) ensures k in KeySet(s) {
          var i :| 0 <= i < |init| && init[i].0 == k;
          assert s[i] == init[i];
        }
      }
      Latest(init)[s[|s| - 1].0 := s[|s| - 1].1]
  }

  /** In a sequence without duplicate keys every pair is what `dict` keeps. */
  lemma {:induction false} LatestUnique<K, V>(s: seq<(K, V)>, i: nat)
    requires UniqueKeys(s) && i < |s|
    ensures s[i].0 in Latest(s) && Latest(s)[s[i].0] == s[i].1
    decreases |s|
  {
    if i < |s| - 1 {
      var init := s[..|s| - 1];
      assert init[i] == s[i];
      assert UniqueKeys(init) by {
        forall a, b | 0 <= a < b < |init| ensures init[a].0 != init[b].0 {
          assert init[a] == s[a] && init[b] == s[b];
        }
      }
      LatestUnique(init, i);
    }
  }

  /** What `dict` keeps for a key is the value of one of its pairs. */
  lemma {:induction false} LatestValue<K, V>(s: seq<(K, V)>, k: K)
    requires k in KeySet(s)
    ensures exists i :: 0 <= i < |s| && s[i] == (k, Latest(s)[k])
    decreases |s|
  {
    var init := s[..|s| - 1];
    if s[|s| - 1].0 != k {
      var i :| 0 <= i < |s| && s[i].0 == k;
      assert init[i] == s[i];
      LatestValue(init, k);
      var j :| 0 <= j < |init| && init[j] == (k, Latest(init)[k]);
      assert s[j] == init[j];
    }
  }

  /** The first position at which key `k` occurs. */
  function IndexOf<K(==), V>(d: seq<(K, V)>, k: K): (i: nat)
    requires k in KeySet(d)
    ensures i < |d| && d[i].0 == k
    ensures forall j :: 0 <= j < i ==> d[j].0 != k
    decreases |d|
  {
    if d[0].0 == k then 0
    else
      assert k in KeySet(d[1..]) by {
        var j :| 0 <= j < |d| && d[j].0 == k;
        assert d[1..][j - 1] == d[j];
      }
      IndexOf(d[1..], k) + 1
  }

  /** The keys of two pair lists put together. */
  lemma KeySetAppend<K, V>(a: seq<(K, V)>, b: seq<(K, V)>)
    ensures KeySet(a + b) == KeySet(a) + KeySet(b)
  {
    var ab := a + b;
    forall k | k in KeySet(ab) ensures k in KeySet(a) + KeySet(b) {
      var i :| 0 <= i < |ab| && ab[i].0 == k;
      if i < |a| {
        assert ab[i] == a[i];
      } else {
        assert ab[i] == b[i - |a|];
      }
    }
    forall k | k in KeySet(a) + KeySet(b) ensures k in KeySet(ab) {
      if k in KeySet(a) {
        var i :| 0 <= i < |a| && a[i].0 == k;
        assert ab[i] == a[i];
      } else {
        var i :| 0 <= i < |b| && b[i].0 == k;
        assert ab[|a| + i] == b[i];
      }
    }
  }

  lemma AppendAssoc<T>(a: seq<T>, b: seq<T>, c: seq<T>)
    ensures a + b + c == a + (b + c)
  {
  }

  /** `d[k] = v` on an insertion-ordered dict: an existing key keeps its
      position and takes the new value, a new key goes to the end. */
  function Put<K(==), V>(d: seq<(K, V)>, k: K, v: V): seq<(K, V)> {
    if k in KeySet(d) then d[IndexOf(d, k) := (k, v)] else d + [(k, v)]
  }

  lemma PutKeySet<K, V>(d: seq<(K, V)>, k: K, v: V)
    ensures KeySet(Put(d, k, v)) == KeySet(d) + {k}
  {
    var p := Put(d, k, v);
    if k in KeySet(d) {
      var x := IndexOf(d, k);
      forall q | q in KeySet(p) ensures q in KeySet(d) + {k} {
        var i :| 0 <= i < |p| && p[i].0 == q;
        if i != x { assert p[i] == d[i]; }
      }
      forall q | q in KeySet(d) + {k} ensures q in KeySet(p) {
        if q == k { assert p[x].0 == k; }
        else { var i :| 0 <= i < |d| && d[i].0 == q; assert p[i].0 == q; }
      }
    } else {
      forall q | q in KeySet(p) ensures q in KeySet(d) + {k} {
        var i :| 0 <= i < |p| && p[i].0 == q;
        if i < |d| { assert p[i] == d[i]; }
      }
      forall q | q in KeySet(d) + {k} ensures q in KeySet(p) {
        if q == k { assert p[|d|].0 == k; }
        else { var i :| 0 <= i < |d| && d[i].0 == q; assert p[i] == d[i]; }
      }
    }
  }

  lemma PutKeys<K, V>(d: seq<(K, V)>, k: K, v: V)
    requires UniqueKeys(d)
    ensures UniqueKeys(Put(d, k, v))
    ensures KeySet(Put(d, k, v)) == KeySet(d) + {k}
    ensures k in KeySet(d) ==> |Put(d, k, v)| == |d|
    ensures k !in KeySet(d) ==> Put(d, k, v) == d + [(k, v)]
    ensures forall i :: 0 <= i < |d| ==> Put(d, k, v)[i].0 == d[i].0
  {
    var p := Put(d, k, v);
    if k in KeySet(d) {
      var x := IndexOf(d, k);
      assert forall i :: 0 <= i < |d| ==> p[i].0 == d[i].0;
      assert KeySet(p) == KeySet(d) by {
        forall q | q in KeySet(p) ensures q in KeySet(d) {
          var i :| 0 <= i < |p| && p[i].0 == q;
        }
        forall q | q in KeySet(d) ensures q in KeySet(p) {
          var i :| 0 <= i < |d| && d[i].0 == q;
          assert p[i].0 == q;
        }
      }
    } else {
      assert KeySet(p) == KeySet(d) + {k} by {
        forall q | q in KeySet(p) ensures q in KeySet(d) + {k} {
          var i :| 0 <= i < |p| && p[i].0 == q;
          if i < |d| { assert p[i] == d[i]; }
        }
        forall q | q in KeySet(d) + {k} ensures q in KeySet(p) {
          if q == k { assert p[|d|].0 == k; }
          else { var i :| 0 <= i < |d| && d[i].0 == q; assert p[i] == d[i]; }
        }
      }
      assert forall i :: 0 <= i < |d| ==> p[i] == d[i];
      forall i | 0 <= i < |d| ensures d[i].0 != k {
        assert d[i].0 in KeySet(d);
      }
    }
  }

  lemma PutLatest<K, V>(d: seq<(K, V)>, k: K, v: V)
    requires UniqueKeys(d)
    ensures Latest(Put(d, k, v)) == Latest(d)[k := v]
  {
    PutKeys(d, k, v);
    if k in KeySet(d) {
      ReplaceLatest(d, IndexOf(d, k), v);
    } else {
      assert (d + [(k, v)])[..|d|] == d;
    }
  }

  /** After `d[k] = v` the key `k` holds `v` and every other key keeps its
      value. */
  lemma PutOthers<K, V>(d: seq<(K, V)>, k: K, v: V)
    requires UniqueKeys(d)
    ensures UniqueKeys(Put(d, k, v)) && KeySet(Put(d, k, v)) == KeySet(d) + {k}
    ensures k in Latest(Put(d, k, v)) && Latest(Put(d, k, v))[k] == v
    ensures forall j :: j in Latest(d) && j != k ==> j in Latest(Put(d, k, v)) && Latest(Put(d, k, v))[j] == Latest(d)[j]
  {
    PutKeys(d, k, v);
    PutLatest(d, k, v);
  }

  lemma ReplaceLatest<K, V>(d: seq<(K, V)>, x: nat, v: V)
    requires UniqueKeys(d) && x < |d|
    ensures Latest(d[x := (d[x].0, v)]) == Latest(d)[d[x].0 := v]
  {
    var k := d[x].0;
    var p := d[x := (k, v)];
    ReplaceKeys(d, x, v);
    var m1, m2 := Latest(p), Latest(d)[k := v];
    assert k in KeySet(d) by { assert d[x].0 == k; }
    forall q | q in m1.Keys ensures m1[q] == m2[q] {
      var i :| 0 <= i < |p| && p[i].0 == q;
      LatestUnique(p, i);
      if i != x {
        assert p[i] == d[i];
        LatestUnique(d, i);
      }
    }
    assert m1 == m2;
  }

  /** Replacing the value of one pair keeps the keys, distinct. */
  lemma ReplaceKeys<K, V>(d: seq<(K, V)>, x: nat, v: V)
    requires UniqueKeys(d) && x < |d|
    ensures UniqueKeys(d[x := (d[x].0, v)])
    ensures KeySet(d[x := (d[x].0, v)]) == KeySet(d)
  {
    var p := d[x := (d[x].0, v)];
    forall i, j | 0 <= i < j < |p| ensures p[i].0 != p[j].0 {
      assert p[i].0 == d[i].0 && p[j].0 == d[j].0;
    }
    forall q | q in KeySet(p) ensures q in KeySet(d) {
      var i :| 0 <= i < |p| && p[i].0 == q;
      assert d[i].0 == q;
    }
    forall q | q in KeySet(d) ensures q in KeySet(p) {
      var i :| 0 <= i < |d| && d[i].0 == q;
      assert p[i].0 == q;
    }
  }

  /** `dict(s)` as an insertion-ordered dict: keys in order of first
      occurrence, each bound to the value of its last occurrence. */
  function FromPairs<K(==), V>(s: seq<(K, V)>): seq<(K, V)>
    decreases |s|
  {
    if s == [] then [] else Put(FromPairs(s[..|s| - 1]), s[|s| - 1].0, s[|s| - 1].1)
  }

  lemma {:induction false} FromPairsFacts<K, V>(s: seq<(K, V)>)
    ensures UniqueKeys(FromPairs(s))
    ensures KeySet(FromPairs(s)) == KeySet(s)
    ensures Latest(FromPairs(s)) == Latest(s)
    decreases |s|
  {
    if s != [] {
      var init := s[..|s| - 1];
      var d, last := FromPairs(init), s[|s| - 1];
      assert FromPairs(s) == Put(d, last.0, last.1);
      assert Latest(s) == Latest(init)[last.0 := last.1];
      FromPairsFacts(init);
      PutKeys(d, last.0, last.1);
      PutLatest(d, last.0, last.1);
    }
  }

  /** Dropping the last pair keeps the keys distinct, and the last key is
      not among the others. */
  lemma UniqueInit<K, V>(s: seq<(K, V)>)
    requires UniqueKeys(s) && s != []
    ensures UniqueKeys(s[..|s| - 1])
    ensures s[|s| - 1].0 !in KeySet(s[..|s| - 1])
  {
    var init := s[..|s| - 1];
    forall a, b | 0 <= a < b < |init| ensures init[a].0 != init[b].0 {
      assert init[a] == s[a] && init[b] == s[b];
    }
    forall i | 0 <= i < |init| ensures init[i].0 != s[|s| - 1].0 {
      assert init[i] == s[i];
    }
  }

  /** Building a dict from pairs whose keys are already distinct keeps the
      pairs as they are, in their order. */
  lemma {:induction false} FromPairsOfUnique<K, V>(s: seq<(K, V)>)
    requires UniqueKeys(s)
    ensures FromPairs(s) == s
    decreases |s|
  {
    if s != [] {
      var init := s[..|s| - 1];
      var last := s[|s| - 1];
      UniqueInit(s);
      FromPairsOfUnique(init);
      assert FromPairs(s) == Put(init, last.0, last.1);
      assert Put(init, last.0, last.1) == init + [last];
      assert init + [last] == s;
    }
  }

  /** The distinct elements of `s`, in order of first occurrence (the
      keys of a dict built from `s`). */
  function Dedup(s: seq<string>): (r: seq<string>)
    ensures forall x :: x in r <==> x in s
    ensures forall i, j :: 0 <= i < j < |r| ==> r[i] != r[j]
    decreases |s|
  {
    if s == [] then []
    else
      var d := Dedup(s[..|s| - 1]);
      assert forall x :: x in s <==> x in s[..|s| - 1] || x == s[|s| - 1] by {
        assert s == s[..|s| - 1] + [s[|s| - 1]];
      }
      if s[|s| - 1] in d then d else d + [s[|s| - 1]]
  }

  // ---------------------------------------------------------------------
  // Sequences
  // ---------------------------------------------------------------------

  function Sum(s: seq<int>): int {
    if s == [] then 0 else s[0] + Sum(s[1..])
  }

  lemma {:induction false} SumAppend(a: seq<int>, b: seq<int>)
    ensures Sum(a + b) == Sum(a) + Sum(b)
  {
    if a != [] {
      assert (a + b)[1..] == a[1..] + b;
      SumAppend(a[1..], b);
    } else {
      assert a + b == b;
    }
  }

  /** `d.values()`, in the dict's order. */
  function ValuesOf<K, V>(d: seq<(K, V)>): (r: seq<V>)
    ensures |r| == |d| && forall i :: 0 <= i < |d| ==> r[i] == d[i].1
  {
    seq(|d|, i requires 0 <= i < |d| => d[i].1)
  }

  function Flatten<T>(ss: seq<seq<T>>): seq<T> {
    if ss == [] then [] else ss[0] + Flatten(ss[1..])
  }

  lemma {:induction false} FlattenAppend<T>(a: seq<seq<T>>, b: seq<seq<T>>)
    ensures Flatten(a + b) == Flatten(a) + Flatten(b)
  {
    if a != [] {
      assert (a + b)[1..] == a[1..] + b;
      FlattenAppend(a[1..], b);
    } else {
      assert a + b == b;
    }
  }

  function Take<T>(s: seq<T>, n: int): (r: seq<T>)
    ensures |r| == if n <= 0 then 0 else if n < |s| then n else |s|
  {
    if n <= 0 then [] else if n < |s| then s[..n] else s
  }

  /** Python's `xs[i]`: negative positions count from the end; anything
      else out of range raises IndexError. */
  function PyIndex<T>(xs: seq<T>, i: int): (r: Option<T>)
    ensures r.Some? <==> -|xs| <= i < |xs|
    ensures 0 <= i < |xs| ==> r == Some(xs[i])
    ensures -|xs| <= i < 0 ==> r == Some(xs[|xs| + i])
  {
    if 0 <= i < |xs| then Some(xs[i])
    else if -|xs| <= i < 0 then Some(xs[|xs| + i])
    else None
  }

  // ---------------------------------------------------------------------
  // Strings
  // ---------------------------------------------------------------------

  /** `s.split(d)`: the pieces between occurrences of `d`, empty pieces
      included, so there is always at least one. */
  function Split(s: string, d: char): (parts: seq<string>)
    ensures |parts| >= 1
  {
    if s == [] then [""]
    else
      var rest := Split(s[1..], d);
      if s[0] == d then [""] + rest else [[s[0]] + rest[0]] + rest[1..]
  }

  /** `d.join(parts)`. */
  function Join(parts: seq<string>, d: char): string
    requires |parts| >= 1
  {
    if |parts| == 1 then parts[0] else parts[0] + [d] + Join(parts[1..], d)
  }

  function Occurrences(s: string, d: char): nat {
    if s == [] then 0 else (if s[0] == d then 1 else 0) + Occurrences(s[1..], d)
  }

  /** Splitting and joining again on the same delimiter gives back the
      string; there is one more piece than delimiters, and no piece holds
      the delimiter. */
  lemma {:induction false} SplitJoin(s: string, d: char)
    ensures Join(Split(s, d), d) == s
    ensures |Split(s, d)| == Occurrences(s, d) + 1
    ensures forall p :: p in Split(s, d) ==> d !in p
  {
    if s != [] {
      SplitJoin(s[1..], d);
      var rest := Split(s[1..], d);
      if s[0] == d {
        assert ([""] + rest)[1..] == rest;
      } else {
        var parts := [[s[0]] + rest[0]] + rest[1..];
        if |rest| == 1 {
          assert parts == [[s[0]] + rest[0]];
        } else {
          assert parts[1..] == rest[1..];
          assert Join(rest, d) == rest[0] + [d] + Join(rest[1..], d);
          assert s == [s[0]] + s[1..];
        }
        forall p | p in parts ensures d !in p {
          if p == parts[0] { assert rest[0] in rest; }
          else { assert p in rest; }
        }
      }
    }
  }

  /** Python's `t in s` on strings. */
  predicate Contains(s: string, t: string)
    decreases |s|
  {
    t <= s || (s != [] && Contains(s[1..], t))
  }

  /** `t` occurs in `s` starting at position `i`. */
  ghost predicate OccursAt(s: string, t: string, i: int) {
    0 <= i && i + |t| <= |s| && s[i..i + |t|] == t
  }

  /** An occurrence at any position makes `t in s` true. */
  lemma {:induction false} OccursContains(s: string, t: string, i: int)
    requires OccursAt(s, t, i)
    ensures Contains(s, t)
    decreases i
  {
    if i == 0 {
      assert s[..|t|] == t;
    } else {
      assert s[1..][i - 1..i - 1 + |t|] == s[i..i + |t|];
      OccursContains(s[1..], t, i - 1);
    }
  }

  /** `t in s` names a position where `t` occurs. */
  lemma {:induction false} ContainsOccurs(s: string, t: string) returns (i: nat)
    requires Contains(s, t)
    ensures OccursAt(s, t, i)
    decreases |s|
  {
    if t <= s {
      assert s[..|t|] == t;
      i := 0;
    } else {
      var j := ContainsOccurs(s[1..], t);
      assert s[1..][j..j + |t|] == s[j + 1..j + 1 + |t|];
      i := j + 1;
    }
  }

  /** `Contains` holds exactly when `t` occurs at some position of `s`. */
  lemma ContainsAt(s: string, t: string)
    ensures Contains(s, t) <==> exists i :: OccursAt(s, t, i)
  {
    if Contains(s, t) {
      var i := ContainsOccurs(s, t);
    }
    if exists i :: OccursAt(s, t, i) {
      var i :| OccursAt(s, t, i);
      OccursContains(s, t, i);
    }
  }
}
