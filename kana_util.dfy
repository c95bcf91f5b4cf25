/**
 * Phonetic bucketing (show_a_table/model/refiner/util.py): `_gbh` sorts rows
 * by one character of one field and groups equal characters; `make_n_dict`
 * attaches a kana reading to every `(subject, label)` pair and buckets by the
 * first kana character; `_merge_dict` splices one dictionary into another.
 */
module KanaUtil {
  import opened Base
  import opened Py
  import opened OrderedDict

  /** A `(subject, label, kana)` tuple. */
  datatype Row = Row(subject: string, caption: string, kana: string)

  /** Buckets keyed by a one-character string, in key order. */
  type Buckets = seq<(string, seq<Row>)>

  /** `row[key]` on the three-field tuple. */
  function Item(row: Row, key: int): Result<string> {
    match Subscript(key, 3)
    case None => Err(IndexError)
    case Some(k) => Ok(if k == 0 then row.subject else if k == 1 then row.caption else row.kana)
  }

  /** `row[key][idx]`: the character `_gbh` sorts and groups by. */
  function KeyChar(row: Row, key: int, idx: int): Result<char> {
    match Item(row, key)
    case Err(e) => Err(e)
    case Ok(s) =>
      match Subscript(idx, |s|)
      case None => Err(IndexError)
      case Some(i) => Ok(s[i])
  }

  /** Every row paired with its key character, or the `IndexError` that computing one raises. */
  function Keyed(rows: seq<Row>, key: int, idx: int): (r: Result<seq<(char, Row)>>)
    ensures r.Err? <==> exists i :: 0 <= i < |rows| && KeyChar(rows[i], key, idx).Err?
    ensures r.Ok? ==> |r.value| == |rows|
    ensures r.Ok? ==> forall i :: 0 <= i < |rows| ==>
      r.value[i].1 == rows[i] && KeyChar(rows[i], key, idx) == Ok(r.value[i].0)
  {
    if rows == [] then Ok([])
    else
      var front := rows[..|rows| - 1];
      var last := rows[|rows| - 1];
      assert forall i :: 0 <= i < |front| ==> front[i] == rows[i];
      match (Keyed(front, key, idx), KeyChar(last, key, idx))
      case (Ok(ps), Ok(c)) => Ok(ps + [(c, last)])
      case _ => Err(IndexError)
  }

  predicate SortedByChar(s: seq<(char, Row)>) {
    forall i, j :: 0 <= i < j < |s| ==> s[i].0 <= s[j].0
  }

  /** Insert `x` after every element whose character is not larger: keeps equal characters in arrival order. */
  function InsertSorted(s: seq<(char, Row)>, x: (char, Row)): (r: seq<(char, Row)>)
    requires SortedByChar(s)
    ensures SortedByChar(r)
    ensures |r| == |s| + 1
    ensures forall y :: y in r <==> y in s || y == x
  {
    if s == [] || s[|s| - 1].0 <= x.0 then s + [x]
    else
      var front := s[..|s| - 1];
      assert forall y :: y in s <==> y in front || y == s[|s| - 1];
      var r := InsertSorted(front, x);
      assert forall i :: 0 <= i < |r| ==> r[i].0 <= s[|s| - 1].0 by {
        forall i | 0 <= i < |r| ensures r[i].0 <= s[|s| - 1].0 {
          assert r[i] in r;
        }
      }
      r + [s[|s| - 1]]
  }

  /** `sorted(s, key=char)`: a stable sort on the character. */
  function SortByChar(s: seq<(char, Row)>): (r: seq<(char, Row)>)
    ensures SortedByChar(r)
    ensures |r| == |s|
  {
    if s == [] then [] else InsertSorted(SortByChar(s[..|s| - 1]), s[|s| - 1])
  }

  /** The rows paired with character `c`, in order. */
  function With(s: seq<(char, Row)>, c: char): seq<Row> {
    if s == [] then []
    else With(s[..|s| - 1], c) + (if s[|s| - 1].0 == c then [s[|s| - 1].1] else [])
  }

  /** One row of the sorted sequence joins the current run, or opens the next. */
  function AddRow(g: Buckets, c: char, row: Row): Buckets {
    if g != [] && g[|g| - 1].0 == [c] then g[..|g| - 1] + [(g[|g| - 1].0, g[|g| - 1].1 + [row])]
    else g + [([c], [row])]
  }

  /** `itertools.groupby` on the character, collected into a dict: one bucket per run. */
  function GroupRuns(s: seq<(char, Row)>): Buckets {
    if s == [] then [] else AddRow(GroupRuns(s[..|s| - 1]), s[|s| - 1].0, s[|s| - 1].1)
  }

  /** The number of rows over all buckets. */
  function TotalSize(g: Buckets): nat {
    if g == [] then 0 else TotalSize(g[..|g| - 1]) + |g[|g| - 1].1|
  }

  /** `_gbh(lst, key, idx)` */
  function Gbh(rows: seq<Row>, key: int, idx: int): Result<Buckets> {
    match Keyed(rows, key, idx)
    case Err(_) => Err(IndexError)
    case Ok(ps) => Ok(GroupRuns(SortByChar(ps)))
  }

  /** Reference definition: the rows whose key character is `c`, in input order. */
  function Bucket(rows: seq<Row>, key: int, idx: int, c: char): seq<Row> {
    if rows == [] then []
    else
      Bucket(rows[..|rows| - 1], key, idx, c)
      + (if KeyChar(rows[|rows| - 1], key, idx) == Ok(c) then [rows[|rows| - 1]] else [])
  }

  lemma {:induction false} WithOfInsert(s: seq<(char, Row)>, x: (char, Row), c: char)
    requires SortedByChar(s)
    ensures With(InsertSorted(s, x), c) == With(s, c) + (if x.0 == c then [x.1] else [])
  {
    if s == [] || s[|s| - 1].0 <= x.0 {
      assert (s + [x])[..|s|] == s;
    } else {
      var front := s[..|s| - 1];
      WithOfInsert(front, x, c);
      var r := InsertSorted(front, x) + [s[|s| - 1]];
      assert r[..|r| - 1] == InsertSorted(front, x);
    }
  }

  /** Sorting is stable: each character's rows keep their relative order. */
  lemma {:induction false} WithOfSort(s: seq<(char, Row)>, c: char)
    ensures With(SortByChar(s), c) == With(s, c)
  {
    if s != [] {
      WithOfSort(s[..|s| - 1], c);
      WithOfInsert(SortByChar(s[..|s| - 1]), s[|s| - 1], c);
    }
  }

  lemma {:induction false} WithAbsent(s: seq<(char, Row)>, c: char)
    requires forall k :: 0 <= k < |s| ==> s[k].0 != c
    ensures With(s, c) == []
  {
    if s != [] {
      WithAbsent(s[..|s| - 1], c);
    }
  }

  lemma {:induction false} WithOfKeyed(rows: seq<Row>, key: int, idx: int, ps: seq<(char, Row)>, c: char)
    requires Keyed(rows, key, idx) == Ok(ps)
    ensures With(ps, c) == Bucket(rows, key, idx, c)
  {
    if rows != [] {
      var front := rows[..|rows| - 1];
      assert forall i :: 0 <= i < |front| ==> front[i] == rows[i];
      WithOfKeyed(front, key, idx, ps[..|ps| - 1], c);
    }
  }

  lemma AddRowShape(g: Buckets, c: char, row: Row)
    ensures var r := AddRow(g, c, row);
      if g != [] && g[|g| - 1].0 == [c] then
        && |r| == |g|
        && (forall i :: 0 <= i < |g| - 1 ==> r[i] == g[i])
        && r[|g| - 1] == (g[|g| - 1].0, g[|g| - 1].1 + [row])
      else
        && |r| == |g| + 1
        && (forall i :: 0 <= i < |g| ==> r[i] == g[i])
        && r[|g|] == ([c], [row])
  {
  }

  lemma {:induction false} TotalSizeOfRuns(s: seq<(char, Row)>)
    ensures TotalSize(GroupRuns(s)) == |s|
  {
    if s != [] {
      var front := s[..|s| - 1];
      TotalSizeOfRuns(front);
      var g := GroupRuns(front);
      var r := AddRow(g, s[|s| - 1].0, s[|s| - 1].1);
      if g != [] && g[|g| - 1].0 == [s[|s| - 1].0] {
        assert r[..|r| - 1] == g[..|g| - 1];
      } else {
        assert r[..|g|] == g;
      }
    }
  }

  /** Keys are one-character strings in strictly ascending order. */
  predicate Ascending(g: Buckets) {
    && (forall i :: 0 <= i < |g| ==> |g[i].0| == 1)
    && (forall i, j :: 0 <= i < j < |g| ==> g[i].0[0] < g[j].0[0])
  }

  lemma AscendingIsDict(g: Buckets)
    requires Ascending(g)
    ensures IsDict(g)
  {
    forall i, j | 0 <= i < j < |Keys(g)| ensures Keys(g)[i] != Keys(g)[j] {
      assert g[i].0[0] < g[j].0[0];
    }
  }

  /** A new run keeps the keys ascending when its character is above the last key. */
  lemma AscendingAppend(g: Buckets, c: char, row: Row)
    requires Ascending(g)
    requires g != [] ==> g[|g| - 1].0[0] < c
    ensures Ascending(g + [([c], [row])])
  {
    var r := g + [([c], [row])];
    forall i, j | 0 <= i < j < |r| ensures r[i].0[0] < r[j].0[0] {
      if j == |g| {
        assert r[i] == g[i];
        if i < |g| - 1 {
          assert g[i].0[0] < g[|g| - 1].0[0];
        }
      } else {
        assert r[i] == g[i] && r[j] == g[j];
      }
    }
  }

  /** Growing the last run keeps the keys as they are. */
  lemma AscendingExtend(g: Buckets, c: char, row: Row)
    requires Ascending(g) && g != [] && g[|g| - 1].0 == [c]
    ensures Ascending(AddRow(g, c, row))
  {
    AddRowShape(g, c, row);
    var r := AddRow(g, c, row);
    assert forall i :: 0 <= i < |r| ==> r[i].0 == g[i].0;
  }

  /** On sorted input the runs have ascending keys, the last one the last row's character. */
  lemma {:induction false} RunsShape(s: seq<(char, Row)>)
    requires SortedByChar(s)
    ensures Ascending(GroupRuns(s))
    ensures s == [] ==> GroupRuns(s) == []
    ensures s != [] ==> GroupRuns(s) != [] && GroupRuns(s)[|GroupRuns(s)| - 1].0 == [s[|s| - 1].0]
  {
    if s != [] {
      var front := s[..|s| - 1];
      var x := s[|s| - 1];
      SortedFront(s);
      RunsShape(front);
      var g := GroupRuns(front);
      var r := AddRow(g, x.0, x.1);
      assert GroupRuns(s) == r;
      AddRowShape(g, x.0, x.1);
      if g != [] && g[|g| - 1].0 == [x.0] {
        AscendingExtend(g, x.0, x.1);
        assert r[|r| - 1].0 == [x.0];
      } else {
        if g != [] {
          assert g[|g| - 1].0[0] == front[|front| - 1].0;
        }
        AscendingAppend(g, x.0, x.1);
        assert r == g + [([x.0], [x.1])];
      }
    }
  }

  /** One more row adds itself to its own character's rows and changes no other. */
  lemma WithSnoc(front: seq<(char, Row)>, x: (char, Row), c: char)
    ensures With(front + [x], c) == With(front, c) + (if x.0 == c then [x.1] else [])
  {
    assert (front + [x])[..|front|] == front;
  }

  /** A sorted sequence without its last row is sorted, and that row's character is the largest. */
  lemma SortedFront(s: seq<(char, Row)>)
    requires SortedByChar(s) && s != []
    ensures SortedByChar(s[..|s| - 1])
    ensures |s| >= 2 ==> s[..|s| - 1][|s| - 2].0 <= s[|s| - 1].0
  {
    var front := s[..|s| - 1];
    forall i, j | 0 <= i < j < |front| ensures front[i].0 <= front[j].0 {
      assert front[i] == s[i] && front[j] == s[j];
    }
  }

  /** A run that opens after `front` holds just the new row: no earlier row has its character. */
  lemma NewRunAlone(front: seq<(char, Row)>, c: char)
    requires SortedByChar(front)
    requires front != [] ==> front[|front| - 1].0 < c
    ensures With(front, c) == []
  {
    forall k | 0 <= k < |front| ensures front[k].0 != c {
      if k < |front| - 1 {
        assert front[k].0 <= front[|front| - 1].0;
      }
    }
    WithAbsent(front, c);
  }

  lemma {:induction false} RunContentsAt(s: seq<(char, Row)>, i: nat)
    requires SortedByChar(s)
    requires Ascending(GroupRuns(s)) && i < |GroupRuns(s)|
    ensures GroupRuns(s)[i].1 == With(s, GroupRuns(s)[i].0[0])
  {
    var front := s[..|s| - 1];
    var x := s[|s| - 1];
    assert s == front + [x];
    SortedFront(s);
    var g := GroupRuns(front);
    var r := GroupRuns(s);
    var c := r[i].0[0];
    RunsShape(front);
    AddRowShape(g, x.0, x.1);
    WithSnoc(front, x, c);
    if i < |g| {
      RunContentsAt(front, i);
    }
    if g != [] && g[|g| - 1].0 == [x.0] {
      if i < |g| - 1 {
        assert r[i] == g[i];
        assert g[i].0[0] < g[|g| - 1].0[0];
      }
    } else if i < |g| {
      assert r[i] == g[i];
      if i < |g| - 1 {
        assert g[i].0[0] < g[|g| - 1].0[0];
      }
    } else {
      NewRunAlone(front, x.0);
    }
  }

  /** On sorted input each run holds exactly the rows of its character. */
  lemma RunsContents(s: seq<(char, Row)>)
    requires SortedByChar(s)
    ensures Ascending(GroupRuns(s))
    ensures forall i :: 0 <= i < |GroupRuns(s)| ==> GroupRuns(s)[i].1 == With(s, GroupRuns(s)[i].0[0])
  {
    RunsShape(s);
    forall i | 0 <= i < |GroupRuns(s)| ensures GroupRuns(s)[i].1 == With(s, GroupRuns(s)[i].0[0]) {
      RunContentsAt(s, i);
    }
  }

  /** Every row's character is the key of some run. */
  lemma {:induction false} RunsCover(s: seq<(char, Row)>)
    ensures forall k :: 0 <= k < |s| ==> exists i :: 0 <= i < |GroupRuns(s)| && GroupRuns(s)[i].0 == [s[k].0]
  {
    if s != [] {
      var front := s[..|s| - 1];
      var x := s[|s| - 1];
      RunsCover(front);
      var g := GroupRuns(front);
      var r := GroupRuns(s);
      AddRowShape(g, x.0, x.1);
      forall k | 0 <= k < |s| ensures exists i :: 0 <= i < |r| && r[i].0 == [s[k].0] {
        if k < |front| {
          var i :| 0 <= i < |g| && g[i].0 == [front[k].0];
          assert front[k] == s[k];
          if g != [] && g[|g| - 1].0 == [x.0] && i == |g| - 1 {
            assert r[i].0 == g[i].0;
          } else {
            assert r[i].0 == g[i].0;
          }
        } else if g != [] && g[|g| - 1].0 == [x.0] {
          assert r[|g| - 1].0 == [x.0];
        } else {
          assert r[|g|].0 == [x.0];
        }
      }
      assert forall k :: 0 <= k < |s| ==> exists i :: 0 <= i < |r| && r[i].0 == [s[k].0];
      assert r == GroupRuns(s);
    }
  }

  lemma {:induction false} WithAbsentConverse(s: seq<(char, Row)>, k: nat)
    requires k < |s|
    ensures With(s, s[k].0) != []
  {
    var front := s[..|s| - 1];
    if k < |s| - 1 {
      WithAbsentConverse(front, k);
    }
  }

  lemma {:induction false} WitnessOf(s: seq<(char, Row)>, c: char) returns (m: nat)
    requires With(s, c) != []
    ensures m < |s| && s[m].0 == c
  {
    var front := s[..|s| - 1];
    if s[|s| - 1].0 == c {
      m := |s| - 1;
    } else {
      m := WitnessOf(front, c);
    }
  }

  /**
   * The buckets partition the rows: distinct one-character keys in ascending
   * order, each bucket exactly the rows with that character in input order,
   * every row in a bucket, no row lost or duplicated.
   */
  predicate IsPartition(g: Buckets, rows: seq<Row>, key: int, idx: int) {
    && IsDict(g)
    && Ascending(g)
    && (forall i :: 0 <= i < |g| ==> g[i].1 == Bucket(rows, key, idx, g[i].0[0]))
    && (forall k :: 0 <= k < |rows| ==> exists i :: 0 <= i < |g| && KeyChar(rows[k], key, idx) == Ok(g[i].0[0]))
    && TotalSize(g) == |rows|
  }

  /** `_gbh` fails exactly when some row's field is too short, and otherwise partitions the rows. */
  lemma GbhPartitions(rows: seq<Row>, key: int, idx: int)
    ensures Gbh(rows, key, idx).Err? <==> exists i :: 0 <= i < |rows| && KeyChar(rows[i], key, idx).Err?
    ensures Gbh(rows, key, idx).Ok? ==> IsPartition(Gbh(rows, key, idx).value, rows, key, idx)
  {
    match Keyed(rows, key, idx)
    case Err(_) =>
    case Ok(ps) =>
      var sorted := SortByChar(ps);
      var g := GroupRuns(sorted);
      RunsShape(sorted);
      AscendingIsDict(g);
      RunsContents(sorted);
      RunsCover(sorted);
      TotalSizeOfRuns(sorted);
      forall i | 0 <= i < |g| ensures g[i].1 == Bucket(rows, key, idx, g[i].0[0]) {
        WithOfSort(ps, g[i].0[0]);
        WithOfKeyed(rows, key, idx, ps, g[i].0[0]);
      }
      forall k | 0 <= k < |rows| ensures exists i :: 0 <= i < |g| && KeyChar(rows[k], key, idx) == Ok(g[i].0[0]) {
        var c := ps[k].0;
        WithAbsentConverse(ps, k);
        WithOfSort(ps, c);
        var m := WitnessOf(sorted, c);
        var i :| 0 <= i < |g| && g[i].0 == [sorted[m].0];
        assert g[i].0[0] == c;
      }
  }

  /** The `(subject, label, kana)` rows `make_n_dict` builds, `toKana` standing for the transliterator. */
  function Transliterate(pairs: seq<(string, string)>, toKana: string -> string): (rows: seq<Row>)
    ensures |rows| == |pairs|
    ensures forall i :: 0 <= i < |pairs| ==> rows[i] == Row(pairs[i].0, pairs[i].1, toKana(pairs[i].1))
  {
    if pairs == [] then []
    else [Row(pairs[0].0, pairs[0].1, toKana(pairs[0].1))] + Transliterate(pairs[1..], toKana)
  }

  /**
   * `make_n_dict(_list, max_cands)`. `max_cands` only chooses where a default is
   * read from configuration: the subdivision that would use it is disabled.
   */
  function MakeNDict(pairs: seq<(string, string)>, maxCands: int, toKana: string -> string): Result<Buckets> {
    Gbh(Transliterate(pairs, toKana), 2, 0)
  }

  /**
   * Buckets by first kana character: it fails exactly when some reading is empty;
   * otherwise the keys ascend, every bucket holds, in input order, exactly the
   * rows whose reading starts with its key, and the bucket sizes add up to the
   * number of pairs.
   */
  lemma MakeNDictBuckets(pairs: seq<(string, string)>, maxCands: int, toKana: string -> string)
    ensures MakeNDict(pairs, maxCands, toKana).Err? <==> exists i :: 0 <= i < |pairs| && toKana(pairs[i].1) == ""
    ensures MakeNDict(pairs, maxCands, toKana).Ok? ==>
      var g := MakeNDict(pairs, maxCands, toKana).value;
      && IsDict(g)
      && TotalSize(g) == |pairs|
      && Ascending(g)
      && (forall i :: 0 <= i < |g| ==> |g[i].0| == 1)
      && (forall i :: 0 <= i < |g| ==> g[i].1 == Bucket(Transliterate(pairs, toKana), 2, 0, g[i].0[0]))
      && (forall i, r :: 0 <= i < |g| && r in g[i].1 ==> r.kana != "" && r.kana[0] == g[i].0[0])
      && (forall i :: 0 <= i < |pairs| ==> exists j :: 0 <= j < |g| && toKana(pairs[i].1)[0] == g[j].0[0])
  {
    var rows := Transliterate(pairs, toKana);
    var m := MakeNDict(pairs, maxCands, toKana);
    assert m == Gbh(rows, 2, 0);
    GbhPartitions(rows, 2, 0);
    forall i | 0 <= i < |pairs| ensures KeyChar(rows[i], 2, 0).Err? <==> toKana(pairs[i].1) == "" {
      KanaChar(rows[i]);
    }
    if m.Ok? {
      var g := m.value;
      forall i, r | 0 <= i < |g| && r in g[i].1 ensures r.kana != "" && r.kana[0] == g[i].0[0] {
        BucketMembers(rows, 2, 0, g[i].0[0], r);
        KanaChar(r);
      }
      forall i | 0 <= i < |pairs| ensures exists j :: 0 <= j < |g| && toKana(pairs[i].1)[0] == g[j].0[0] {
        KanaChar(rows[i]);
        var j :| 0 <= j < |g| && KeyChar(rows[i], 2, 0) == Ok(g[j].0[0]);
      }
    }
  }

  /** `row[2][0]` is the first kana character, or `IndexError` for an empty reading. */
  lemma KanaChar(row: Row)
    ensures KeyChar(row, 2, 0).Err? <==> row.kana == ""
    ensures KeyChar(row, 2, 0).Ok? ==> KeyChar(row, 2, 0).value == row.kana[0]
  {
  }

  lemma {:induction false} BucketMembers(rows: seq<Row>, key: int, idx: int, c: char, r: Row)
    requires r in Bucket(rows, key, idx, c)
    ensures KeyChar(r, key, idx) == Ok(c)
  {
    if rows != [] {
      var last := rows[|rows| - 1];
      if r != last || KeyChar(last, key, idx) != Ok(c) {
        BucketMembers(rows[..|rows| - 1], key, idx, c, r);
      }
    }
  }

  /** The bucketing does not depend on `max_cands`. */
  lemma MakeNDictIgnoresMaxCands(pairs: seq<(string, string)>, a: int, b: int, toKana: string -> string)
    ensures MakeNDict(pairs, a, toKana) == MakeNDict(pairs, b, toKana)
  {
  }

  /**
   * `_merge_dict(base, additional, key)`: pops `key` from `base` (a `KeyError`
   * if it is not there), then updates `base` with `additional`, in place, and
   * returns `base` itself.
   */
  method MergeDict(base: PyDict<string, seq<Row>>, additional: Buckets, key: string)
    returns (r: Result<PyDict<string, seq<Row>>>)
    requires base.Valid() && IsDict(additional)
    modifies base
    ensures base.Valid()
    ensures key !in Keys(old(base.entries)) ==> r == Err(KeyError) && base.entries == old(base.entries)
    ensures key in Keys(old(base.entries)) ==>
      r == Ok(base) && base.entries == Update(Remove(old(base.entries), key), additional)
  {
    if key !in Keys(base.entries) {
      return Err(KeyError);
    }
    base.entries := Remove(base.entries, key);
    base.entries := Update(base.entries, additional);
    r := Ok(base);
  }

  lemma {:induction false} GetLastOfDict<K(!new), V>(e: seq<(K, V)>, k: K)
    requires IsDict(e)
    ensures GetLast(e, k) == Get(e, k)
  {
    if e != [] {
      assert IsDict(e[1..]) by {
        forall i, j | 0 <= i < j < |e[1..]| ensures Keys(e[1..])[i] != Keys(e[1..])[j] {
          assert Keys(e)[i + 1] != Keys(e)[j + 1];
        }
      }
      GetLastOfDict(e[1..], k);
      if e[0].0 == k {
        forall i | 0 <= i < |e[1..]| ensures Keys(e[1..])[i] != k {
          assert Keys(e)[0] != Keys(e)[i + 1];
        }
      }
    }
  }

  /**
   * What `_merge_dict` leaves in `base`: the entries of `additional` win,
   * `key` is gone unless `additional` brings it back, every other entry of
   * `base` is untouched.
   */
  lemma MergedContents(base: Buckets, additional: Buckets, key: string)
    requires IsDict(base) && IsDict(additional)
    ensures var m := Update(Remove(base, key), additional);
      && IsDict(m)
      && (forall k :: k in Keys(m) <==> (k in Keys(base) && k != key) || k in Keys(additional))
      && (forall k :: Get(m, k) ==
            if k in Keys(additional) then Get(additional, k)
            else if k == key then None
            else Get(base, k))
  {
    forall k {
      GetLastOfDict(additional, k);
    }
  }
}
