/**
 * `KanaCandidates` (show_a_table/model/refiner/refiner.py): a two-level
 * picker. Level one pages through the kana buckets of the candidates; the
 * first accepted choice fixes a bucket and offers its labels; a later
 * accepted choice yields the candidate of that label.
 */
module KanaChoice {
  import opened Base
  import opened Py
  import opened OrderedDict
  import opened KanaUtil
  import opened Refiner

  /** Candidates bucketed by a one-character kana key. */
  type CandBuckets = seq<(string, seq<Candidate>)>

  /** `_proposal`: the last page of keys shown, or the labels of the chosen bucket. */
  datatype Proposal = ListProposal(keys: seq<string>) | DictProposal(entries: seq<(string, Candidate)>)

  /** `choice in self._proposal`: list membership, or key membership for the dictionary. */
  predicate InProposal(p: Proposal, choice: string) {
    match p
    case ListProposal(ks) => choice in ks
    case DictProposal(es) => choice in Keys(es)
  }

  /** The picker's mutable state: `_cands`, `_last`, `_kana`, `_proposal`, `_cands_dict`. */
  datatype KanaState = KanaState(
    cands: seq<Candidate>,
    last: seq<string>,
    kana: string,
    proposal: Proposal,
    dict: Option<CandBuckets>)

  /** `[(c.ref, c.key) for c in self._cands]` */
  function PairsOf(cands: seq<Candidate>): (ps: seq<(string, string)>)
    ensures |ps| == |cands|
    ensures forall i :: 0 <= i < |cands| ==> ps[i] == (cands[i].ref, cands[i].key)
  {
    seq(|cands|, i requires 0 <= i < |cands| => (cands[i].ref, cands[i].key))
  }

  /** `[Candidate(key=l, ref=s, kana=k) for (s, l, k) in val]` */
  function RowsToCands(rows: seq<Row>): (cs: seq<Candidate>)
    ensures |cs| == |rows|
    ensures forall i :: 0 <= i < |rows| ==>
      cs[i] == MkCandidate(rows[i].caption, Some(rows[i].subject), Some(rows[i].kana))
  {
    seq(|rows|, i requires 0 <= i < |rows| => MkCandidate(rows[i].caption, Some(rows[i].subject), Some(rows[i].kana)))
  }

  function ToCandidates(g: Buckets): (d: CandBuckets)
    ensures |d| == |g|
    ensures forall i :: 0 <= i < |g| ==> d[i] == (g[i].0, RowsToCands(g[i].1))
    ensures Keys(d) == Keys(g)
  {
    seq(|g|, i requires 0 <= i < |g| => (g[i].0, RowsToCands(g[i].1)))
  }

  /** The `_cands_dict` comprehension over `make_n_dict`, or the exception it raises. */
  function BuildDict(cands: seq<Candidate>, n: int, toKana: string -> string): Result<CandBuckets> {
    match MakeNDict(PairsOf(cands), n, toKana)
    case Err(e) => Err(e)
    case Ok(g) => Ok(ToCandidates(g))
  }

  /** A fresh picker: no page shown yet, no bucket chosen, no dictionary built. */
  function Initial(cands: seq<Candidate>): KanaState {
    KanaState(cands, [], "", ListProposal([]), None)
  }

  /**
   * `cands` once the dictionary `dict` is in place in `s1`, showing up to `lim`
   * keys a page: the leftover keys first, else all bucket keys when they fit,
   * else the first `lim` of them; `"NEXT"` follows while keys are left over.
   * As written, `lim` is `num_cands` itself.
   */
  function KanaPaging(s1: KanaState, dict: CandBuckets, lim: int): (KanaState, Result<seq<string>>) {
    if s1.last != [] then
      var rest := Drop(s1.last, lim);
      var page := if |rest| > 0 then Take(s1.last, lim) + [Next] else Take(s1.last, lim);
      (s1.(last := rest, proposal := ListProposal(page)), Ok(page))
    else if |Keys(dict)| <= lim then
      (s1.(proposal := ListProposal(Keys(dict))), Ok(Keys(dict)))
    else
      var page := Take(Keys(dict), lim) + [Next];
      (s1.(last := Drop(Keys(dict), lim), proposal := ListProposal(page)), Ok(page))
  }

  /** The page `cands(n)` shows next and the state it leaves, `0` showing every remaining key. */
  function KanaCands(s: KanaState, n: int, toKana: string -> string): (KanaState, Result<seq<string>>) {
    var built := if s.dict.None? then BuildDict(s.cands, n, toKana) else Ok(s.dict.value);
    match built
    case Err(e) => (s, Err(e))
    case Ok(dict) => KanaPaging(s.(dict := Some(dict)), dict, PageLimit(n, |Remaining(s.last, dict)|))
  }

  /** `OrderedDict([(c.key, c) for c in bucket])` as its entry pairs. */
  function LabelPairs(cs: seq<Candidate>): (ps: seq<(string, Candidate)>)
    ensures |ps| == |cs|
    ensures forall i :: 0 <= i < |cs| ==> ps[i] == (cs[i].key, cs[i])
    ensures Keys(ps) == KeysOf(cs)
  {
    seq(|cs|, i requires 0 <= i < |cs| => (cs[i].key, cs[i]))
  }

  /** What `select(n, choice)` returns and the state it leaves, exceptions included. */
  function KanaSelect(s: KanaState, n: int, choice: string, toKana: string -> string): (KanaState, Result<Selection>) {
    if choice == Next then
      var (s1, r) := KanaCands(s, n, toKana);
      (s1, if r.Err? then Err(r.error) else Ok(Page(r.value)))
    else if !InProposal(s.proposal, choice) then (s, Err(ValueError))
    else if s.kana == "" then
      var s1 := s.(kana := choice);
      match s.dict
      case None => (s1, Err(TypeError))
      case Some(d) =>
        match Get(d, choice)
        case None => (s1, Err(KeyError))
        case Some(cs) =>
          var p := FromPairs(LabelPairs(cs));
          (s1.(proposal := DictProposal(p)), Ok(Page(Keys(p))))
    else
      match s.proposal
      case ListProposal(_) => (s, Err(TypeError))
      case DictProposal(es) => (s, Ok(Chosen(Get(es, choice).value)))
  }

  /** The keys still to be offered by paging: the leftover keys, or all bucket keys again. */
  function Remaining(last: seq<string>, dict: CandBuckets): seq<string> {
    if last != [] then last else Keys(dict)
  }

  /**
   * One `cands(n)` call for `n >= 0`: it fails only when building the
   * dictionary fails, and then changes nothing; otherwise it shows at most `n`
   * of the remaining keys in order (all of them when `n` is `0`), appends
   * `"NEXT"` exactly when keys are left over, keeps the leftover keys for the
   * next call, and records the page as the proposal.
   */
  lemma KanaCandsPages(s: KanaState, n: int, toKana: string -> string)
    requires n >= 0
    ensures var (s1, r) := KanaCands(s, n, toKana);
      && (r.Err? <==> s.dict.None? && BuildDict(s.cands, n, toKana).Err?)
      && (r.Err? ==> s1 == s)
      && (r.Ok? ==>
            var page := r.value;
            var src := Remaining(s.last, s1.dict.value);
            var shown := if s1.last != [] then page[..|page| - 1] else page;
            && s1.dict.Some?
            && (s.dict.Some? ==> s1.dict == s.dict)
            && s1.kana == s.kana && s1.cands == s.cands
            && s1.proposal == ListProposal(page)
            && (s1.last != [] ==> |page| == n + 1 && page[n] == Next)
            && |shown| <= PageLimit(n, |src|)
            && (n == 0 ==> s1.last == [] && page == src)
            && shown + s1.last == src)
  {
    var (s1, r) := KanaCands(s, n, toKana);
    if r.Ok? {
      var src := Remaining(s.last, s1.dict.value);
      var lim := PageLimit(n, |src|);
      var rest := Drop(src, lim);
      PagedSplit(src, lim);
      if s.last == [] && |Keys(s1.dict.value)| <= lim {
        assert Take(src, lim) == src && rest == [];
      }
      assert s1.last == rest;
      assert r.value == Take(src, lim) + (if |rest| > 0 then [Next] else []);
    }
  }

  /** As written, `cands(0)` with keys remaining stalls: only `"NEXT"` comes back and the remaining keys stay. */
  lemma KanaStallsAtZero(s1: KanaState, dict: CandBuckets)
    requires Remaining(s1.last, dict) != []
    ensures var (s2, r) := KanaPaging(s1, dict, 0);
      && r == Ok([Next])
      && s2.last == Remaining(s1.last, dict)
      && KanaPaging(s2, dict, 0).1 == Ok([Next])
  {
    var (s2, r) := KanaPaging(s1, dict, 0);
    assert Take(Remaining(s1.last, dict), 0) + [Next] == [Next];
  }

  /** Showing the first `n` keys, with `"NEXT"` while some are left, splits the keys into the shown and the rest. */
  lemma PagedSplit(src: seq<string>, n: int)
    requires n >= 0
    ensures var rest := Drop(src, n);
      var page := Take(src, n) + (if |rest| > 0 then [Next] else []);
      var shown := if rest != [] then page[..|page| - 1] else page;
      && (rest != [] ==> |page| == n + 1 && page[n] == Next)
      && |shown| <= n
      && shown + rest == src
  {
    var rest := Drop(src, n);
    assert Take(src, n) + rest == src;
    if rest != [] {
      assert (Take(src, n) + [Next])[..n] == Take(src, n);
    }
  }

  /** A string that is neither `"NEXT"` nor in the current proposal is refused and changes nothing. */
  lemma KanaSelectRejects(s: KanaState, n: int, choice: string, toKana: string -> string)
    requires choice != Next && !InProposal(s.proposal, choice)
    ensures KanaSelect(s, n, choice, toKana) == (s, Err(ValueError))
  {
  }

  /** Every entry is filed under its own candidate's key. */
  predicate KeyedEntries(es: seq<(string, Candidate)>) {
    forall i :: 0 <= i < |es| ==> es[i].1.key == es[i].0
  }

  lemma {:induction false} GetOfKeyed(es: seq<(string, Candidate)>, k: string)
    requires KeyedEntries(es) && k in Keys(es)
    ensures Get(es, k).value.key == k && Get(es, k).value in ValuesOf(es)
  {
    if es[0].0 != k {
      GetOfKeyed(es[1..], k);
    }
  }

  function ValuesOf(es: seq<(string, Candidate)>): (vs: seq<Candidate>)
    ensures |vs| == |es|
    ensures forall i :: 0 <= i < |es| ==> vs[i] == es[i].1
  {
    if es == [] then [] else [es[0].1] + ValuesOf(es[1..])
  }

  lemma {:induction false} LastOfLabels(cs: seq<Candidate>, k: string)
    requires k in KeysOf(cs)
    ensures GetLast(LabelPairs(cs), k).value.key == k && GetLast(LabelPairs(cs), k).value in cs
  {
    var ps := LabelPairs(cs);
    if GetLast(ps[1..], k).Some? {
      assert k in Keys(ps[1..]);
      assert LabelPairs(cs[1..]) == ps[1..];
      assert KeysOf(cs[1..]) == Keys(ps[1..]);
      LastOfLabels(cs[1..], k);
    }
  }

  /**
   * The first accepted choice fixes the bucket: it becomes `_kana`, and every
   * label of the bucket comes back once, the proposal now mapping each label
   * to a candidate of the bucket filed under it.
   */
  lemma KanaFirstChoice(s: KanaState, n: int, choice: string, toKana: string -> string, d: CandBuckets, cs: seq<Candidate>)
    requires choice != Next && InProposal(s.proposal, choice) && s.kana == ""
    requires s.dict == Some(d) && Get(d, choice) == Some(cs)
    ensures var (s1, r) := KanaSelect(s, n, choice, toKana);
      && s1.kana == choice && s1.last == s.last && s1.dict == s.dict
      && r.Ok? && r.value.Page?
      && s1.proposal.DictProposal?
      && r.value.page == Keys(s1.proposal.entries)
      && Distinct(r.value.page)
      && (forall x :: x in r.value.page <==> x in KeysOf(cs))
      && KeyedEntries(s1.proposal.entries)
      && (forall c :: c in ValuesOf(s1.proposal.entries) ==> c in cs)
  {
    var p := FromPairs(LabelPairs(cs));
    forall i | 0 <= i < |p| ensures p[i].1.key == p[i].0 && p[i].1 in cs {
      assert p[i].0 in Keys(p);
      assert Get(p, p[i].0) == Some(p[i].1) by {
        GetAt(p, i);
      }
      LastOfLabels(cs, p[i].0);
    }
  }

  /**
   * Once a bucket is fixed, an accepted label yields the candidate filed
   * under it; after a `"NEXT"` has replaced the proposal by a page of keys,
   * an accepted key is a `TypeError` (a list indexed by a string).
   */
  lemma KanaLaterChoice(s: KanaState, n: int, choice: string, toKana: string -> string)
    requires choice != Next && InProposal(s.proposal, choice) && s.kana != ""
    ensures var (s1, r) := KanaSelect(s, n, choice, toKana);
      && s1 == s
      && (s.proposal.ListProposal? ==> r == Err(TypeError))
      && (s.proposal.DictProposal? && KeyedEntries(s.proposal.entries) ==>
            r.Ok? && r.value.Chosen? && r.value.cand.key == choice
            && r.value.cand in ValuesOf(s.proposal.entries))
  {
    if s.proposal.DictProposal? && KeyedEntries(s.proposal.entries) {
      GetOfKeyed(s.proposal.entries, choice);
    }
  }

  /** The picker object; `toKana` stands for the kana transliterator. */
  class KanaCandidates {
    var title: string
    const cands: seq<Candidate>
    const toKana: string -> string
    var last: seq<string>
    var kana: string
    var proposal: Proposal
    var dict: Option<CandBuckets>

    function State(): KanaState
      reads this
    {
      KanaState(cands, last, kana, proposal, dict)
    }

    constructor (title: string, cands: seq<Candidate>, toKana: string -> string)
      ensures this.title == title && this.toKana == toKana
      ensures State() == Initial(cands)
    {
      this.title := title;
      this.cands := cands;
      this.toKana := toKana;
      last := [];
      kana := "";
      proposal := ListProposal([]);
      dict := None;
    }

    /** `cands(num_cands)`, `0` showing every remaining key */
    method Cands(n: int) returns (r: Result<seq<string>>)
      modifies this`last, this`proposal, this`dict
      ensures (State(), r) == KanaCands(old(State()), n, toKana)
    {
      if dict.None? {
        var built := BuildDict(cands, n, toKana);
        if built.Err? {
          return Err(built.error);
        }
        dict := Some(built.value);
      }
      var keys := Keys(dict.value);
      var lim := PageLimit(n, |Remaining(last, dict.value)|);
      if last != [] {
        var tmpl := Take(last, lim);
        last := Drop(last, lim);
        if |last| > 0 {
          tmpl := tmpl + [Next];
        }
        proposal := ListProposal(tmpl);
        return Ok(tmpl);
      } else if |keys| <= lim {
        proposal := ListProposal(keys);
        return Ok(keys);
      }
      last := Drop(keys, lim);
      var tmpl := Take(keys, lim) + [Next];
      proposal := ListProposal(tmpl);
      return Ok(tmpl);
    }

    /** `select(num_cands, choice)` */
    method Select(n: int, choice: string) returns (r: Result<Selection>)
      modifies this`last, this`proposal, this`dict, this`kana
      ensures (State(), r) == KanaSelect(old(State()), n, choice, toKana)
    {
      if choice == Next {
        var page := Cands(n);
        return if page.Err? then Err(page.error) else Ok(Page(page.value));
      }
      if !InProposal(proposal, choice) {
        return Err(ValueError);
      }
      if kana == "" {
        kana := choice;
        if dict.None? {
          return Err(TypeError);
        }
        var bucket := Get(dict.value, choice);
        if bucket.None? {
          return Err(KeyError);
        }
        var p := FromPairs(LabelPairs(bucket.value));
        proposal := DictProposal(p);
        return Ok(Page(Keys(p)));
      }
      if proposal.ListProposal? {
        return Err(TypeError);
      }
      return Ok(Chosen(Get(proposal.entries, choice).value));
    }
  }

  /** `KanaCandidates(title, cands, parent)`: `IndexError` on an empty list; duplicate keys are not checked. */
  method NewKanaCandidates(title: string, input: CandsInput, toKana: string -> string) returns (r: Result<KanaCandidates>)
    ensures r.Err? <==> Wrap(input).Err?
    ensures r.Err? ==> r.error == IndexError
    ensures r.Ok? ==>
      && fresh(r.value) && r.value.title == title && r.value.toKana == toKana
      && r.value.State() == Initial(Wrap(input).value)
  {
    var w := Wrap(input);
    if w.Err? {
      return Err(w.error);
    }
    var k := new KanaCandidates(title, w.value, toKana);
    return Ok(k);
  }
}
