/**
 * The containers of the refinement engine (show_a_table/model/refiner/refiner.py):
 * the `Categories` and `Priority` enumerations, a `Candidate` choice, the
 * key-unique paging choice set `Candidates`, and the queries (`DQQuery`,
 * `FunQuery`) a finished refinement hands to the question-answering step.
 */
module Refiner {
  import opened Base
  import opened Py
  import opened DateExam

  /** The `Categories` enumeration: a member name and a display value each. */
  datatype Category = Company | Airport | Person | City | Compound
  {
    function Value(): string {
      match this
      case Company => "企業名"
      case Airport => "空港名"
      case Person => "人名"
      case City => "市区町村名"
      case Compound => "化合物名"
    }

    function Name(): string {
      match this
      case Company => "COMPANY"
      case Airport => "AIRPORT"
      case Person => "PERSON"
      case City => "CITY"
      case Compound => "COMPOUND"
    }
  }

  /** The members in declaration order, the order `for e in cls` visits them. */
  const AllCategories: seq<Category> := [Company, Airport, Person, City, Compound]

  /** `[c.value for c in Categories]` */
  const CategoryValues: seq<string> := ["企業名", "空港名", "人名", "市区町村名", "化合物名"]

  lemma CategoryValuesInOrder()
    ensures |CategoryValues| == |AllCategories|
    ensures forall i :: 0 <= i < |AllCategories| ==> CategoryValues[i] == AllCategories[i].Value()
    ensures forall c: Category :: c in AllCategories
  {
    AllCategoriesListed();
  }

  lemma AllCategoriesListed()
    ensures forall c: Category :: c in AllCategories
  {
    forall c: Category ensures c in AllCategories {
      match c
      case Company => assert AllCategories[0] == c;
      case Airport => assert AllCategories[1] == c;
      case Person => assert AllCategories[2] == c;
      case City => assert AllCategories[3] == c;
      case Compound => assert AllCategories[4] == c;
    }
  }

  /** `Categories.value_of(v)`: the member whose value is `v`, else `None`. */
  method ValueOf(v: string) returns (r: Option<Category>)
    ensures r.Some? ==> r.value.Value() == v
    ensures r.None? <==> forall c: Category :: c.Value() != v
  {
    for i := 0 to |AllCategories|
      invariant forall j :: 0 <= j < i ==> AllCategories[j].Value() != v
    {
      if AllCategories[i].Value() == v {
        return Some(AllCategories[i]);
      }
    }
    forall c: Category ensures c.Value() != v {
      match c
      case Company => assert AllCategories[0] == c;
      case Airport => assert AllCategories[1] == c;
      case Person => assert AllCategories[2] == c;
      case City => assert AllCategories[3] == c;
      case Compound => assert AllCategories[4] == c;
    }
    return None;
  }

  /** The `Priority` enumeration, most urgent first. */
  datatype Priority = Highest | Higher | High | Middle | Low | Lower | Lowest

  /** A choice: the displayed `key`, the `ref` handed back to the refiner, and an optional kana reading. */
  datatype Candidate = Candidate(key: string, ref: string, reading: Option<string>)

  /** `Candidate(key, ref)`: a missing or empty `ref` defaults to the key. */
  function MkCandidate(key: string, ref: Option<string>, reading: Option<string>): (c: Candidate)
    ensures c.key == key && c.reading == reading
    ensures ref.Some? && ref.value != "" ==> c.ref == ref.value
    ensures ref.None? || ref.value == "" ==> c.ref == key
    ensures c.ref == "" ==> key == ""
  {
    Candidate(key, if ref.Some? && ref.value != "" then ref.value else key, reading)
  }

  /** A plain string choice `s`, which the refiners wrap as `Candidate(s)`. */
  function ChoiceOf(s: string): Candidate {
    MkCandidate(s, None, None)
  }

  /** The two shapes of `cands` a choice set accepts: display strings, or candidates. */
  datatype CandsInput = Labels(labels: seq<string>) | Items(items: seq<Candidate>)

  /** `cands[0]` is inspected first (an `IndexError` when empty); strings are wrapped as candidates. */
  function Wrap(input: CandsInput): (r: Result<seq<Candidate>>)
    ensures r.Err? <==> (input.Labels? && input.labels == []) || (input.Items? && input.items == [])
    ensures r.Err? ==> r.error == IndexError
    ensures r.Ok? && input.Labels? ==>
      |r.value| == |input.labels| && forall i :: 0 <= i < |r.value| ==> r.value[i] == ChoiceOf(input.labels[i])
    ensures r.Ok? && input.Items? ==> r.value == input.items
  {
    match input
    case Labels(ls) =>
      if ls == [] then Err(IndexError) else Ok(seq(|ls|, i requires 0 <= i < |ls| => ChoiceOf(ls[i])))
    case Items(cs) =>
      if cs == [] then Err(IndexError) else Ok(cs)
  }

  function KeysOf(cs: seq<Candidate>): (ks: seq<string>)
    ensures |ks| == |cs|
    ensures forall i :: 0 <= i < |cs| ==> ks[i] == cs[i].key
  {
    seq(|cs|, i requires 0 <= i < |cs| => cs[i].key)
  }

  predicate DistinctKeys(ks: seq<string>) {
    forall i, j :: 0 <= i < j < |ks| ==> ks[i] != ks[j]
  }

  /** `{c.key: c for c in cands}`: a later candidate with the same key wins. */
  function ExpectsOf(cs: seq<Candidate>): (m: map<string, Candidate>)
    ensures forall k :: k in m <==> k in KeysOf(cs)
    ensures forall k :: k in m ==> m[k].key == k
  {
    if cs == [] then map[]
    else
      var front := cs[..|cs| - 1];
      assert forall k :: k in KeysOf(cs) <==> k in KeysOf(front) || k == cs[|cs| - 1].key by {
        assert forall i :: 0 <= i < |front| ==> KeysOf(cs)[i] == KeysOf(front)[i];
        assert KeysOf(cs) == KeysOf(front) + [cs[|cs| - 1].key];
      }
      ExpectsOf(front)[cs[|cs| - 1].key := cs[|cs| - 1]]
  }

  lemma {:induction false} ExpectsOfDistinct(cs: seq<Candidate>, i: nat)
    requires DistinctKeys(KeysOf(cs)) && i < |cs|
    ensures ExpectsOf(cs)[cs[i].key] == cs[i]
  {
    var front := cs[..|cs| - 1];
    if i < |cs| - 1 {
      assert KeysOf(cs)[i] != KeysOf(cs)[|cs| - 1];
      assert DistinctKeys(KeysOf(front)) by {
        assert forall j :: 0 <= j < |front| ==> KeysOf(front)[j] == KeysOf(cs)[j];
      }
      ExpectsOfDistinct(front, i);
    }
  }

  /** What constructing `Candidates(title, cands, parent)` accepts: the wrapped candidates, or the exception. */
  function Validate(input: CandsInput): (r: Result<seq<Candidate>>)
    ensures r.Ok? <==> Wrap(input).Ok? && DistinctKeys(KeysOf(Wrap(input).value))
    ensures r.Ok? ==> r.value == Wrap(input).value
    ensures Wrap(input).Err? ==> r == Wrap(input)
    ensures Wrap(input).Ok? && !DistinctKeys(KeysOf(Wrap(input).value)) ==> r == Err(ValueError)
  {
    match Wrap(input)
    case Err(e) => Err(e)
    case Ok(cs) => if DistinctKeys(KeysOf(cs)) then Ok(cs) else Err(ValueError)
  }

  /** The token a page ends with while more keys remain. */
  const Next := "NEXT"

  /**
   * `cands(n)` as written, on the remaining keys `lk`: all of them when at most
   * `n` remain, else the first `n` (as Python slices them) and `"NEXT"`.
   * Returns the page and the new remainder.
   */
  function PagingAsWritten(lk: seq<string>, n: int): (seq<string>, seq<string>) {
    if |lk| <= n then (lk, lk) else (Take(lk, n) + [Next], Drop(lk, n))
  }

  /** The number of keys a page may show: `num_cands`, where `0` stands for all `len` of them. */
  function PageLimit(n: int, len: nat): int {
    if n == 0 then len else n
  }

  /** `cands(n)` with `0` meaning every key, as its documentation promises. */
  function Paging(lk: seq<string>, n: int): (seq<string>, seq<string>) {
    PagingAsWritten(lk, PageLimit(n, |lk|))
  }

  /** What `select` returns: a page of keys, or the chosen candidate. */
  datatype Selection = Page(page: seq<string>) | Chosen(cand: Candidate)

  /** A `Candidates` choice set: the key-to-candidate map and the keys not yet paged out. */
  class Candidates {
    var title: string
    const expects: map<string, Candidate>
    var lk: seq<string>

    ghost predicate Valid()
      reads this
    {
      && DistinctKeys(lk)
      && (forall k :: k in lk ==> k in expects)
      && (forall k :: k in expects ==> expects[k].key == k)
    }

    constructor (title: string, cs: seq<Candidate>)
      requires DistinctKeys(KeysOf(cs))
      ensures Valid()
      ensures this.title == title && expects == ExpectsOf(cs) && lk == KeysOf(cs)
    {
      this.title := title;
      expects := ExpectsOf(cs);
      lk := KeysOf(cs);
    }

    /** `cands(num_cands)`, `0` showing every key: the next page; the remainder shrinks only when a `"NEXT"` is appended. */
    method Cands(n: int) returns (page: seq<string>)
      requires Valid()
      modifies this`lk
      ensures Valid()
      ensures (page, lk) == Paging(old(lk), n)
    {
      var lim := PageLimit(n, |lk|);
      if |lk| <= lim {
        return lk;
      }
      page := Take(lk, lim) + [Next];
      var rest := Drop(lk, lim);
      assert forall i :: 0 <= i < |rest| ==> rest[i] == lk[SliceIndex(lim, |lk|) + i];
      lk := rest;
    }

    /**
     * `select(num_cands, choice)`: `"NEXT"` pages on; any key of the set,
     * shown yet or not, yields its candidate; anything else is a `ValueError`.
     */
    method Select(n: int, choice: string) returns (r: Result<Selection>)
      requires Valid()
      modifies this`lk
      ensures Valid()
      ensures choice == Next ==> r.Ok? && r.value.Page? && (r.value.page, lk) == Paging(old(lk), n)
      ensures choice != Next ==> lk == old(lk)
      ensures choice != Next && choice in expects ==> r == Ok(Chosen(expects[choice])) && r.value.cand.key == choice
      ensures choice != Next && choice !in expects ==> r == Err(ValueError)
    {
      if choice == Next {
        var page := Cands(n);
        return Ok(Page(page));
      }
      if choice !in expects {
        return Err(ValueError);
      }
      return Ok(Chosen(expects[choice]));
    }
  }

  /**
   * `Candidates(title, cands, parent)`: a fresh choice set keyed and ordered
   * as `cands`, or the `IndexError` / `ValueError` the constructor raises.
   */
  method NewCandidates(title: string, input: CandsInput) returns (r: Result<Candidates>)
    ensures r.Err? <==> Validate(input).Err?
    ensures r.Err? ==> r.error == Validate(input).error
    ensures r.Ok? ==>
      && fresh(r.value) && r.value.Valid() && r.value.title == title
      && r.value.lk == KeysOf(Validate(input).value)
      && r.value.expects == ExpectsOf(Validate(input).value)
  {
    var v := Validate(input);
    if v.Err? {
      return Err(v.error);
    }
    var c := new Candidates(title, v.value);
    return Ok(c);
  }

  /** A fresh set carries every candidate under its own key, keys in input order. */
  lemma CandidatesOfValid(input: CandsInput)
    requires Validate(input).Ok?
    ensures var cs := Validate(input).value;
      && DistinctKeys(KeysOf(cs))
      && (forall i :: 0 <= i < |cs| ==> ExpectsOf(cs)[KeysOf(cs)[i]] == cs[i])
      && (input.Labels? ==> KeysOf(cs) == input.labels)
  {
    var cs := Validate(input).value;
    forall i | 0 <= i < |cs| ensures ExpectsOf(cs)[KeysOf(cs)[i]] == cs[i] {
      ExpectsOfDistinct(cs, i);
    }
  }

  /** Two candidates with one display key are refused with `ValueError`. */
  lemma DuplicateKeyRefused(input: CandsInput, i: nat, j: nat)
    requires Wrap(input).Ok? && i < j < |Wrap(input).value|
    requires Wrap(input).value[i].key == Wrap(input).value[j].key
    ensures Validate(input) == Err(ValueError)
  {
    assert KeysOf(Wrap(input).value)[i] == KeysOf(Wrap(input).value)[j];
  }

  /**
   * One call of `cands(n)` for `n >= 0`: when `n` is `0` or at most `n` keys
   * remain they are all returned and nothing is consumed; otherwise exactly
   * `n` keys are returned, `"NEXT"` follows, and exactly those `n` are consumed.
   */
  lemma PagingSplits(lk: seq<string>, n: int)
    requires n >= 0
    ensures var (page, rest) := Paging(lk, n);
      if n == 0 || |lk| <= n then page == lk && rest == lk
      else |page| == n + 1 && page[n] == Next && page[..n] + rest == lk
  {
    if n > 0 && |lk| > n {
      var (page, rest) := Paging(lk, n);
      assert page[..n] == lk[..n];
    }
  }

  /** As written, `n == 0` with keys left stalls: only `"NEXT"` comes back and nothing is consumed. */
  lemma PagingStallsAtZero(lk: seq<string>)
    requires lk != []
    ensures PagingAsWritten(lk, 0) == ([Next], lk)
    ensures PagingAsWritten(PagingAsWritten(lk, 0).1, 0) == ([Next], lk)
  {
    assert Take(lk, 0) + [Next] == [Next];
  }

  /** With `0` meaning every key, one page shows all remaining keys and paging is done. */
  lemma PagingAllAtZero(lk: seq<string>)
    ensures Paging(lk, 0) == (lk, lk)
    ensures Pages(lk, 0) == [lk]
  {
  }

  /** The successive pages `cands(n)` returns until one has no `"NEXT"` appended. */
  function Pages(lk: seq<string>, n: int): (ps: seq<seq<string>>)
    requires n >= 0
    ensures |ps| >= 1
    decreases |lk|
  {
    if n == 0 || |lk| <= n then [lk]
    else
      assert |Paging(lk, n).1| < |lk|;
      [Paging(lk, n).0] + Pages(Paging(lk, n).1, n)
  }

  /** Drop the `"NEXT"` token of every page but the last and concatenate. */
  function Unpage(ps: seq<seq<string>>): seq<string>
    requires |ps| >= 1
    requires forall i :: 0 <= i < |ps| - 1 ==> |ps[i]| >= 1
  {
    if |ps| == 1 then ps[0] else ps[0][..|ps[0]| - 1] + Unpage(ps[1..])
  }

  /** `Unpage` of a page in front of more pages. */
  lemma UnpageCons(p: seq<string>, qs: seq<seq<string>>)
    requires |p| >= 1 && |qs| >= 1
    requires forall i :: 0 <= i < |qs| - 1 ==> |qs[i]| >= 1
    ensures Unpage([p] + qs) == p[..|p| - 1] + Unpage(qs)
  {
    assert ([p] + qs)[0] == p && ([p] + qs)[1..] == qs;
  }

  /**
   * Paging covers every key exactly once and in order: each page but the last
   * holds `n` keys and then `"NEXT"`, the last holds at most `n` (every key
   * when `n` is `0`), and removing the tokens and concatenating gives back the
   * original keys.
   */
  lemma {:induction false} PagesCover(lk: seq<string>, n: int)
    requires n >= 0
    ensures var ps := Pages(lk, n);
      && (forall i :: 0 <= i < |ps| - 1 ==> |ps[i]| == n + 1 && ps[i][n] == Next)
      && |ps[|ps| - 1]| <= PageLimit(n, |lk|)
      && Unpage(ps) == lk
    decreases |lk|
  {
    if n > 0 && |lk| > n {
      var (page, rest) := Paging(lk, n);
      PagingSplits(lk, n);
      PagesCover(rest, n);
      var qs := Pages(rest, n);
      var ps := Pages(lk, n);
      assert ps == [page] + qs;
      assert ps[|ps| - 1] == qs[|qs| - 1];
      forall i | 0 <= i < |ps| - 1 ensures |ps[i]| == n + 1 && ps[i][n] == Next {
        if i > 0 {
          assert ps[i] == qs[i - 1];
        }
      }
      UnpageCons(page, qs);
    }
  }

  /** The defunctionalised `exam` of a query: what the answer date is tested against. */
  datatype ExamCode =
    | NeverPasses
    | PointExam(year: string, month: string, day: string)
    | RangeExam(start: seq<Option<int>>, end: seq<Option<int>>)

  /** The defunctionalised `gen_query` of a query. */
  datatype QuestionCode = NoQuestion | AttrQuestion(attr: string)

  /** A `DQQuery` (`NeverPasses`, `NoQuestion`) or a `FunQuery` with its exam and question. */
  datatype Query = Query(refine: ExamCode, gen: QuestionCode, priority: Priority)

  /** `DQQuery.__init__(priori)`: the given priority, else `MIDDLE`. */
  function MkQuery(refine: ExamCode, gen: QuestionCode, priori: Option<Priority>): (q: Query)
    ensures q.refine == refine && q.gen == gen
    ensures priori.Some? ==> q.priority == priori.value
    ensures priori.None? ==> q.priority == Middle
  {
    Query(refine, gen, if priori.Some? then priori.value else Middle)
  }

  /**
   * A range bound access raises `IndexError`: `both(idx)` reads `_s[idx]` for
   * idx 0 to 2, and `_e[idx]` only when `_s[idx]` is truthy.
   */
  predicate RangeIndexError(s: seq<Option<int>>, e: seq<Option<int>>) {
    |s| < 3 || exists idx :: 0 <= idx < 3 && Truthy(s[idx]) && |e| <= idx
  }

  /** `exam(result)`: `DQQuery` never passes; a `FunQuery` applies its predicate. */
  function Exam(q: Query, answer: Date): Result<bool> {
    match q.refine
    case NeverPasses => Ok(false)
    case PointExam(y, m, d) => PointMatches(y, m, d, answer)
    case RangeExam(s, e) => if RangeIndexError(s, e) then Err(IndexError) else Ok(RangeMatches(s, e, answer))
  }

  /** `get_query(target)`: `""` for a `DQQuery`, else `"{tgt}の{attr}は?"`. */
  function GetQuery(q: Query, target: string): (text: string)
    ensures q.gen.AttrQuestion? ==> text == target + "の" + q.gen.attr + "は?"
    ensures q.gen.NoQuestion? ==> text == ""
  {
    match q.gen
    case NoQuestion => ""
    case AttrQuestion(attr) => target + "の" + attr + "は?"
  }

  /** The question the source's test expects: cat + birthday. */
  lemma GetQueryExample(e: ExamCode, p: Priority)
    ensures GetQuery(Query(e, AttrQuestion("誕生日"), p), "猫") == "猫の誕生日は?"
  {
  }

  /**
   * What a refiner returns from one `refine` call: a choice set (`Candidates`
   * with its title and keys), a numeric range (`NumCandidates`), a finished
   * query, or nothing.
   */
  datatype Step =
    | Offer(title: string, keys: seq<string>)
    | Numeric(title: string, lo: int, hi: int, skippable: bool)
    | Final(query: Query)
    | NoStep
}
