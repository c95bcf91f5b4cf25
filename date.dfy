/**
 * The step functions of the date refiners (show_a_table/model/refiner/date.py)
 * as values: each `refine` call maps a refiner's state and a choice to its
 * new state and what it returns. The classes in `DateRefiners` are proved
 * to follow these functions.
 */
module DateSteps {
  import opened Base
  import opened Py
  import opened DateExam
  import opened Refiner

  const EraTitle := "日付の選択/紀元前・後の選択"
  const YearTitle := "日付の選択/年の選択"
  const MonthTitle := "日付の選択/月の選択"
  const DayTitle := "日付けの選択/日にちの選択"
  const MethodTitle := "日付の選択/方法の選択"
  const BceKey := "紀元前（BCE）"
  const CeKey := "紀元後（CE）"
  const DateKey := "日付指定"
  const RangeKey := "範囲"
  const Skip := "SKIP"
  const Eras: seq<string> := [BceKey, CeKey, Skip]
  const StartPrefix := "開始"
  const EndPrefix := "終了"

  /** `int(c) if c.isdigit() else None` */
  function ParseField(c: string): Option<int> {
    if IsDigits(c) then Some(DigitsValue(c)) else None
  }

  /** `[int(c) if c.isdigit() else None for c in s.split("-")]` */
  function ParseParts(s: string): (ps: seq<Option<int>>)
    ensures |ps| == |Split(s, '-')| && |ps| >= 1
    ensures forall i :: 0 <= i < |ps| ==> ps[i] == ParseField(Split(s, '-')[i])
  {
    var parts := Split(s, '-');
    seq(|parts|, i requires 0 <= i < |parts| => ParseField(parts[i]))
  }

  /** A parsed `start` argument: whether it carried the `BCE` prefix, and its fields. */
  datatype StartBound = StartBound(canbce: bool, parts: seq<Option<int>>)

  /** The `start` handling of `JustOneDateRefiner.__init__`: a missing or empty start is no bound. */
  function ParseStart(start: Option<string>): Option<StartBound> {
    if start.None? || start.value == "" then None
    else if StartsWith(start.value, "BCE") then Some(StartBound(true, ParseParts(start.value[3..])))
    else Some(StartBound(false, ParseParts(start.value)))
  }

  /** `expression()`: `"{b}{y}-{m}-{d}"` with `b` = `"BCE"` or nothing. */
  function Render(bce: bool, y: string, m: string, d: string): string {
    (if bce then "BCE" else "") + y + "-" + m + "-" + d
  }

  predicate NoDash(s: string) {
    forall i :: 0 <= i < |s| ==> s[i] != '-'
  }

  lemma SplitThree(y: string, m: string, d: string)
    requires NoDash(y) && NoDash(m) && NoDash(d)
    ensures Split(y + "-" + m + "-" + d, '-') == [y, m, d]
  {
    SplitWithoutSep(y, '-');
    SplitWithoutSep(m, '-');
    SplitWithoutSep(d, '-');
    SplitAround(m, d, '-');
    assert m + "-" + d == m + ['-'] + d;
    SplitAround(y, m + "-" + d, '-');
    assert y + "-" + m + "-" + d == y + ['-'] + (m + "-" + d);
  }

  /**
   * Round trip: the start bound parsed back from a rendered expression has
   * the three fields as `int` (or `None` where not digits) and `canbce` set
   * exactly when the `BCE` prefix was rendered.
   */
  lemma RenderRoundTrip(bce: bool, y: string, m: string, d: string)
    requires NoDash(y) && NoDash(m) && NoDash(d)
    requires !bce ==> !StartsWith(y, "BCE")
    ensures ParseStart(Some(Render(bce, y, m, d))) == Some(StartBound(bce, [ParseField(y), ParseField(m), ParseField(d)]))
  {
    var body := y + "-" + m + "-" + d;
    SplitThree(y, m, d);
    var ps := ParseParts(body);
    assert ps == [ParseField(y), ParseField(m), ParseField(d)] by {
      assert |ps| == 3;
      assert ps[0] == ParseField(y) && ps[1] == ParseField(m) && ps[2] == ParseField(d);
    }
    if bce {
      assert Render(bce, y, m, d) == "BCE" + body;
      assert ("BCE" + body)[..3] == "BCE";
      assert ("BCE" + body)[3..] == body;
    } else {
      assert Render(bce, y, m, d) == body;
      PrefixBeforeDash(y, "-" + m + "-" + d);
    }
  }

  /** A `BCE` prefix of `y + rest`, with `rest` starting at a dash, is a prefix of `y`. */
  lemma PrefixBeforeDash(y: string, rest: string)
    requires NoDash(y) && |rest| >= 1 && rest[0] == '-'
    ensures StartsWith(y + rest, "BCE") ==> StartsWith(y, "BCE")
  {
    if |y| >= 3 {
      assert (y + rest)[..3] == y[..3];
    } else {
      assert (y + rest)[|y|] == '-';
      if |y + rest| >= 3 {
        assert (y + rest)[..3][|y|] == '-';
      }
    }
  }

  /** A wildcard field parses to `None`, the decimal string of `n` to `n`. */
  lemma ParseFieldValues(n: nat)
    ensures ParseField("*") == None
    ensures ParseField(NatToString(n)) == Some(n)
  {
    DigitsOfNat(n);
  }

  /** The fields of a `JustOneDateRefiner`. `canbce` is false when no start was given (the source leaves it unset and never reads it then). */
  datatype JodState = JodState(
    attr: string,
    start: Option<seq<Option<int>>>,
    canbce: bool,
    year: string,
    month: string,
    day: string,
    last: string,  // `_last`: set once to `""` and never read
    solo: bool,
    bce: bool)

  /** `JustOneDateRefiner(attr, solo, start)`: `solo` is ignored, the refiner is always solo. */
  function NewJod(attr: string, solo: bool, start: Option<string>): (s: JodState)
    ensures s.attr == attr && s.solo && !s.bce
    ensures s.year == "" && s.month == "" && s.day == ""
    ensures ParseStart(start).None? ==> s.start.None?
    ensures ParseStart(start).Some? ==> s.start == Some(ParseStart(start).value.parts) && s.canbce == ParseStart(start).value.canbce
  {
    var b := ParseStart(start);
    JodState(attr, if b.Some? then Some(b.value.parts) else None, b.Some? && b.value.canbce, "", "", "", "", true, false)
  }

  /** `self._start` is truthy: given, and a non-empty list. */
  predicate HasStart(start: Option<seq<Option<int>>>) {
    start.Some? && start.value != []
  }

  /** `self._start[i]`, an `IndexError` past the end. */
  function StartField(parts: seq<Option<int>>, i: nat): (r: Result<Option<int>>)
    ensures r.Ok? <==> i < |parts|
    ensures r.Ok? ==> r.value == parts[i]
    ensures r.Err? ==> r.error == IndexError
  {
    if i < |parts| then Ok(parts[i]) else Err(IndexError)
  }

  /** The start year when `self._start and self._start[0]` holds. */
  function StartYear(start: Option<seq<Option<int>>>): Option<int> {
    if HasStart(start) && Truthy(start.value[0]) then Some(start.value[0].value) else None
  }

  /** `str(x)` of an optional integer. */
  function PyStr(o: Option<int>): string {
    if o.None? then "None" else IntToString(o.value)
  }

  /** The lower bound of the month range offered after the year `year` is chosen. */
  function MonthLow(start: Option<seq<Option<int>>>, year: string): Result<int> {
    if !HasStart(start) then Ok(1)
    else
      match StartField(start.value, 1)
      case Err(e) => Err(e)
      case Ok(f1) =>
        Ok(if Truthy(f1) && (year == PyStr(start.value[0]) || !Truthy(start.value[0])) then f1.value else 1)
  }

  /** The day lower bound as `_month` computes it: the chosen month string is compared with the start month integer. */
  function DayLowAsWritten(start: Option<seq<Option<int>>>, month: string): Result<int> {
    if !HasStart(start) then Ok(1)
    else
      match StartField(start.value, 2)
      case Err(e) => Err(e)
      case Ok(f2) =>
        // `month == self._start[1]` compares a `str` with an `int`, which Python never finds equal.
        Ok(if Truthy(f2) && (!Truthy(start.value[1]) || false) then f2.value else 1)
  }

  /** The day lower bound with the month compared as text, as the year is in `_year`. */
  function DayLow(start: Option<seq<Option<int>>>, month: string): Result<int> {
    if !HasStart(start) then Ok(1)
    else
      match StartField(start.value, 2)
      case Err(e) => Err(e)
      case Ok(f2) =>
        Ok(if Truthy(f2) && (!Truthy(start.value[1]) || month == PyStr(start.value[1])) then f2.value else 1)
  }

  /**
   * The month lower bound is the start month exactly when the start month is
   * set and the chosen year is the start year or the start year is a
   * wildcard; the bound is 1 otherwise, and a start with one field raises.
   */
  lemma MonthLowSpec(start: Option<seq<Option<int>>>, year: string)
    ensures MonthLow(start, year).Err? <==> HasStart(start) && |start.value| < 2
    ensures HasStart(start) && |start.value| >= 2 ==>
      var p := start.value;
      if Truthy(p[1]) && (year == PyStr(p[0]) || !Truthy(p[0])) then MonthLow(start, year) == Ok(p[1].value)
      else MonthLow(start, year) == Ok(1)
    ensures !HasStart(start) ==> MonthLow(start, year) == Ok(1)
  {
  }

  /**
   * The (corrected) day lower bound is the start day exactly when the start
   * day is set and the start month is a wildcard or equals the chosen month.
   */
  lemma DayLowSpec(start: Option<seq<Option<int>>>, month: string)
    ensures DayLow(start, month).Err? <==> HasStart(start) && |start.value| < 3
    ensures HasStart(start) && |start.value| >= 3 ==>
      var p := start.value;
      if Truthy(p[2]) && (!Truthy(p[1]) || month == PyStr(p[1])) then DayLow(start, month) == Ok(p[2].value)
      else DayLow(start, month) == Ok(1)
    ensures !HasStart(start) ==> DayLow(start, month) == Ok(1)
  {
  }

  /** As written, the chosen month never matters: the start day bounds only a wildcard start month. */
  lemma DayLowAsWrittenIgnoresMonth(start: Option<seq<Option<int>>>, m1: string, m2: string)
    ensures DayLowAsWritten(start, m1) == DayLowAsWritten(start, m2)
    ensures HasStart(start) && |start.value| >= 3 && Truthy(start.value[1]) ==> DayLowAsWritten(start, m1) == Ok(1)
  {
  }

  /** Start 2020-6-15, month 6 chosen: as written the days offered start at 1, corrected at 15. */
  lemma DayLowCounterexample()
    ensures DayLowAsWritten(Some([Some(2020), Some(6), Some(15)]), "6") == Ok(1)
    ensures DayLow(Some([Some(2020), Some(6), Some(15)]), "6") == Ok(15)
  {
    assert PyStr(Some(6)) == "6";
  }

  /** A `"SKIP"` choice is replaced by `Candidate("SKIP", ref="*")`. */
  function Normalize(c: Candidate): (c1: Candidate)
    ensures c1.key == c.key
    ensures c1.ref == if c.key == Skip then "*" else c.ref
  {
    if c.key == Skip then MkCandidate(Skip, Some("*"), None) else c
  }

  /** `_year(choice)` */
  function YearStep(s: JodState, c: Candidate): (JodState, Result<Step>) {
    if c.key == DateKey && (!HasStart(s.start) || s.canbce) then (s, Ok(Offer(EraTitle, Eras)))
    else if c.key == BceKey then
      var sy := StartYear(s.start);
      (s.(bce := true), Ok(Numeric(YearTitle, 1, if sy.Some? then sy.value else 4713, false)))
    else if c.key == CeKey || (c.key == DateKey && !s.canbce) then
      var sy := StartYear(s.start);
      (s.(bce := false), Ok(Numeric(YearTitle, if sy.Some? then sy.value else 1, 2030, false)))
    else
      var s1 := s.(year := c.ref);
      match MonthLow(s.start, c.ref)
      case Err(e) => (s1, Err(e))
      case Ok(lo) => (s1, Ok(Numeric(MonthTitle, lo, 12, true)))
  }

  /** `_month(choice)` */
  function MonthStep(s: JodState, c: Candidate): (JodState, Result<Step>) {
    var s1 := s.(month := c.ref);
    match DayLow(s.start, c.ref)
    case Err(e) => (s1, Err(e))
    case Ok(lo) => (s1, Ok(Numeric(DayTitle, lo, 31, true)))
  }

  /** `_day(choice)`: the point query; the non-solo `DQQuery()` branch is dead since `solo` is forced. */
  function DayStep(s: JodState, c: Candidate): (JodState, Result<Step>) {
    var s1 := s.(day := c.ref);
    if s.solo then (s1, Ok(Final(MkQuery(PointExam(s.year, s.month, c.ref), AttrQuestion(s.attr), None))))
    else (s1, Ok(Final(MkQuery(NeverPasses, NoQuestion, None))))
  }

  /** `JustOneDateRefiner.refine(choice)`: fill the first empty of year, month, day. */
  function JodRefine(s: JodState, c: Candidate): (JodState, Result<Step>) {
    var c1 := Normalize(c);
    if s.year == "" then YearStep(s, c1)
    else if s.month == "" then MonthStep(s, c1)
    else if s.day == "" then DayStep(s, c1)
    else (s, Ok(NoStep))
  }

  /** `expression()` of a refiner state. */
  function Expression(s: JodState): string {
    Render(s.bce, s.year, s.month, s.day)
  }

  /** The value `refine` stores for a choice: `"*"` for `"SKIP"`, else its `ref`. */
  function Stored(c: Candidate): string {
    if c.key == Skip then "*" else c.ref
  }

  /**
   * `refine` fills year, then month, then day, each from the choice's `ref`
   * (`"*"` for `"SKIP"`); the era keys only set `bce` or offer the eras; the
   * day completes a point query over the three fields; a full refiner
   * returns nothing and changes nothing. The start bound is never changed.
   */
  lemma JodRefineFills(s: JodState, c: Candidate)
    requires s.solo
    ensures var (s1, r) := JodRefine(s, c);
      && s1.attr == s.attr && s1.start == s.start && s1.canbce == s.canbce && s1.solo
      && (s.year == "" ==>
            && s1.month == s.month && s1.day == s.day
            && (c.key in [DateKey, BceKey, CeKey] ==> s1.year == "")
            && (c.key !in [DateKey, BceKey, CeKey] ==> s1.year == Stored(c) && s1.bce == s.bce))
      && (s.year != "" && s.month == "" ==> s1 == s.(month := Stored(c)) && (r.Ok? ==> r.value.Numeric?))
      && (s.year != "" && s.month != "" && s.day == "" ==>
            && s1 == s.(day := Stored(c))
            && r == Ok(Final(Query(PointExam(s.year, s.month, Stored(c)), AttrQuestion(s.attr), Middle))))
      && (s.year != "" && s.month != "" && s.day != "" ==> s1 == s && r == Ok(NoStep))
  {
  }

  /**
   * Year bounds: before Christ the years run from 1 to the start year, or
   * 4713 without one; after Christ from the start year, or 1, to 2030.
   */
  lemma YearBounds(s: JodState, c: Candidate)
    requires s.year == ""
    ensures c.key == BceKey ==>
      var sy := StartYear(s.start);
      JodRefine(s, c) == (s.(bce := true), Ok(Numeric(YearTitle, 1, if sy.Some? then sy.value else 4713, false)))
    ensures c.key == CeKey ==>
      var sy := StartYear(s.start);
      JodRefine(s, c) == (s.(bce := false), Ok(Numeric(YearTitle, if sy.Some? then sy.value else 1, 2030, false)))
    ensures c.key == DateKey && (!HasStart(s.start) || s.canbce) ==> JodRefine(s, c) == (s, Ok(Offer(EraTitle, Eras)))
    ensures c.key == DateKey && HasStart(s.start) && !s.canbce ==> JodRefine(s, c).0.bce == false && JodRefine(s, c).1.value.Numeric?
  {
  }

  /** The point query of the source's tests: year 2020 (or `"*"`), month 9, day 1 accept 2020-09-01. */
  lemma JodPointExample(attr: string, y: string)
    requires y == "2020" || y == "*"
    ensures var s := NewJod(attr, true, None).(year := y, month := "9");
      var (_, r) := JodRefine(s, ChoiceOf("1"));
      && r.Ok? && r.value.Final?
      && Exam(r.value.query, Date(2020, 9, 1)) == Ok(true)
      && GetQuery(r.value.query, "猫") == "猫の" + attr + "は?"
  {
    PointMatchesExamples();
  }

  /** `_start` of a `DateRangeRefiner`: unset, the start's expression, or the list `_mk_exam` overwrites it with. */
  datatype StartSlot = NoStart | StartExpr(expr: string) | StartParts(parts: seq<Option<int>>)

  predicate SlotTruthy(slot: StartSlot) {
    match slot
    case NoStart => false
    case StartExpr(e) => e != ""
    case StartParts(p) => p != []
  }

  /** The fields of a `DateRangeRefiner`. */
  datatype RangeState = RangeState(
    attr: string,
    start: StartSlot,
    sref: Option<JodState>,
    end: Option<string>,  // `_end`: `_mk_exam` reads it right after it is set, so the exam takes the value directly
    eref: Option<JodState>)

  function NewRange(attr: string): RangeState {
    RangeState(attr, NoStart, None, None, None)
  }

  /** `ret.title = prefix + ret.title`: an `AttributeError` on `None`. */
  function Prefixed(prefix: string, r: Result<Step>): Result<Step> {
    match r
    case Err(e) => Err(e)
    case Ok(Offer(t, ks)) => Ok(Offer(prefix + t, ks))
    case Ok(Numeric(t, lo, hi, sk)) => Ok(Numeric(prefix + t, lo, hi, sk))
    case Ok(Final(q)) => Ok(Final(q))
    case Ok(NoStep) => Err(AttributeError)
  }

  /**
   * `_mk_exam()`: parse both expressions into bounds. A `BCE` bound is parsed
   * with its prefix, so its year is `None` and negating it raises `TypeError`.
   * Each parse is also stored into `_start`.
   */
  function MkExam(slot: StartSlot, endExpr: string): (StartSlot, Result<ExamCode>) {
    match slot
    case StartExpr(st) =>
      if StartsWith(st, "BCE") then (StartParts(ParseParts(st)), Err(TypeError))
      else if StartsWith(endExpr, "BCE") then (StartParts(ParseParts(endExpr)), Err(TypeError))
      else (StartParts(ParseParts(endExpr)), Ok(RangeExam(ParseParts(st), ParseParts(endExpr))))
    case _ => (slot, Err(AttributeError))
  }

  /** `DateRangeRefiner.refine(choice)`: the start phase, then the end phase, then the range query. */
  function RangeRefine(s: RangeState, c: Candidate): (RangeState, Result<Step>) {
    if s.sref.None? then
      var (j, r) := JodRefine(NewJod(s.attr, false, None), ChoiceOf(DateKey));
      (s.(sref := Some(j)), Prefixed(StartPrefix, r))
    else if !SlotTruthy(s.start) then
      var (j, r) := JodRefine(s.sref.value, c);
      var s1 := s.(sref := Some(j));
      if r.Ok? && r.value.Final? then
        var expr := Expression(j);
        var (e, r2) := JodRefine(NewJod(s.attr, false, Some(expr)), ChoiceOf(DateKey));
        (s1.(start := StartExpr(expr), eref := Some(e)), Prefixed(EndPrefix, r2))
      else (s1, Prefixed(StartPrefix, r))
    else if s.eref.None? then (s, Err(AttributeError))
    else
      var (e, r) := JodRefine(s.eref.value, c);
      var s1 := s.(eref := Some(e));
      if r.Ok? && r.value.Final? then
        var endExpr := Expression(e);
        var (slot, exam) := MkExam(s.start, endExpr);
        (s1.(end := Some(endExpr), start := slot),
         if exam.Err? then Err(exam.error) else Ok(Final(MkQuery(exam.value, AttrQuestion(s.attr), None))))
      else (s1, Prefixed(EndPrefix, r))
  }

  /** The phases of a range refiner are entered in order. */
  predicate RangeInv(s: RangeState) {
    && (s.sref.None? ==> s.start == NoStart && s.eref.None? && s.end.None?)
    && (SlotTruthy(s.start) ==> s.sref.Some? && s.eref.Some?)
    && (!SlotTruthy(s.start) ==> s.eref.None? && s.end.None?)
    && s.start != StartExpr("")
  }

  lemma NewRangeInv(attr: string)
    ensures RangeInv(NewRange(attr))
  {
  }

  /** An expression always has at least its two dashes. */
  lemma ExpressionNotEmpty(j: JodState)
    ensures Expression(j) != ""
  {
    assert |Expression(j)| >= 2;
  }

  lemma ParsePartsNotEmpty(s: string)
    ensures ParseParts(s) != []
  {
  }

  /**
   * `refine` keeps the phases in order, and every title it returns says its
   * phase: `開始` until the start is complete, `終了` from then on.
   */
  lemma RangeTitles(s: RangeState, c: Candidate)
    requires RangeInv(s)
    ensures var (s1, r) := RangeRefine(s, c);
      && RangeInv(s1)
      && (r.Ok? && r.value.Offer? ==>
            if SlotTruthy(s1.start) then StartsWith(r.value.title, EndPrefix) else StartsWith(r.value.title, StartPrefix))
      && (r.Ok? && r.value.Numeric? ==>
            if SlotTruthy(s1.start) then StartsWith(r.value.title, EndPrefix) else StartsWith(r.value.title, StartPrefix))
  {
    if s.sref.Some? {
      if !SlotTruthy(s.start) {
        ExpressionNotEmpty(JodRefine(s.sref.value, c).0);
      } else if s.eref.Some? {
        var (e, r) := JodRefine(s.eref.value, c);
        if r.Ok? && r.value.Final? {
          ParsePartsNotEmpty(Expression(e));
          if s.start.StartExpr? {
            ParsePartsNotEmpty(s.start.expr);
          }
        }
      }
    }
  }

  /** The first call of a fresh range refiner offers the eras under the start title. */
  lemma RangeFirstOffer(attr: string, c: Candidate)
    ensures RangeRefine(NewRange(attr), c).1 == Ok(Offer(StartPrefix + EraTitle, Eras))
  {
  }

  /**
   * When the start refiner completes, the end refiner is built from the
   * start's expression, so its start bound holds the start's year, month and
   * day as parsed back, and it may offer the eras only when the start was BCE.
   */
  lemma RangeEndFromStart(s: RangeState, c: Candidate)
    requires s.sref.Some? && !SlotTruthy(s.start)
    requires JodRefine(s.sref.value, c).1.Ok? && JodRefine(s.sref.value, c).1.value.Final?
    requires var j := JodRefine(s.sref.value, c).0;
      NoDash(j.year) && NoDash(j.month) && NoDash(j.day) && (!j.bce ==> !StartsWith(j.year, "BCE"))
    ensures var (s1, r) := RangeRefine(s, c);
      var j := JodRefine(s.sref.value, c).0;
      && s1.start == StartExpr(Expression(j))
      && s1.eref.Some?
      && s1.eref.value.start == Some([ParseField(j.year), ParseField(j.month), ParseField(j.day)])
      && s1.eref.value.canbce == j.bce
      && s1.eref.value.year == ""
  {
    var j := JodRefine(s.sref.value, c).0;
    RenderRoundTrip(j.bce, j.year, j.month, j.day);
  }

  /**
   * `_mk_exam`: without `BCE` the range query compares against both parsed
   * expressions; a `BCE` bound raises `TypeError`. Either way `_start` ends
   * up holding a parsed list, which later calls do not read again.
   */
  lemma MkExamSpec(st: string, endExpr: string)
    ensures var (slot, r) := MkExam(StartExpr(st), endExpr);
      && slot.StartParts? && slot.parts != []
      && (r.Ok? <==> !StartsWith(st, "BCE") && !StartsWith(endExpr, "BCE"))
      && (r.Ok? ==> r.value == RangeExam(ParseParts(st), ParseParts(endExpr)))
      && (r.Err? ==> r.error == TypeError)
  {
  }

  /**
   * Bounds parsed from two non-`BCE` expressions have their three fields, so
   * the range query's `exam` never raises and is the range predicate itself.
   */
  lemma RangeExamOfExpressions(y1: string, m1: string, d1: string, y2: string, m2: string, d2: string,
                               gen: QuestionCode, p: Priority, answer: Date)
    requires NoDash(y1) && NoDash(m1) && NoDash(d1) && NoDash(y2) && NoDash(m2) && NoDash(d2)
    ensures var st := ParseParts(Render(false, y1, m1, d1));
      var en := ParseParts(Render(false, y2, m2, d2));
      && st == [ParseField(y1), ParseField(m1), ParseField(d1)]
      && en == [ParseField(y2), ParseField(m2), ParseField(d2)]
      && Exam(Query(RangeExam(st, en), gen, p), answer) == Ok(RangeMatches(st, en, answer))
  {
    SplitThree(y1, m1, d1);
    SplitThree(y2, m2, d2);
    assert Render(false, y1, m1, d1) == y1 + "-" + m1 + "-" + d1;
    assert Render(false, y2, m2, d2) == y2 + "-" + m2 + "-" + d2;
  }

  /** The sub-refiner a `DateRefiner` forwards to. */
  datatype Sub = NoSub | RangeSub(range: RangeState) | PointSub(point: JodState)

  /** The fields of a `DateRefiner`. */
  datatype DateState = DateState(attr: string, sub: Sub)

  /**
   * `DateRefiner.refine(choice)`: no choice offers the two methods; `範囲`
   * and `日付指定` replace the sub-refiner; every choice is then forwarded to
   * it (an `AttributeError` when there is none).
   */
  function DateRefine(s: DateState, choice: Option<Candidate>): (DateState, Result<Step>) {
    if choice.None? then (s, Ok(Offer(MethodTitle, [RangeKey, DateKey])))
    else
      var c := choice.value;
      var sub :=
        if c.key == RangeKey then RangeSub(NewRange(s.attr))
        else if c.key == DateKey then PointSub(NewJod(s.attr, true, None))
        else s.sub;
      match sub
      case NoSub => (s, Err(AttributeError))
      case RangeSub(r0) =>
        var (r1, res) := RangeRefine(r0, c);
        (DateState(s.attr, RangeSub(r1)), res)
      case PointSub(p0) =>
        var (p1, res) := JodRefine(p0, c);
        (DateState(s.attr, PointSub(p1)), res)
  }

  /**
   * The method comes first: no choice offers `範囲` and `日付指定`; choosing
   * `日付指定` starts a point refiner that offers the eras, `範囲` a range
   * refiner that offers them under the start title; any other choice goes to
   * the current sub-refiner unchanged.
   */
  lemma DateRefineChains(s: DateState, c: Candidate)
    ensures DateRefine(s, None) == (s, Ok(Offer(MethodTitle, [RangeKey, DateKey])))
    ensures c.key == DateKey ==>
      DateRefine(s, Some(c)) == (DateState(s.attr, PointSub(NewJod(s.attr, true, None))), Ok(Offer(EraTitle, Eras)))
    ensures c.key == RangeKey ==>
      DateRefine(s, Some(c)).1 == Ok(Offer(StartPrefix + EraTitle, Eras))
      && DateRefine(s, Some(c)).0.sub.RangeSub?
    ensures c.key != DateKey && c.key != RangeKey && s.sub.PointSub? ==>
      DateRefine(s, Some(c)) == (DateState(s.attr, PointSub(JodRefine(s.sub.point, c).0)), JodRefine(s.sub.point, c).1)
    ensures c.key != DateKey && c.key != RangeKey && s.sub.RangeSub? ==>
      DateRefine(s, Some(c)) == (DateState(s.attr, RangeSub(RangeRefine(s.sub.range, c).0)), RangeRefine(s.sub.range, c).1)
    ensures c.key != DateKey && c.key != RangeKey && s.sub.NoSub? ==> DateRefine(s, Some(c)) == (s, Err(AttributeError))
  {
  }
}
