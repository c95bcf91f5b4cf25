/**
 * The answer predicates of the date refiners (show_a_table/model/refiner/date.py):
 * the point predicate `_solo_exam` over the chosen year, month and day strings,
 * and the range predicate `_mk_exam` over parsed start and end bounds. The
 * answer itself, which the source parses out of free text, is a `Date` input.
 */
module DateExam {
  import opened Base
  import opened Py

  /** A parsed answer `(year, month, day)`. */
  datatype Date = Date(year: int, month: int, day: int)

  predicate IsLeap(y: int) {
    y % 4 == 0 && (y % 100 != 0 || y % 400 == 0)
  }

  function DaysIn(y: int, m: int): int
    requires 1 <= m <= 12
  {
    if m == 2 then (if IsLeap(y) then 29 else 28)
    else if m == 4 || m == 6 || m == 9 || m == 11 then 30
    else 31
  }

  /** What `datetime.date` accepts: years 1 to 9999 of the proleptic Gregorian calendar. */
  predicate ValidDate(y: int, m: int, d: int) {
    1 <= y <= 9999 && 1 <= m <= 12 && 1 <= d <= DaysIn(y, m)
  }

  /** `datetime.date(int(y), int(m), int(d))`, every failure a `ValueError`. */
  function MakeDate(y: string, m: string, d: string): (r: Result<Date>)
    ensures r.Ok? <==>
      ParseInt(y).Ok? && ParseInt(m).Ok? && ParseInt(d).Ok?
      && ValidDate(ParseInt(y).value, ParseInt(m).value, ParseInt(d).value)
    ensures r.Ok? ==> r.value == Date(ParseInt(y).value, ParseInt(m).value, ParseInt(d).value)
    ensures r.Err? ==> r.error == ValueError
  {
    match (ParseInt(y), ParseInt(m), ParseInt(d))
    case (Ok(a), Ok(b), Ok(c)) => if ValidDate(a, b, c) then Ok(Date(a, b, c)) else Err(ValueError)
    case _ => Err(ValueError)
  }

  /** `field == "*" or value == int(field)` */
  function FieldTest(field: string, value: int): Result<bool> {
    if field == "*" then Ok(true)
    else
      match ParseInt(field)
      case Ok(i) => Ok(value == i)
      case Err(e) => Err(e)
  }

  /**
   * `_solo_exam`: with no wildcard, the answer must be the date the three
   * fields name; otherwise each non-wildcard field must match. The three
   * field tests are evaluated eagerly, so a malformed field raises even when
   * an earlier one already failed.
   */
  function PointMatches(y: string, m: string, d: string, date: Date): Result<bool> {
    if y != "*" && m != "*" && d != "*" then
      match MakeDate(y, m, d)
      case Err(e) => Err(e)
      case Ok(p) => Ok(date == p)
    else
      match (FieldTest(y, date.year), FieldTest(m, date.month), FieldTest(d, date.day))
      case (Ok(a), Ok(b), Ok(c)) => Ok(a && b && c)
      case (Err(e), _, _) => Err(e)
      case (_, Err(e), _) => Err(e)
      case (_, _, Err(e)) => Err(e)
  }

  /** A field is resolved to `value`: a wildcard, or an integer equal to it. */
  predicate Resolves(field: string, value: int) {
    field == "*" || ParseInt(field) == Ok(value)
  }

  /**
   * The point predicate accepts exactly when every non-wildcard field equals
   * the answer's field (and, with no wildcard, the answer is a real date);
   * it raises `ValueError` exactly when a non-wildcard field is not an
   * integer or, with no wildcard, the fields name no date.
   */
  lemma PointMatchesIff(y: string, m: string, d: string, date: Date)
    ensures PointMatches(y, m, d, date) == Ok(true) <==>
      Resolves(y, date.year) && Resolves(m, date.month) && Resolves(d, date.day)
      && (y != "*" && m != "*" && d != "*" ==> ValidDate(date.year, date.month, date.day))
    ensures PointMatches(y, m, d, date).Err? <==>
      (y != "*" && ParseInt(y).Err?) || (m != "*" && ParseInt(m).Err?) || (d != "*" && ParseInt(d).Err?)
      || (y != "*" && m != "*" && d != "*" && !ValidDate(ParseInt(y).value, ParseInt(m).value, ParseInt(d).value))
    ensures PointMatches(y, m, d, date).Err? ==> PointMatches(y, m, d, date).error == ValueError
  {
  }

  /** The two cases the source's tests pin: 2020/9/1 and "*"/9/1 both accept 2020-09-01. */
  lemma PointMatchesExamples()
    ensures PointMatches("2020", "9", "1", Date(2020, 9, 1)) == Ok(true)
    ensures PointMatches("*", "9", "1", Date(2020, 9, 1)) == Ok(true)
    ensures PointMatches("2020", "9", "1", Date(2020, 9, 2)) == Ok(false)
  {
    assert DigitsValue("2") == 2;
    assert DigitsValue("20") == 20 by { assert "20"[..1] == "2"; }
    assert DigitsValue("202") == 202 by { assert "202"[..2] == "20"; }
    assert DigitsValue("2020") == 2020 by { assert "2020"[..3] == "202"; }
  }

  /** Python truthiness of an optional integer: `None` and `0` are false. */
  predicate Truthy(o: Option<int>) {
    o.Some? && o.value != 0
  }

  /**
   * `both(idx)`: the field is constrained on both sides. Positions past the
   * end of a bound make the source raise before the predicate is evaluated
   * (see `Refiner.Exam`); here they count as unconstrained.
   */
  predicate Both(s: seq<Option<int>>, e: seq<Option<int>>, idx: nat) {
    idx < |s| && Truthy(s[idx]) && idx < |e| && Truthy(e[idx])
  }

  /** The five comparisons `flgs` computes: strictly between, equal to start, equal to end, at least start, at most end. */
  datatype Flags = Flags(inRange: bool, eqStart: bool, eqEnd: bool, geStart: bool, leEnd: bool)

  const NoFlags := Flags(false, false, false, false, false)

  /** `flgs(idx, item)`: all false unless the field is constrained on both sides. */
  function Flgs(s: seq<Option<int>>, e: seq<Option<int>>, idx: nat, item: int): (f: Flags) {
    if !Both(s, e, idx) then NoFlags
    else
      var lo := s[idx].value;
      var hi := e[idx].value;
      Flags(lo < item < hi, lo == item, hi == item, lo <= item, hi >= item)
  }

  /** The month-and-day disjunction used both under an equal year and on its own. */
  predicate MonthDayWithin(m: Flags, d: Flags) {
    || m.inRange
    || (m.eqStart && m.leEnd && d.geStart)
    || (m.eqStart && m.eqEnd && d.inRange)
    || (m.geStart && m.eqEnd && d.leEnd)
  }

  /** `exam` of `_mk_exam`: the disjunction of a year clause, a month clause and a day clause. */
  predicate RangeMatches(s: seq<Option<int>>, e: seq<Option<int>>, date: Date) {
    var y := Flgs(s, e, 0, date.year);
    var m := Flgs(s, e, 1, date.month);
    var d := Flgs(s, e, 2, date.day);
    || (Both(s, e, 0) &&
        (|| y.inRange
         || (y.eqStart && y.leEnd &&
             (m.geStart || (m.eqStart && m.eqEnd && d.inRange) || (m.eqStart && m.leEnd && d.geStart)))
         || (y.geStart && y.eqEnd &&
             (m.leEnd || (m.eqStart && m.eqEnd && d.inRange) || (m.geStart && m.eqEnd && d.leEnd)))
         || (y.eqStart && y.eqEnd && MonthDayWithin(m, d))))
    || (Both(s, e, 1) && MonthDayWithin(m, d))
    || (Both(s, e, 2) && d.inRange)
  }

  /** Every disjunct is gated by `both`: with no field bounded on both sides nothing passes. */
  lemma RangeUnboundedRejects(s: seq<Option<int>>, e: seq<Option<int>>, date: Date)
    requires !Both(s, e, 0) && !Both(s, e, 1) && !Both(s, e, 2)
    ensures !RangeMatches(s, e, date)
  {
  }

  /** With both year bounds, any year strictly between them passes. */
  lemma RangeYearBetween(s: seq<Option<int>>, e: seq<Option<int>>, date: Date)
    requires Both(s, e, 0) && s[0].value < date.year < e[0].value
    ensures RangeMatches(s, e, date)
  {
  }

  /** With both month bounds, any month strictly between them passes, whatever the year. */
  lemma RangeMonthBetween(s: seq<Option<int>>, e: seq<Option<int>>, date: Date)
    requires Both(s, e, 1) && s[1].value < date.month < e[1].value
    ensures RangeMatches(s, e, date)
  {
  }

  /** Bounded on year alone, the predicate is the open interval of years. */
  lemma RangeYearOnly(s: seq<Option<int>>, e: seq<Option<int>>, date: Date)
    requires Both(s, e, 0) && !Both(s, e, 1) && !Both(s, e, 2)
    ensures RangeMatches(s, e, date) <==> s[0].value < date.year < e[0].value
  {
  }

  /** Bounded on day alone, the predicate is the open interval of days. */
  lemma RangeDayOnly(s: seq<Option<int>>, e: seq<Option<int>>, date: Date)
    requires !Both(s, e, 0) && !Both(s, e, 1) && Both(s, e, 2)
    ensures RangeMatches(s, e, date) <==> s[2].value < date.day < e[2].value
  {
  }

  /** `(y1, m1, d1) <= (y2, m2, d2)` in calendar order. */
  predicate NotAfter(y1: int, m1: int, d1: int, y2: int, m2: int, d2: int) {
    y1 < y2 || (y1 == y2 && (m1 < m2 || (m1 == m2 && d1 <= d2)))
  }

  /** With all six bounds set, every date from start to end inclusive passes. */
  lemma RangeComplete(s: seq<Option<int>>, e: seq<Option<int>>, date: Date)
    requires Both(s, e, 0) && Both(s, e, 1) && Both(s, e, 2)
    requires NotAfter(s[0].value, s[1].value, s[2].value, date.year, date.month, date.day)
    requires NotAfter(date.year, date.month, date.day, e[0].value, e[1].value, e[2].value)
    ensures RangeMatches(s, e, date)
  {
  }

  function Bound(y: int, m: int, d: int): seq<Option<int>> {
    [Some(y), Some(m), Some(d)]
  }

  /**
   * The predicate is permissive: a month strictly between the bounds passes
   * in a year outside them, and the day is not checked once the start year
   * and month are matched.
   */
  lemma RangePermissiveExamples()
    ensures RangeMatches(Bound(2020, 1, 1), Bound(2020, 12, 31), Date(2019, 6, 15))
    ensures RangeMatches(Bound(2020, 6, 15), Bound(2020, 12, 31), Date(2020, 6, 1))
    ensures !RangeMatches(Bound(2020, 3, 10), Bound(2020, 5, 20), Date(2021, 7, 1))
  {
  }

  /** The bounds of one whole year accept every day of every year. */
  lemma RangeWholeYearAcceptsAll(y1: int, y2: int, date: Date)
    requires y1 != 0 && y2 != 0
    requires 1 <= date.month <= 12 && 1 <= date.day <= 31
    ensures RangeMatches(Bound(y1, 1, 1), Bound(y2, 12, 31), date)
  {
  }
}
