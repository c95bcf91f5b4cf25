/**
 * The table-driven single-date refiner of show_a_table/refiner/model/date.py.
 * Its lookup tables are the parsed `date.toml`, here a constructor argument:
 * per section (`year`, `month`, `day`) a map from table names to lists of
 * choice strings. A call answers `(False, options)` while the date is
 * incomplete and `[True, ["y-m-d"]]` once it is complete.
 */
module LegacyDate {
  import opened Base
  import opened Py

  type Tables = map<string, map<string, seq<string>>>

  /** What `refine` returns: `(False, options)`, `[True, [expr]]`, or `None`. */
  datatype Answer = Pending(options: seq<string>) | Complete(exprs: seq<string>) | NoAnswer

  /** The fields of the refiner. */
  datatype LegacyState = LegacyState(year: string, month: string, day: string, last: string)

  const Fresh := LegacyState("", "", "", "")
  const Meaningless := "MEANINGLESS VALUE"

  /** `table[name]` on a table of the configuration, a `KeyError` when missing. */
  function Lookup<V>(table: map<string, V>, name: string): (r: Result<V>)
    ensures r.Ok? <==> name in table
    ensures r.Ok? ==> r.value == table[name]
    ensures r.Err? ==> r.error == KeyError
  {
    if name in table then Ok(table[name]) else Err(KeyError)
  }

  /** `(False, data[sec][name])` */
  function Offer(data: Tables, sec: string, name: string): Result<Answer> {
    match Lookup(data, sec)
    case Err(e) => Err(e)
    case Ok(t) =>
      match Lookup(t, name)
      case Err(e) => Err(e)
      case Ok(o) => Ok(Pending(o))
  }

  /** `f"{year}-{month}-{day}"` */
  function Expr(s: LegacyState): string {
    s.year + "-" + s.month + "-" + s.day
  }

  /** `[str(y) for y in range(n - 25 + 1, n + 1, 1)]` */
  function YearsUpTo(n: int): (ys: seq<string>)
    ensures |ys| == 25
  {
    seq(25, i requires 0 <= i < 25 => IntToString(n - 24 + i))
  }

  /** `_year(choice)` */
  function YearStage(data: Tables, s: LegacyState, choice: string): (LegacyState, Result<Answer>) {
    match Lookup(data, "year")
    case Err(e) => (s, Err(e))
    case Ok(yd) =>
      var s1 := s.(last := choice);
      if s.last == "" then
        (s.(last := Meaningless), Offer(data, "year", "origin"))
      else if "origin" !in yd then (s1, Err(KeyError))
      else if choice in yd["origin"] then
        if choice == "SKIP" then (s1.(last := "", year := "*"), Offer(data, "month", "origin"))
        else if choice == "BCE" then (s1, Offer(data, "year", "bce"))
        else
          match IndexOf(yd["origin"], choice)
          case Err(e) => (s1, Err(e))
          case Ok(idx) => (s1, Offer(data, "year", "y" + IntToString(idx - 1)))
      else if "bce" !in yd then (s1, Err(KeyError))
      else if choice in yd["bce"] then (s1, Ok(NoAnswer))
      else if StartsWith(choice, "-") then
        match ParseInt(choice[1..])
        case Err(e) => (s1, Err(e))
        case Ok(n) => (s1, Ok(Pending(YearsUpTo(n))))
      else (s1.(last := "", year := choice), Offer(data, "month", "origin"))
  }

  /** `_month(choice)` */
  function MonthStage(data: Tables, s: LegacyState, choice: string): (LegacyState, Result<Answer>) {
    (s.(month := choice), Offer(data, "day", "origin"))
  }

  /** `_day(choice)` */
  function DayStage(data: Tables, s: LegacyState, choice: string): (LegacyState, Result<Answer>) {
    match Lookup(data, "day")
    case Err(e) => (s, Err(e))
    case Ok(dd) =>
      if '-' in choice then
        match Lookup(dd, "origin")
        case Err(e) => (s, Err(e))
        case Ok(o) =>
          match IndexOf(o, choice)
          case Err(e) => (s, Err(e))
          case Ok(idx) => (s, Offer(data, "day", "d" + IntToString(idx)))
      else
        var s1 := s.(day := choice);
        (s1, Ok(Complete([Expr(s1)])))
  }

  /** `refine(choice)`: fill the first empty of year, month, day; a complete date is answered again. */
  function LegacyRefine(data: Tables, s: LegacyState, choice: string): (LegacyState, Result<Answer>) {
    if s.year == "" then YearStage(data, s, choice)
    else if s.month == "" then MonthStage(data, s, choice)
    else if s.day == "" then DayStage(data, s, choice)
    else (s, Ok(Complete([Expr(s)])))
  }

  /** The first year-stage call offers the year origin and leaves a non-empty sentinel in `_last`. */
  lemma LegacyFirstCall(data: Tables, s: LegacyState, choice: string)
    requires s.year == "" && s.last == ""
    requires "year" in data && "origin" in data["year"]
    ensures LegacyRefine(data, s, choice) == (s.(last := Meaningless), Ok(Pending(data["year"]["origin"])))
    ensures LegacyRefine(data, s, choice).0.last != ""
  {
  }

  /** `SKIP` from the origin list stores the wildcard year, clears `_last` and offers the month origin. */
  lemma LegacySkip(data: Tables, s: LegacyState)
    requires s.year == "" && s.last != ""
    requires "year" in data && "origin" in data["year"] && "SKIP" in data["year"]["origin"]
    requires "month" in data && "origin" in data["month"]
    ensures LegacyRefine(data, s, "SKIP") == (s.(year := "*", last := ""), Ok(Pending(data["month"]["origin"])))
  {
  }

  /** Any other origin choice at position `idx` (its first) offers the table `y{idx-1}`. */
  lemma LegacyOriginIndex(data: Tables, s: LegacyState, choice: string, idx: nat)
    requires s.year == "" && s.last != "" && choice != "SKIP" && choice != "BCE"
    requires "year" in data && "origin" in data["year"]
    requires var o := data["year"]["origin"]; idx < |o| && o[idx] == choice && choice !in o[..idx]
    ensures LegacyRefine(data, s, choice) == (s.(last := choice), Offer(data, "year", "y" + IntToString(idx - 1)))
  {
  }

  /**
   * A choice `"-N"` outside both lists offers the 25 years ending with `N`,
   * ascending by one: each entry is the decimal text of `N - 24 + i`, and
   * parses back to it.
   */
  lemma LegacyYearsBack(data: Tables, s: LegacyState, choice: string, n: int)
    requires s.year == "" && s.last != ""
    requires "year" in data && "origin" in data["year"] && "bce" in data["year"]
    requires choice !in data["year"]["origin"] && choice !in data["year"]["bce"]
    requires StartsWith(choice, "-") && ParseInt(choice[1..]) == Ok(n)
    ensures var (s1, r) := LegacyRefine(data, s, choice);
      && s1 == s.(last := choice)
      && r.Ok? && r.value.Pending? && |r.value.options| == 25
      && (forall i :: 0 <= i < 25 ==> ParseInt(r.value.options[i]) == Ok(n - 24 + i))
      && r.value.options[24] == IntToString(n)
  {
    forall i | 0 <= i < 25 ensures ParseInt(YearsUpTo(n)[i]) == Ok(n - 24 + i) {
      ParseIntOfIntToString(n - 24 + i);
    }
  }

  /** A year choice in no list stores the year and offers the month origin; a month choice stores the month and offers the day origin. */
  lemma LegacyYearThenMonth(data: Tables, s: LegacyState, y: string, m: string)
    requires s.year == "" && s.last != "" && y != ""
    requires "year" in data && "origin" in data["year"] && "bce" in data["year"]
    requires y !in data["year"]["origin"] && y !in data["year"]["bce"] && !StartsWith(y, "-")
    requires "month" in data && "origin" in data["month"] && "day" in data && "origin" in data["day"]
    ensures LegacyRefine(data, s, y) == (s.(year := y, last := ""), Ok(Pending(data["month"]["origin"])))
    ensures s.month == "" ==>
      LegacyRefine(data, s.(year := y, last := ""), m) == (s.(year := y, last := "", month := m), Ok(Pending(data["day"]["origin"])))
  {
  }

  /**
   * A day choice with a dash offers the day table of its (first) position in
   * the day origin, or raises `ValueError` when it is not there; any other
   * day choice completes the date.
   */
  lemma LegacyDay(data: Tables, s: LegacyState, choice: string)
    requires s.year != "" && s.month != "" && s.day == ""
    requires "day" in data && "origin" in data["day"]
    ensures var (s1, r) := LegacyRefine(data, s, choice);
      var o := data["day"]["origin"];
      && ('-' in choice && choice !in o ==> s1 == s && r == Err(ValueError))
      && ('-' in choice && choice in o ==>
            exists idx :: 0 <= idx < |o| && o[idx] == choice && choice !in o[..idx]
              && s1 == s && r == Offer(data, "day", "d" + IntToString(idx)))
      && ('-' !in choice ==>
            && s1 == s.(day := choice)
            && r == Ok(Complete([s.year + "-" + s.month + "-" + choice])))
  {
    var o := data["day"]["origin"];
    if '-' in choice && choice in o {
      var idx := IndexOf(o, choice).value;
      assert o[idx] == choice && choice !in o[..idx];
    }
  }

  /** Once the date is complete, `refine` answers it again and changes nothing. */
  lemma LegacyDone(data: Tables, s: LegacyState, choice: string)
    requires s.year != "" && s.month != "" && s.day != ""
    ensures LegacyRefine(data, s, choice) == (s, Ok(Complete([Expr(s)])))
  {
  }

  /** The source's test: year 2020, month 9; `"1-10"` (first in the day origin) offers `d0`, then `"1"` gives `"2020-9-1"`. */
  lemma LegacyTestExample(data: Tables, last: string)
    requires "day" in data && "origin" in data["day"] && "d0" in data["day"]
    requires |data["day"]["origin"]| > 0 && data["day"]["origin"][0] == "1-10"
    ensures var s := LegacyState("2020", "9", "", last);
      && LegacyRefine(data, s, "1-10") == (s, Ok(Pending(data["day"]["d0"])))
      && LegacyRefine(data, s, "1") == (s.(day := "1"), Ok(Complete(["2020-9-1"])))
  {
    assert '-' in "1-10" by { assert "1-10"[1] == '-'; }
    assert '-' !in "1";
    assert IntToString(0) == "0" by { assert DigitChar(0) == '0'; }
    assert "d" + IntToString(0) == "d0";
    var s := LegacyState("2020", "9", "", last);
    assert Expr(s.(day := "1")) == "2020-9-1";
  }

  /** `JustOneDateRefiner` of the legacy package. */
  class LegacyJustOneDateRefiner {
    const data: Tables
    var year: string
    var month: string
    var day: string
    var last: string

    function State(): LegacyState
      reads this
    {
      LegacyState(year, month, day, last)
    }

    /** `JustOneDateRefiner(data, start)`: the start bound is not used. */
    constructor(data: Tables, start: Option<string>)
      ensures this.data == data && State() == Fresh
    {
      this.data := data;
      year := "";
      month := "";
      day := "";
      last := "";
    }

    /** `refine(choice)` */
    method Refine(choice: string) returns (r: Result<Answer>)
      modifies this`year, this`month, this`day, this`last
      ensures (State(), r) == LegacyRefine(data, old(State()), choice)
    {
      if year == "" {
        r := Year(choice);
      } else if month == "" {
        month := choice;
        r := Offer(data, "day", "origin");
      } else if day == "" {
        r := Day(choice);
      } else {
        r := Ok(Complete([year + "-" + month + "-" + day]));
      }
    }

    /** `_year(choice)`, which records the choice in `_last` before branching. */
    method Year(choice: string) returns (r: Result<Answer>)
      requires year == ""
      modifies this`year, this`last
      ensures (State(), r) == YearStage(data, old(State()), choice)
    {
      if "year" !in data {
        return Err(KeyError);
      }
      var yd := data["year"];
      var prev := last;
      last := choice;
      if prev == "" {
        last := Meaningless;
        r := Offer(data, "year", "origin");
      } else if "origin" !in yd {
        r := Err(KeyError);
      } else if choice in yd["origin"] {
        if choice == "SKIP" {
          last := "";
          year := "*";
          r := Offer(data, "month", "origin");
        } else if choice == "BCE" {
          r := Offer(data, "year", "bce");
        } else {
          match IndexOf(yd["origin"], choice)
          case Ok(idx) =>
            r := Offer(data, "year", "y" + IntToString(idx - 1));
          case Err(e) =>
            r := Err(e);
        }
      } else if "bce" !in yd {
        r := Err(KeyError);
      } else if choice in yd["bce"] {
        r := Ok(NoAnswer);
      } else if StartsWith(choice, "-") {
        var n := ParseInt(choice[1..]);
        if n.Err? {
          r := Err(n.error);
        } else {
          var ys: seq<string> := [];
          var y := n.value - 24;
          while y <= n.value
            invariant n.value - 24 <= y <= n.value + 1
            invariant ys == YearsUpTo(n.value)[..y - (n.value - 24)]
          {
            ys := ys + [IntToString(y)];
            y := y + 1;
          }
          assert ys == YearsUpTo(n.value);
          r := Ok(Pending(ys));
        }
      } else {
        last := "";
        year := choice;
        r := Offer(data, "month", "origin");
      }
    }

    /** `_day(choice)` */
    method Day(choice: string) returns (r: Result<Answer>)
      requires year != "" && month != "" && day == ""
      modifies this`day
      ensures (State(), r) == DayStage(data, old(State()), choice)
    {
      if "day" !in data {
        return Err(KeyError);
      }
      var dd := data["day"];
      if '-' in choice {
        if "origin" !in dd {
          return Err(KeyError);
        }
        var idx := IndexOf(dd["origin"], choice);
        if idx.Err? {
          r := Err(idx.error);
        } else {
          r := Offer(data, "day", "d" + IntToString(idx.value));
        }
      } else {
        day := choice;
        r := Ok(Complete([year + "-" + month + "-" + day]));
      }
    }
  }
}
