/**
 * The date refiners of show_a_table/model/refiner/date.py as objects whose
 * fields `refine` updates in place. Each `Refine` is proved to follow the
 * step function of the same refiner in `DateSteps`, where its properties are
 * proved.
 */
module DateRefiners {
  import opened Base
  import opened Py
  import opened DateExam
  import opened Refiner
  import opened DateSteps

  /** `JustOneDateRefiner`: year, month, day and era filled in one per call. */
  class JustOneDateRefiner {
    const attr: string
    const start: Option<seq<Option<int>>>
    const canbce: bool
    var year: string
    var month: string
    var day: string
    const last: string  // `_last`: set once to `""` and never read
    const solo: bool
    var bce: bool

    function State(): JodState
      reads this
    {
      JodState(attr, start, canbce, year, month, day, last, solo, bce)
    }

    /** `JustOneDateRefiner(attr_name, solo, start)` */
    constructor(attr: string, solo: bool, start: Option<string>)
      ensures State() == NewJod(attr, solo, start)
    {
      this.attr := attr;
      var b := ParseStart(start);
      if b.Some? {
        this.canbce := b.value.canbce;
        this.start := Some(b.value.parts);
      } else {
        this.canbce := false;
        this.start := None;
      }
      year := "";
      month := "";
      day := "";
      last := "";
      this.solo := true;
      bce := false;
    }

    /** `expression()` */
    function Expression(): string
      reads this
    {
      DateSteps.Expression(State())
    }

    /** `refine(choice)` */
    method Refine(choice: Candidate) returns (r: Result<Step>)
      modifies this`year, this`month, this`day, this`bce
      ensures (State(), r) == JodRefine(old(State()), choice)
    {
      var c := choice;
      if c.key == Skip {
        c := MkCandidate(Skip, Some("*"), None);
      }
      if year == "" {
        r := FillYear(c);
      } else if month == "" {
        r := FillMonth(c);
      } else if day == "" {
        r := FillDay(c);
      } else {
        r := Ok(NoStep);
      }
    }

    /** `_year(choice)` */
    method FillYear(c: Candidate) returns (r: Result<Step>)
      modifies this`year, this`bce
      ensures (State(), r) == YearStep(old(State()), c)
    {
      if c.key == DateKey && (!HasStart(start) || canbce) {
        r := Ok(Offer(EraTitle, Eras));
      } else if c.key == BceKey {
        bce := true;
        if HasStart(start) && Truthy(start.value[0]) {
          r := Ok(Numeric(YearTitle, 1, start.value[0].value, false));
        } else {
          r := Ok(Numeric(YearTitle, 1, 4713, false));
        }
      } else if c.key == CeKey || (c.key == DateKey && !canbce) {
        bce := false;
        if HasStart(start) && Truthy(start.value[0]) {
          r := Ok(Numeric(YearTitle, start.value[0].value, 2030, false));
        } else {
          r := Ok(Numeric(YearTitle, 1, 2030, false));
        }
      } else {
        year := c.ref;
        var lo := MonthLow(start, year);
        if lo.Err? {
          r := Err(lo.error);
        } else {
          r := Ok(Numeric(MonthTitle, lo.value, 12, true));
        }
      }
    }

    /** `_month(choice)`, with the start month compared as text. */
    method FillMonth(c: Candidate) returns (r: Result<Step>)
      modifies this`month
      ensures (State(), r) == MonthStep(old(State()), c)
    {
      month := c.ref;
      var lo := DayLow(start, month);
      if lo.Err? {
        r := Err(lo.error);
      } else {
        r := Ok(Numeric(DayTitle, lo.value, 31, true));
      }
    }

    /** `_day(choice)` */
    method FillDay(c: Candidate) returns (r: Result<Step>)
      modifies this`day
      ensures (State(), r) == DayStep(old(State()), c)
    {
      day := c.ref;
      if solo {
        r := Ok(Final(MkQuery(PointExam(year, month, day), AttrQuestion(attr), None)));
      } else {
        r := Ok(Final(MkQuery(NeverPasses, NoQuestion, None)));
      }
    }
  }

  /** `DateRangeRefiner`: a start refiner, then an end refiner bounded by the start. */
  class DateRangeRefiner {
    const attr: string
    var start: StartSlot
    var sref: JustOneDateRefiner?
    var end: Option<string>  // `_end`: `_mk_exam` reads it right after it is set, so the exam takes the value directly
    var eref: JustOneDateRefiner?

    ghost predicate Valid()
      reads this
    {
      sref != null && eref != null ==> sref != eref
    }

    function State(): RangeState
      reads this, sref, eref
    {
      RangeState(attr, start,
        if sref == null then None else Some(sref.State()),
        end,
        if eref == null then None else Some(eref.State()))
    }

    /** `DateRangeRefiner(attr_name)` */
    constructor(attr: string)
      ensures Valid() && sref == null && eref == null
      ensures State() == NewRange(attr)
    {
      this.attr := attr;
      start := NoStart;
      sref := null;
      end := None;
      eref := null;
    }

    /** `refine(choice)` */
    method Refine(c: Candidate) returns (r: Result<Step>)
      requires Valid()
      modifies this, sref, eref
      ensures Valid()
      ensures sref == old(sref) || fresh(sref)
      ensures eref == old(eref) || fresh(eref)
      ensures (State(), r) == RangeRefine(old(State()), c)
    {
      if sref == null {
        sref := new JustOneDateRefiner(attr, false, None);
        var ret := sref.Refine(ChoiceOf(DateKey));
        r := Prefixed(StartPrefix, ret);
      } else if !SlotTruthy(start) {
        var ret := sref.Refine(c);
        if ret.Ok? && ret.value.Final? {
          var expr := sref.Expression();
          start := StartExpr(expr);
          eref := new JustOneDateRefiner(attr, false, Some(expr));
          var ret2 := eref.Refine(ChoiceOf(DateKey));
          r := Prefixed(EndPrefix, ret2);
        } else {
          r := Prefixed(StartPrefix, ret);
        }
      } else if eref == null {
        r := Err(AttributeError);
      } else {
        var ret := eref.Refine(c);
        if ret.Ok? && ret.value.Final? {
          var endExpr := eref.Expression();
          end := Some(endExpr);
          var exam := BuildExam(endExpr);
          if exam.Err? {
            r := Err(exam.error);
          } else {
            r := Ok(Final(MkQuery(exam.value, AttrQuestion(attr), None)));
          }
        } else {
          r := Prefixed(EndPrefix, ret);
        }
      }
    }

    /** `_mk_exam()`, which overwrites `_start` with each bound it parses. */
    method BuildExam(endExpr: string) returns (exam: Result<ExamCode>)
      modifies this`start
      ensures (start, exam) == MkExam(old(start), endExpr)
    {
      match start
      case StartExpr(st) =>
        start := StartParts(ParseParts(st));
        if StartsWith(st, "BCE") {
          exam := Err(TypeError);
        } else if StartsWith(endExpr, "BCE") {
          start := StartParts(ParseParts(endExpr));
          exam := Err(TypeError);
        } else {
          start := StartParts(ParseParts(endExpr));
          exam := Ok(RangeExam(ParseParts(st), ParseParts(endExpr)));
        }
      case _ =>
        exam := Err(AttributeError);
    }
  }

  /** `DateRefiner._refiner`: none yet, or the sub-refiner the method choice made. */
  datatype SubRefiner = NoRefiner | RangeRefiner(range: DateRangeRefiner) | PointRefiner(point: JustOneDateRefiner)

  /** `DateRefiner`: asks for range or single date, then forwards to that refiner. */
  class DateRefiner {
    const attr: string
    var sub: SubRefiner
    ghost var Repr: set<object>

    ghost predicate Valid()
      reads this, Repr
    {
      && this in Repr
      && match sub
         case NoRefiner => true
         case PointRefiner(p) => p in Repr
         case RangeRefiner(rr) =>
           && rr in Repr && rr.Valid()
           && (rr.sref != null ==> rr.sref in Repr)
           && (rr.eref != null ==> rr.eref in Repr)
    }

    function State(): DateState
      requires Valid()
      reads this, Repr
    {
      DateState(attr,
        match sub
        case NoRefiner => NoSub
        case RangeRefiner(rr) => RangeSub(rr.State())
        case PointRefiner(p) => PointSub(p.State()))
    }

    /** `DateRefiner(attr_name)` */
    constructor(attr: string)
      ensures Valid() && fresh(Repr)
      ensures State() == DateState(attr, NoSub)
    {
      this.attr := attr;
      sub := NoRefiner;
      Repr := {this};
    }

    /** `refine(choice)`; `None` stands for a missing choice. */
    method Refine(choice: Option<Candidate>) returns (r: Result<Step>)
      requires Valid()
      modifies Repr
      ensures Valid() && fresh(Repr - old(Repr))
      ensures (State(), r) == DateRefine(old(State()), choice)
    {
      if choice.None? {
        r := Ok(Offer(MethodTitle, [RangeKey, DateKey]));
        return;
      }
      var c := choice.value;
      if c.key == RangeKey {
        var rr := new DateRangeRefiner(attr);
        sub := RangeRefiner(rr);
        Repr := {this, rr};
      } else if c.key == DateKey {
        var p := new JustOneDateRefiner(attr, true, None);
        sub := PointRefiner(p);
        Repr := {this, p};
      }
      match sub
      case NoRefiner =>
        r := Err(AttributeError);
      case PointRefiner(p) =>
        r := p.Refine(c);
      case RangeRefiner(rr) =>
        r := rr.Refine(c);
        if rr.sref != null {
          Repr := Repr + {rr.sref};
        }
        if rr.eref != null {
          Repr := Repr + {rr.eref};
        }
    }
  }
}
