/**
 * The class-based recurrence generation: the abstract `Recurrence` of
 * src/app/js/main/schedule/recurrence/index.ts with its three subclasses `RecurrenceDaily`,
 * `RecurrenceWeekly` and `RecurrenceMonthly` (daily.ts, weekly.ts, monthly.ts). The objects are
 * never changed after construction, so the class hierarchy is a sum type and each subclass
 * constructor a function that fills the shared fields.
 */
module RecurrenceClasses {
  import opened Wrappers
  import opened Text
  import opened Calendar
  import opened GaroonEvent
  import opened RecurrenceRules

  /** The fields of the abstract base class. */
  datatype Core = Core(
    pattern: Pattern,
    until: Moment,
    exclusiveDates: seq<Moment>,
    interval: Option<int>,
    count: Option<int>)

  /**
   * The three subclasses. `RecurrenceMonthly.ordinal` is the source's `[n, weekday]` field
   * `byday`; `bymonthday` holds the `day` attribute as it arrived.
   */
  datatype Recurrence =
    | RecurrenceDaily(core: Core)
    | RecurrenceWeekly(core: Core, byday: seq<Weekday>)
    | RecurrenceMonthly(core: Core, ordinal: Option<(int, Weekday)>, bymonthday: Option<Scalar>)

  /** What every subclass constructor establishes: the stored pattern is the subclass's own, and no interval or count. */
  predicate Valid(r: Recurrence) {
    r.core.interval.None? && r.core.count.None?
    && match r
       case RecurrenceDaily(c) => c.pattern == Daily
       case RecurrenceWeekly(c, _) => c.pattern == Weekly
       case RecurrenceMonthly(c, _, _) => c.pattern == Monthly
  }

  /** `new RecurrenceDaily(until, exclusiveDates)`. */
  function NewDaily(until: Moment, exclusiveDates: seq<Moment>): (r: Recurrence)
    ensures Valid(r) && r.RecurrenceDaily?
    ensures r.core.until == until && r.core.exclusiveDates == exclusiveDates
  {
    RecurrenceDaily(Core(Daily, until, exclusiveDates, None, None))
  }

  /** `new RecurrenceWeekly(until, exclusiveDates, byday)`: `byday` is mandatory. */
  function NewWeekly(until: Moment, exclusiveDates: seq<Moment>, byday: seq<Weekday>): (r: Recurrence)
    ensures Valid(r) && r.RecurrenceWeekly?
    ensures r.core.until == until && r.core.exclusiveDates == exclusiveDates && r.byday == byday
  {
    RecurrenceWeekly(Core(Weekly, until, exclusiveDates, None, None), byday)
  }

  /** `new RecurrenceMonthly(until, exclusiveDates, byday?, bymonthday?)`: either, both or neither may be given. */
  function NewMonthly(until: Moment, exclusiveDates: seq<Moment>, ordinal: Option<(int, Weekday)>, bymonthday: Option<Scalar>): (r: Recurrence)
    ensures Valid(r) && r.RecurrenceMonthly?
    ensures r.core.until == until && r.core.exclusiveDates == exclusiveDates
    ensures r.ordinal == ordinal && r.bymonthday == bymonthday
  {
    RecurrenceMonthly(Core(Monthly, until, exclusiveDates, None, None), ordinal, bymonthday)
  }

  /* ---------- factory ---------- */

  /**
   * `recurrenceWeeklyPatternFromWeekday`: a strict-equality switch on the numbers 0..6. A
   * weekday that arrives as a string matches no case and throws.
   */
  function WeekdayFromNumber(day: Scalar): (r: Result<Weekday, ParseError>)
    ensures r.Success? <==> day.Num? && 0 <= day.n <= 6
    ensures r.Success? ==> WeekdayNumber(r.value) == day.n
    ensures r.Failure? ==> r.error == InvalidWeekday(day.ToText())
  {
    if day == Num(0) then Success(Sunday)
    else if day == Num(1) then Success(Monday)
    else if day == Num(2) then Success(Tuesday)
    else if day == Num(3) then Success(Wednesday)
    else if day == Num(4) then Success(Thursday)
    else if day == Num(5) then Success(Friday)
    else if day == Num(6) then Success(Saturday)
    else Failure(InvalidWeekday(day.ToText()))
  }

  /** The `switch` on the type code, once `until` and the exclusions are known. */
  function ConstructOf(c: Condition, until: Moment, dates: seq<Moment>): Result<Recurrence, ParseError> {
    if c.kind == "day" then Success(NewDaily(until, dates))
    else if c.kind == "weekday" then Success(NewWeekly(until, dates, WorkingDays))
    else if c.kind == "week" then
      if Present(c.week) then
        var w :- WeekdayFromNumber(c.week.value);
        Success(NewWeekly(until, dates, [w]))
      else Failure(UnsupportedRecurrence)
    else if OrdinalOf(c.kind).Some? then
      if Present(c.week) then
        var w :- WeekdayFromNumber(c.week.value);
        Success(NewMonthly(until, dates, Some((OrdinalOf(c.kind).value, w)), None))
      else Failure(UnsupportedRecurrence)
    else if c.kind == "month" then
      if Present(c.day) then Success(NewMonthly(until, dates, None, c.day)) else Failure(UnsupportedRecurrence)
    else Failure(UnsupportedRecurrence)
  }

  /** Specification of `Recurrence.recurrenceFromRepeatInfo`. */
  function RecurrenceOf(info: RepeatInfo, zone: string, db: TimeZoneDb): (r: Result<Recurrence, ParseError>)
    ensures info.condition.endDate.None? ==> r == Failure(MissingRecurrenceEnd)
    ensures info.condition.endDate.Some? && PatternOfKind(info.condition.kind).None? ==> r == Failure(UnsupportedRecurrence)
    ensures r.Success? ==> Valid(r.value) && PatternOfKind(info.condition.kind) == Some(r.value.core.pattern)
    ensures r.Success? ==> Success(r.value.core.until) == UntilOf(info.condition, zone)
    ensures r.Success? ==> r.value.core.exclusiveDates == ExclusionDates(info, zone, db)
  {
    var until :- UntilOf(info.condition, zone);
    ConstructOf(info.condition, until, ExclusionDates(info, zone, db))
  }

  /** A numeric weekday of 0 is falsy and rejected as unsupported; a weekday given as text is rejected as invalid. */
  lemma WeekdayCodes(info: RepeatInfo, zone: string, db: TimeZoneDb)
    requires info.condition.endDate.Some?
    requires info.condition.kind == "week" || OrdinalOf(info.condition.kind).Some?
    ensures info.condition.week == Some(Num(0)) ==> RecurrenceOf(info, zone, db) == Failure(UnsupportedRecurrence)
    ensures info.condition.week.Some? && info.condition.week.value.Str? && info.condition.week.value.s != "" ==>
      RecurrenceOf(info, zone, db) == Failure(InvalidWeekday(info.condition.week.value.s))
    ensures (exists n :: 1 <= n <= 6 && info.condition.week == Some(Num(n))) ==> RecurrenceOf(info, zone, db).Success?
  {
  }

  /** `Recurrence.recurrenceFromRepeatInfo`. */
  method RecurrenceFromRepeatInfo(info: RepeatInfo, zone: string, db: TimeZoneDb) returns (r: Result<Recurrence, ParseError>)
    ensures r == RecurrenceOf(info, zone, db)
  {
    var c := info.condition;
    var until: Moment;
    var exclusiveDates: seq<Moment> := [];
    if c.endDate.Some? {
      if c.endTime.Some? {
        until := At(c.endDate.value, c.endTime.value, zone);
      } else {
        until := StartOfDay(c.endDate.value, zone);
      }
    } else {
      return Failure(MissingRecurrenceEnd);
    }
    if info.exclusions.Some? {
      exclusiveDates := LocalizeAll(db, Items(info.exclusions.value), zone);
    }
    if c.kind == "day" {
      return Success(NewDaily(until, exclusiveDates));
    } else if c.kind == "weekday" {
      return Success(NewWeekly(until, exclusiveDates, WorkingDays));
    } else if c.kind == "week" {
      if Present(c.week) {
        var w := WeekdayFromNumber(c.week.value);
        if w.Failure? {
          return Failure(w.error);
        }
        return Success(NewWeekly(until, exclusiveDates, [w.value]));
      }
    } else if OrdinalOf(c.kind).Some? {
      if Present(c.week) {
        var w := WeekdayFromNumber(c.week.value);
        if w.Failure? {
          return Failure(w.error);
        }
        return Success(NewMonthly(until, exclusiveDates, Some((OrdinalOf(c.kind).value, w.value)), None));
      }
    } else if c.kind == "month" {
      if Present(c.day) {
        return Success(NewMonthly(until, exclusiveDates, None, c.day));
      }
    }
    return Failure(UnsupportedRecurrence);
  }

  /* ---------- generator ---------- */

  /** The BYDAY part: always for a weekly recurrence, the ordinal or else the month-day for a monthly one. */
  function ByDayParts(r: Recurrence): seq<RulePart> {
    match r
    case RecurrenceDaily(_) => []
    case RecurrenceWeekly(_, byday) => [RulePart(ByDay, WeekdaysValue(byday))]
    case RecurrenceMonthly(_, ordinal, bymonthday) =>
      if ordinal.Some? then [RulePart(ByDay, OrdinalValue(ordinal.value))]
      else if Present(bymonthday) then [RulePart(ByDay, bymonthday.value.ToText())]
      else []
  }

  function RuleParts(r: Recurrence): seq<RulePart> {
    Assemble(r.core.pattern, r.core.count, Some(r.core.until), r.core.interval, ByDayParts(r))
  }

  /** Specification of `googleRecurrenceFromRecurrence`. */
  function GoogleRecurrenceOf(r: Recurrence, start: DateTime): seq<string> {
    [RuleLine(RuleParts(r))] + ExdatesWithZone(start, r.core.exclusiveDates)
  }

  /** The RRULE parts come in canonical order, FREQ first, and never hold both COUNT and UNTIL. */
  lemma RuleLineWellOrdered(r: Recurrence)
    ensures WellOrdered(RuleParts(r))
  {
    AssembleWellOrdered(r.core.pattern, r.core.count, Some(r.core.until), r.core.interval, ByDayParts(r));
  }

  /** One RRULE line, then one EXDATE line (with TZID) per exclusion, in order. */
  lemma GoogleRecurrenceLines(r: Recurrence, start: DateTime)
    ensures |GoogleRecurrenceOf(r, start)| == 1 + |r.core.exclusiveDates|
    ensures GoogleRecurrenceOf(r, start)[0] == RuleLine(RuleParts(r))
    ensures forall i :: 0 <= i < |r.core.exclusiveDates| ==>
      GoogleRecurrenceOf(r, start)[1 + i] == ExdateWithZone(start, r.core.exclusiveDates[i])
  {
    HeadThenExdates(RuleLine(RuleParts(r)), start, r.core.exclusiveDates);
  }

  /** A daily recurrence yields FREQ and UNTIL only. */
  lemma DailyRule(until: Moment, exclusiveDates: seq<Moment>)
    ensures RuleParts(NewDaily(until, exclusiveDates)) == [RulePart(Freq, "DAILY"), RulePart(Until, CompactDate(until))]
  {
  }

  /** A weekly recurrence yields FREQ, UNTIL and its weekdays, in the order given. */
  lemma WeeklyRule(until: Moment, exclusiveDates: seq<Moment>, byday: seq<Weekday>)
    ensures RuleParts(NewWeekly(until, exclusiveDates, byday)) ==
      [RulePart(Freq, "WEEKLY"), RulePart(Until, CompactDate(until)), RulePart(ByDay, Join(Codes(byday), ","))]
  {
  }

  /** A monthly recurrence prefers its ordinal over its month-day, and has no BYDAY part when it has neither. */
  lemma MonthlyRule(until: Moment, exclusiveDates: seq<Moment>, ordinal: Option<(int, Weekday)>, bymonthday: Option<Scalar>)
    ensures var parts := RuleParts(NewMonthly(until, exclusiveDates, ordinal, bymonthday));
      parts[..2] == [RulePart(Freq, "MONTHLY"), RulePart(Until, CompactDate(until))]
      && (ordinal.Some? ==> parts[2..] == [RulePart(ByDay, IntToString(ordinal.value.0) + ordinal.value.1.Code())])
      && (ordinal.None? && Present(bymonthday) ==> parts[2..] == [RulePart(ByDay, bymonthday.value.ToText())])
      && (ordinal.None? && !Present(bymonthday) ==> |parts| == 2)
  {
  }

  /** The first half of `googleRecurrenceFromRecurrence`: pushes the RRULE parts one by one. */
  method PushRuleParts(r: Recurrence) returns (rrules: seq<string>)
    ensures rrules == Renders(RuleParts(r))
  {
    rrules := ["RRULE:FREQ=" + r.core.pattern.Name()];
    ghost var parts := [FreqPart(r.core.pattern)];
    assert "RRULE:FREQ" + "=" == "RRULE:FREQ=";
    assert rrules == Renders(parts);
    if Set(r.core.count) {
      PushPart(rrules, parts, "COUNT=", Count, IntToString(r.core.count.value));
      rrules := rrules + ["COUNT=" + IntToString(r.core.count.value)];
      parts := parts + [RulePart(Count, IntToString(r.core.count.value))];
    } else {
      PushPart(rrules, parts, "UNTIL=", Until, CompactDate(r.core.until));
      rrules := rrules + ["UNTIL=" + CompactDate(r.core.until)];
      parts := parts + [RulePart(Until, CompactDate(r.core.until))];
    }
    assert parts == [FreqPart(r.core.pattern)] + TermParts(r.core.count, Some(r.core.until));
    if Set(r.core.interval) {
      PushPart(rrules, parts, "INTERVAL=", Interval, IntToString(r.core.interval.value));
      rrules := rrules + ["INTERVAL=" + IntToString(r.core.interval.value)];
      parts := parts + [RulePart(Interval, IntToString(r.core.interval.value))];
    }
    assert parts == [FreqPart(r.core.pattern)] + TermParts(r.core.count, Some(r.core.until)) + IntervalParts(r.core.interval);
    ghost var prefix := parts;
    if r.RecurrenceWeekly? {
      PushPart(rrules, parts, "BYDAY=", ByDay, WeekdaysValue(r.byday));
      rrules := rrules + ["BYDAY=" + WeekdaysValue(r.byday)];
      parts := parts + [RulePart(ByDay, WeekdaysValue(r.byday))];
    } else if r.RecurrenceMonthly? {
      if r.ordinal.Some? {
        PushPart(rrules, parts, "BYDAY=", ByDay, OrdinalValue(r.ordinal.value));
        rrules := rrules + ["BYDAY=" + OrdinalValue(r.ordinal.value)];
        parts := parts + [RulePart(ByDay, OrdinalValue(r.ordinal.value))];
      } else if Present(r.bymonthday) {
        PushPart(rrules, parts, "BYDAY=", ByDay, r.bymonthday.value.ToText());
        rrules := rrules + ["BYDAY=" + r.bymonthday.value.ToText()];
        parts := parts + [RulePart(ByDay, r.bymonthday.value.ToText())];
      }
    }
    assert parts == prefix + ByDayParts(r);
  }

  /** `googleRecurrenceFromRecurrence`: the RRULE line, then the exclusions mapped one by one. */
  method GoogleRecurrenceFromRecurrence(r: Recurrence, start: DateTime) returns (lines: seq<string>)
    ensures lines == GoogleRecurrenceOf(r, start)
  {
    var rrules := PushRuleParts(r);
    var exrules: seq<string> := [];
    if |r.core.exclusiveDates| > 0 {
      exrules := MapExdatesWithZone(start, r.core.exclusiveDates);
    }
    assert Join(rrules, ";") == RuleLine(RuleParts(r));
    lines := [Join(rrules, ";")] + exrules;
  }
}
