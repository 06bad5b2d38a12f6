/**
 * The single-class recurrence generation of src/app/js/main/schedule/recurrence.ts: one
 * `Recurrence` class whose optional fields `byday`, `bydayForMonth` and `bymonthday` stand for
 * the weekly and the two monthly shapes, a weekday parser that accepts a number or its decimal
 * text, and a generator whose EXDATE lines carry no TZID parameter. Its objects are never
 * changed after construction, so the class is a datatype.
 */
module ScheduleRecurrence {
  import opened Wrappers
  import opened Text
  import opened Calendar
  import opened GaroonEvent
  import opened RecurrenceRules

  /** The fields of the class, as the constructor stores them. */
  datatype Recurrence = Recurrence(
    pattern: Pattern,
    until: Moment,
    exclusiveDates: seq<Moment>,
    byday: Option<seq<Weekday>>,
    bydayForMonth: Option<(int, Weekday)>,
    bymonthday: Option<Scalar>,
    interval: Option<int>,
    count: Option<int>)

  /**
   * The field combinations the factory produces: no interval and no count; a daily recurrence
   * has no weekday fields, a weekly one only `byday`, a monthly one either the ordinal weekday or
   * a truthy month-day.
   */
  predicate Consistent(r: Recurrence) {
    r.interval.None? && r.count.None?
    && match r.pattern
       case Daily => r.byday.None? && r.bydayForMonth.None? && r.bymonthday.None?
       case Weekly => r.byday.Some? && r.bydayForMonth.None? && r.bymonthday.None?
       case Monthly =>
         r.byday.None?
         && (r.bydayForMonth.Some? <==> r.bymonthday.None?)
         && (r.bymonthday.Some? ==> r.bymonthday.value.Truthy())
  }

  /* ---------- factory ---------- */

  /**
   * `recurrenceWeeklyPatternFromWeekday`: a strict-equality switch whose every case lists both
   * the number and its decimal text, so 3 and "3" both name Wednesday.
   */
  function WeekdayFromScalar(day: Scalar): (r: Result<Weekday, ParseError>)
    ensures r.Success? <==>
      (day.Num? && 0 <= day.n <= 6) || (day.Str? && |day.s| == 1 && '0' <= day.s[0] <= '6')
    ensures r.Success? && day.Num? ==> WeekdayNumber(r.value) == day.n
    ensures r.Success? && day.Str? ==> day.s == [Digit(WeekdayNumber(r.value))]
    ensures r.Failure? ==> r.error == InvalidWeekday(day.ToText())
  {
    if day == Num(0) || day == Str("0") then Success(Sunday)
    else if day == Num(1) || day == Str("1") then Success(Monday)
    else if day == Num(2) || day == Str("2") then Success(Tuesday)
    else if day == Num(3) || day == Str("3") then Success(Wednesday)
    else if day == Num(4) || day == Str("4") then Success(Thursday)
    else if day == Num(5) || day == Str("5") then Success(Friday)
    else if day == Num(6) || day == Str("6") then Success(Saturday)
    else Failure(InvalidWeekday(day.ToText()))
  }

  /** The `switch` on the type code, once `until` and the exclusions are known. */
  function ConstructOf(c: Condition, until: Moment, dates: seq<Moment>): Result<Recurrence, ParseError> {
    if c.kind == "day" then Success(Recurrence(Daily, until, dates, None, None, None, None, None))
    else if c.kind == "weekday" then Success(Recurrence(Weekly, until, dates, Some(WorkingDays), None, None, None, None))
    else if c.kind == "week" then
      if Present(c.week) then
        var w :- WeekdayFromScalar(c.week.value);
        Success(Recurrence(Weekly, until, dates, Some([w]), None, None, None, None))
      else Failure(UnsupportedRecurrence)
    else if OrdinalOf(c.kind).Some? then
      if Present(c.week) then
        var w :- WeekdayFromScalar(c.week.value);
        Success(Recurrence(Monthly, until, dates, None, Some((OrdinalOf(c.kind).value, w)), None, None, None))
      else Failure(UnsupportedRecurrence)
    else if c.kind == "month" then
      if Present(c.day) then Success(Recurrence(Monthly, until, dates, None, None, c.day, None, None))
      else Failure(UnsupportedRecurrence)
    else Failure(UnsupportedRecurrence)
  }

  /** Specification of `Recurrence.recurrenceFromRepeatInfo`. */
  function RecurrenceOf(info: RepeatInfo, zone: string, db: TimeZoneDb): (r: Result<Recurrence, ParseError>)
    ensures info.condition.endDate.None? ==> r == Failure(MissingRecurrenceEnd)
    ensures info.condition.endDate.Some? && PatternOfKind(info.condition.kind).None? ==> r == Failure(UnsupportedRecurrence)
    ensures r.Success? ==> Consistent(r.value) && PatternOfKind(info.condition.kind) == Some(r.value.pattern)
    ensures r.Success? ==> Success(r.value.until) == UntilOf(info.condition, zone)
    ensures r.Success? ==> r.value.exclusiveDates == ExclusionDates(info, zone, db)
  {
    var until :- UntilOf(info.condition, zone);
    ConstructOf(info.condition, until, ExclusionDates(info, zone, db))
  }

  /**
   * A numeric weekday of 0 is falsy and rejected as unsupported, while the text "0" is Sunday;
   * any other number or text outside 0..6 is rejected as invalid.
   */
  lemma WeekdayCodes(info: RepeatInfo, zone: string, db: TimeZoneDb)
    requires info.condition.endDate.Some?
    requires info.condition.kind == "week" || OrdinalOf(info.condition.kind).Some?
    ensures info.condition.week == Some(Num(0)) ==> RecurrenceOf(info, zone, db) == Failure(UnsupportedRecurrence)
    ensures info.condition.week == Some(Str("0")) ==> RecurrenceOf(info, zone, db).Success?
    ensures info.condition.week.Some? && info.condition.week.value.Truthy()
            && WeekdayFromScalar(info.condition.week.value).Failure? ==>
      RecurrenceOf(info, zone, db) == Failure(InvalidWeekday(info.condition.week.value.ToText()))
  {
  }

  /** `Recurrence.recurrenceFromRepeatInfo`. */
  method RecurrenceFromRepeatInfo(info: RepeatInfo, zone: string, db: TimeZoneDb) returns (r: Result<Recurrence, ParseError>)
    ensures r == RecurrenceOf(info, zone, db)
  {
    var c := info.condition;
    var until: Moment;
    var exclusiveDates: seq<Moment> := [];
    if c.endDate.Some? {
      if c.endTime.Some? {
        until := At(c.endDate.value, c.endTime.value, zone);
      } else {
        until := StartOfDay(c.endDate.value, zone);
      }
    } else {
      return Failure(MissingRecurrenceEnd);
    }
    if info.exclusions.Some? {
      exclusiveDates := LocalizeAll(db, Items(info.exclusions.value), zone);
    }
    if c.kind == "day" {
      return Success(Recurrence(Daily, until, exclusiveDates, None, None, None, None, None));
    } else if c.kind == "weekday" {
      return Success(Recurrence(Weekly, until, exclusiveDates, Some(WorkingDays), None, None, None, None));
    } else if c.kind == "week" {
      if Present(c.week) {
        var w := WeekdayFromScalar(c.week.value);
        if w.Failure? {
          return Failure(w.error);
        }
        return Success(Recurrence(Weekly, until, exclusiveDates, Some([w.value]), None, None, None, None));
      }
    } else if OrdinalOf(c.kind).Some? {
      if Present(c.week) {
        var w := WeekdayFromScalar(c.week.value);
        if w.Failure? {
          return Failure(w.error);
        }
        return Success(Recurrence(Monthly, until, exclusiveDates, None, Some((OrdinalOf(c.kind).value, w.value)), None, None, None));
      }
    } else if c.kind == "month" {
      if Present(c.day) {
        return Success(Recurrence(Monthly, until, exclusiveDates, None, None, c.day, None, None));
      }
    }
    return Failure(UnsupportedRecurrence);
  }

  /* ---------- generator ---------- */

  /**
   * The BYDAY part: the weekdays of a weekly recurrence that has them; for a monthly one the
   * ordinal weekday, or else the truthy month-day.
   */
  function ByDayParts(r: Recurrence): seq<RulePart> {
    if r.pattern == Weekly && r.byday.Some? then [RulePart(ByDay, WeekdaysValue(r.byday.value))]
    else if r.pattern == Monthly then
      if r.bydayForMonth.Some? then [RulePart(ByDay, OrdinalValue(r.bydayForMonth.value))]
      else if Present(r.bymonthday) then [RulePart(ByDay, r.bymonthday.value.ToText())]
      else []
    else []
  }

  /** The `until` field is always a moment object, hence always truthy: UNTIL is emitted unless a count is. */
  function RuleParts(r: Recurrence): seq<RulePart> {
    Assemble(r.pattern, r.count, Some(r.until), r.interval, ByDayParts(r))
  }

  /** Specification of `googleRecurrenceFromRecurrence`. */
  function GoogleRecurrenceOf(r: Recurrence, start: DateTime): seq<string> {
    [RuleLine(RuleParts(r))] + ExdatesWithoutZone(start, r.exclusiveDates)
  }

  /** The RRULE parts come in canonical order, FREQ first, and never hold both COUNT and UNTIL. */
  lemma RuleLineWellOrdered(r: Recurrence)
    ensures WellOrdered(RuleParts(r))
  {
    AssembleWellOrdered(r.pattern, r.count, Some(r.until), r.interval, ByDayParts(r));
  }

  /**
   * A consistent recurrence has exactly one BYDAY part when it is weekly or monthly, and none
   * when it is daily; the part spells the weekdays, the ordinal weekday or the month-day.
   */
  lemma ByDayPresence(r: Recurrence)
    requires Consistent(r)
    ensures r.pattern == Daily <==> ByDayParts(r) == []
    ensures r.pattern == Weekly ==> ByDayParts(r) == [RulePart(ByDay, WeekdaysValue(r.byday.value))]
    ensures r.pattern == Monthly && r.bydayForMonth.Some? ==>
      ByDayParts(r) == [RulePart(ByDay, IntToString(r.bydayForMonth.value.0) + r.bydayForMonth.value.1.Code())]
    ensures r.pattern == Monthly && r.bydayForMonth.None? ==>
      ByDayParts(r) == [RulePart(ByDay, r.bymonthday.value.ToText())]
  {
  }

  /** The working-day recurrence renders as `FREQ=WEEKLY;UNTIL=<end>;BYDAY=MO,TU,WE,TH,FR`. */
  lemma WorkingDayRule(until: Moment, dates: seq<Moment>)
    ensures RuleParts(Recurrence(Weekly, until, dates, Some(WorkingDays), None, None, None, None)) ==
      [RulePart(Freq, "WEEKLY"), RulePart(Until, CompactDate(until)), RulePart(ByDay, "MO,TU,WE,TH,FR")]
  {
    WorkingDaysValue();
  }

  /** One RRULE line, then one `EXDATE:` line per exclusion, in order. */
  lemma GoogleRecurrenceLines(r: Recurrence, start: DateTime)
    ensures |GoogleRecurrenceOf(r, start)| == 1 + |r.exclusiveDates|
    ensures GoogleRecurrenceOf(r, start)[0] == RuleLine(RuleParts(r))
    ensures forall i :: 0 <= i < |r.exclusiveDates| ==>
      GoogleRecurrenceOf(r, start)[1 + i] == ExdateWithoutZone(start, r.exclusiveDates[i])
  {
    HeadThenZonelessExdates(RuleLine(RuleParts(r)), start, r.exclusiveDates);
  }

  /** The first half of `googleRecurrenceFromRecurrence`: pushes the RRULE parts one by one. */
  method PushRuleParts(r: Recurrence) returns (rrules: seq<string>)
    ensures rrules == Renders(RuleParts(r))
  {
    rrules := ["RRULE:FREQ=" + r.pattern.Name()];
    ghost var parts := [FreqPart(r.pattern)];
    assert "RRULE:FREQ" + "=" == "RRULE:FREQ=";
    assert rrules == Renders(parts);
    if Set(r.count) {
      PushPart(rrules, parts, "COUNT=", Count, IntToString(r.count.value));
      rrules := rrules + ["COUNT=" + IntToString(r.count.value)];
      parts := parts + [RulePart(Count, IntToString(r.count.value))];
    } else {
      PushPart(rrules, parts, "UNTIL=", Until, CompactDate(r.until));
      rrules := rrules + ["UNTIL=" + CompactDate(r.until)];
      parts := parts + [RulePart(Until, CompactDate(r.until))];
    }
    assert parts == [FreqPart(r.pattern)] + TermParts(r.count, Some(r.until));
    if Set(r.interval) {
      PushPart(rrules, parts, "INTERVAL=", Interval, IntToString(r.interval.value));
      rrules := rrules + ["INTERVAL=" + IntToString(r.interval.value)];
      parts := parts + [RulePart(Interval, IntToString(r.interval.value))];
    }
    assert parts == [FreqPart(r.pattern)] + TermParts(r.count, Some(r.until)) + IntervalParts(r.interval);
    ghost var prefix := parts;
    if r.pattern == Weekly && r.byday.Some? {
      PushPart(rrules, parts, "BYDAY=", ByDay, WeekdaysValue(r.byday.value));
      rrules := rrules + ["BYDAY=" + WeekdaysValue(r.byday.value)];
      parts := parts + [RulePart(ByDay, WeekdaysValue(r.byday.value))];
    } else if r.pattern == Monthly {
      if r.bydayForMonth.Some? {
        PushPart(rrules, parts, "BYDAY=", ByDay, OrdinalValue(r.bydayForMonth.value));
        rrules := rrules + ["BYDAY=" + OrdinalValue(r.bydayForMonth.value)];
        parts := parts + [RulePart(ByDay, OrdinalValue(r.bydayForMonth.value))];
      } else if Present(r.bymonthday) {
        PushPart(rrules, parts, "BYDAY=", ByDay, r.bymonthday.value.ToText());
        rrules := rrules + ["BYDAY=" + r.bymonthday.value.ToText()];
        parts := parts + [RulePart(ByDay, r.bymonthday.value.ToText())];
      }
    }
    assert parts == prefix + ByDayParts(r);
  }

  /** `googleRecurrenceFromRecurrence`: the RRULE line, then the exclusions mapped one by one. */
  method GoogleRecurrenceFromRecurrence(r: Recurrence, start: DateTime) returns (lines: seq<string>)
    ensures lines == GoogleRecurrenceOf(r, start)
  {
    var rrules := PushRuleParts(r);
    var exrules: seq<string> := [];
    if |r.exclusiveDates| > 0 {
      exrules := MapExdatesWithoutZone(start, r.exclusiveDates);
    }
    assert Join(rrules, ";") == RuleLine(RuleParts(r));
    lines := [Join(rrules, ";")] + exrules;
  }
}
