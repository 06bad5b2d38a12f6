/**
 * How the three recurrence generations relate: the function-based one of schedule.ts, the
 * single class of schedule/recurrence.ts and the class hierarchy of schedule/recurrence/index.ts.
 * They read the same repeat information and produce the same RRULE line; they differ in the
 * weekday text they accept and in the spelling of the EXDATE lines.
 */
module Generations {
  import opened Wrappers
  import opened Text
  import opened Calendar
  import opened GaroonEvent
  import opened RecurrenceRules
  import Gen1 = Schedules
  import Gen2 = ScheduleRecurrence
  import Gen3 = RecurrenceClasses

  /* ---------- weekday parsers ---------- */

  /** A number from 0 to 9 renders as its single digit. */
  lemma SmallNumberText(n: int)
    requires 0 <= n < 10
    ensures IntToString(n) == [Digit(n)]
  {
  }

  /** A number outside 0..9 renders as text longer than one character, or one starting with `-`. */
  lemma OtherNumberText(n: int)
    requires n < 0 || n >= 10
    ensures |IntToString(n)| >= 2 || IntToString(n)[0] == '-'
  {
    if n >= 10 {
      NatToStringLong(n);
    }
  }

  /**
   * The text-switch parser of schedule.ts, fed with `week.toString()`, and the number-or-text
   * switch of schedule/recurrence.ts accept the same inputs with the same weekdays, and reject
   * the same inputs with an error naming the same input text. The two thrown messages word that
   * error differently, which `InvalidWeekday` does not distinguish.
   */
  lemma WeekdayParsersAgree(day: Scalar)
    ensures Gen1.WeekdayFromText(day.ToText()) == Gen2.WeekdayFromScalar(day)
  {
    if day.Num? {
      if 0 <= day.n < 10 {
        SmallNumberText(day.n);
      } else {
        OtherNumberText(day.n);
      }
    }
  }

  /** The number-only parser of schedule/recurrence/index.ts accepts less, and agrees where it accepts. */
  lemma NumberParserRefines(day: Scalar)
    ensures Gen3.WeekdayFromNumber(day).Success? ==> Gen2.WeekdayFromScalar(day) == Gen3.WeekdayFromNumber(day)
    ensures Gen2.WeekdayFromScalar(day).Success? && day.Num? ==> Gen3.WeekdayFromNumber(day) == Gen2.WeekdayFromScalar(day)
    ensures Gen2.WeekdayFromScalar(day).Success? && day.Str? ==> Gen3.WeekdayFromNumber(day) == Failure(InvalidWeekday(day.s))
  {
  }

  /* ---------- factories ---------- */

  /** The single-class fields a value of the class hierarchy corresponds to. */
  function Flatten(r: Gen3.Recurrence): (f: Gen2.Recurrence)
    ensures f.pattern == r.core.pattern && f.until == r.core.until && f.exclusiveDates == r.core.exclusiveDates
    ensures f.interval == r.core.interval && f.count == r.core.count
  {
    match r
    case RecurrenceDaily(c) => Gen2.Recurrence(c.pattern, c.until, c.exclusiveDates, None, None, None, c.interval, c.count)
    case RecurrenceWeekly(c, byday) => Gen2.Recurrence(c.pattern, c.until, c.exclusiveDates, Some(byday), None, None, c.interval, c.count)
    case RecurrenceMonthly(c, ordinal, bymonthday) => Gen2.Recurrence(c.pattern, c.until, c.exclusiveDates, None, ordinal, bymonthday, c.interval, c.count)
  }

  /**
   * The first two factories fail alike and, when they succeed, build recurrences with the same
   * RRULE parts; the first keeps an absent exclusion list absent where the second has `[]`.
   */
  lemma FunctionAndClassFactoriesAgree(info: RepeatInfo, zone: string, db: TimeZoneDb)
    ensures Gen1.RecurrenceOf(info, zone, db).Success? <==> Gen2.RecurrenceOf(info, zone, db).Success?
    ensures Gen1.RecurrenceOf(info, zone, db).Failure? ==>
      Gen2.RecurrenceOf(info, zone, db) == Failure(Gen1.RecurrenceOf(info, zone, db).error)
    ensures Gen1.RecurrenceOf(info, zone, db).Success? ==>
      Gen1.RuleParts(Gen1.RecurrenceOf(info, zone, db).value) == Gen2.RuleParts(Gen2.RecurrenceOf(info, zone, db).value)
      && Gen1.RecurrenceOf(info, zone, db).value.exclusiveDates.GetOr([]) == Gen2.RecurrenceOf(info, zone, db).value.exclusiveDates
  {
    var c := info.condition;
    if c.week.Some? {
      WeekdayParsersAgree(c.week.value);
    }
  }

  /**
   * Whatever the class hierarchy builds, the single class builds too, with the same fields; the
   * converse fails only for a weekday given as text.
   */
  lemma HierarchyRefinesSingleClass(info: RepeatInfo, zone: string, db: TimeZoneDb)
    ensures Gen3.RecurrenceOf(info, zone, db).Success? ==>
      Gen2.RecurrenceOf(info, zone, db) == Success(Flatten(Gen3.RecurrenceOf(info, zone, db).value))
    ensures Gen2.RecurrenceOf(info, zone, db).Success? && Gen3.RecurrenceOf(info, zone, db).Failure? ==>
      info.condition.week.Some? && info.condition.week.value.Str?
  {
    var c := info.condition;
    if c.week.Some? {
      NumberParserRefines(c.week.value);
    }
  }

  /* ---------- generators ---------- */

  /** The class hierarchy and the single class emit the same RRULE parts for corresponding values. */
  lemma HierarchyRuleParts(r: Gen3.Recurrence)
    requires Gen3.Valid(r)
    ensures Gen3.RuleParts(r) == Gen2.RuleParts(Flatten(r))
  {
  }

  /** Both EXDATE spellings carry the same `<date>T<time>` value after their last parameter. */
  lemma ExdateSpellings(start: DateTime, date: Moment)
    ensures var v := ExdateValue(start, date);
      ExdateWithoutZone(start, date) == "EXDATE:" + v
      && |ExdateWithZone(start, date)| > |v|
      && ExdateWithZone(start, date)[|ExdateWithZone(start, date)| - |v| ..] == v
      && ExdateWithZone(start, date)[..12] == "EXDATE;TZID="
  {
    var v := ExdateValue(start, date);
    var prefix := "EXDATE;TZID=" + date.zone + ";VALUE=DATE-TIME:";
    assert ExdateWithZone(start, date) == prefix + v;
    assert (prefix + v)[|prefix|..] == v;
  }

  /**
   * For the same recurrence the first and third generators, which carry TZID, and the second,
   * which does not, emit the same RRULE line and the same number of EXDATE lines; line by line
   * the EXDATE values agree.
   */
  lemma ZonedAndZonelessLines(r: Gen3.Recurrence, start: DateTime)
    requires Gen3.Valid(r)
    ensures |Gen3.GoogleRecurrenceOf(r, start)| == |Gen2.GoogleRecurrenceOf(Flatten(r), start)|
    ensures Gen3.GoogleRecurrenceOf(r, start)[0] == Gen2.GoogleRecurrenceOf(Flatten(r), start)[0]
    ensures forall i :: 0 <= i < |r.core.exclusiveDates| ==>
      Gen3.GoogleRecurrenceOf(r, start)[1 + i] == ExdateWithZone(start, r.core.exclusiveDates[i])
      && Gen2.GoogleRecurrenceOf(Flatten(r), start)[1 + i] == ExdateWithoutZone(start, r.core.exclusiveDates[i])
  {
    HierarchyRuleParts(r);
    Gen3.GoogleRecurrenceLines(r, start);
    Gen2.GoogleRecurrenceLines(Flatten(r), start);
  }
}
