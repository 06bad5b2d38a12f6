/**
 * Value types shared by every generation of the schedule model: calendar dates and times,
 * moment-timezone values, the `DateTime` of schedule/datetime.ts, weekday and frequency codes,
 * and the moment format strings the core uses.
 */
module Calendar {
  import opened Text

  datatype Date = Date(year: nat, month: nat, day: nat)

  datatype Time = Time(hour: nat, minute: nat, second: nat)

  const Midnight: Time := Time(0, 0, 0)

  /** A moment-timezone value: a wall-clock reading in a named IANA zone (`moment.tz()` gives the name). */
  datatype Moment = Moment(date: Date, time: Time, zone: string)

  /** A point in time whose time of day may be absent (an all-day marker). Time is present by default. */
  datatype DateTime = DateTime(moment: Moment, hasTime: bool := true)

  /**
   * The part of the timezone database the core relies on, supplied from outside:
   * `localize(stamp, zone)` reads an offset timestamp such as "2017-09-08T00:00:00+09:00"
   * as a wall-clock date and time in `zone` (`moment(stamp).tz(zone)`), and `toIso(m)` is
   * `m.toISOString()`, the UTC instant.
   */
  datatype TimeZoneDb = TimeZoneDb(localize: (string, string) -> (Date, Time), toIso: Moment -> string)

  /** `moment(stamp).tz(zone)` and `moment.tz(stamp, zone)` for a timestamp that carries its own offset. */
  function Localize(db: TimeZoneDb, stamp: string, zone: string): (m: Moment)
    ensures m.zone == zone
  {
    var (d, t) := db.localize(stamp, zone);
    Moment(d, t, zone)
  }

  /** `moment.tz("YYYY-MM-DD HH:mm:ss", zone)`: a wall-clock reading taken as it is. */
  function At(date: Date, time: Time, zone: string): (m: Moment)
    ensures m.date == date && m.time == time && m.zone == zone
  {
    Moment(date, time, zone)
  }

  /** `moment.tz("YYYY-MM-DD", zone)`: the start of that day in the zone. */
  function StartOfDay(date: Date, zone: string): (m: Moment)
    ensures m.date == date && m.time == Midnight && m.zone == zone
  {
    Moment(date, Midnight, zone)
  }

  /** `format("YYYYMMDD")`. */
  function CompactDate(m: Moment): string {
    Pad(m.date.year, 4) + Pad(m.date.month, 2) + Pad(m.date.day, 2)
  }

  /** `format("YYYY-MM-DD")`. */
  function DashedDate(m: Moment): string {
    Pad(m.date.year, 4) + "-" + Pad(m.date.month, 2) + "-" + Pad(m.date.day, 2)
  }

  /** `format("HHmmss")`. */
  function CompactTime(m: Moment): string {
    Pad(m.time.hour, 2) + Pad(m.time.minute, 2) + Pad(m.time.second, 2)
  }

  /** The RFC 5545 two-letter weekday codes (`RecurrenceWeeklyPattern`). */
  datatype Weekday = Sunday | Monday | Tuesday | Wednesday | Thursday | Friday | Saturday {
    function Code(): string {
      match this
      case Sunday => "SU"
      case Monday => "MO"
      case Tuesday => "TU"
      case Wednesday => "WE"
      case Thursday => "TH"
      case Friday => "FR"
      case Saturday => "SA"
    }
  }

  /** The weekday number used by the source calendar: 0 is Sunday, 6 is Saturday. */
  function WeekdayNumber(w: Weekday): (n: nat)
    ensures n <= 6
  {
    match w
    case Sunday => 0
    case Monday => 1
    case Tuesday => 2
    case Wednesday => 3
    case Thursday => 4
    case Friday => 5
    case Saturday => 6
  }

  /** `RecurrenceWeekdayPattern`: Monday to Friday, in that order. */
  const WorkingDays: seq<Weekday> := [Monday, Tuesday, Wednesday, Thursday, Friday]

  /** The recurrence frequencies (`RecurrencePattern`). */
  datatype Pattern = Daily | Weekly | Monthly {
    function Name(): string {
      match this
      case Daily => "DAILY"
      case Weekly => "WEEKLY"
      case Monthly => "MONTHLY"
    }
  }
}
