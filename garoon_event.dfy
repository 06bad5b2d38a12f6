/**
 * The loosely shaped schedule event that the source groupware returns (`EventType` of the
 * `garoon` package), as a closed set of variants. An attribute the payload may omit is an
 * `Option`; `None` stands for every falsy value (absent or empty), since the source only ever
 * tests such attributes for truthiness.
 */
module GaroonEvent {
  import opened Wrappers
  import opened Text
  import opened Calendar

  /** An attribute that arrives either as a number or as a string (`week`, `day`). */
  datatype Scalar = Num(n: int) | Str(s: string) {
    /** JavaScript truthiness: 0 and "" are falsy. */
    predicate Truthy() {
      match this
      case Num(n) => n != 0
      case Str(s) => s != ""
    }

    /** `toString()`, and what a template literal prints. */
    function ToText(): string {
      match this
      case Num(n) => IntToString(n)
      case Str(s) => s
    }
  }

  /** XML-to-JSON shape: a repeated element arrives as an array, a single one as the element. */
  datatype OneOrMany<T> = One(item: T) | Many(items: seq<T>)

  /** The elements of a one-or-many block, in source order. */
  function Items<T>(x: OneOrMany<T>): (r: seq<T>)
    ensures x.One? ==> r == [x.item]
    ensures x.Many? ==> r == x.items
  {
    match x
    case One(i) => [i]
    case Many(xs) => xs
  }

  /** `user` or `facility` element of a member: its id and its `name` ("" when absent). */
  datatype Party = Party(id: string, name: string)

  /** `MemberType`: a user, a facility or (neither field set) an organization. */
  datatype Member = Member(user: Option<Party>, facility: Option<Party>)

  /** `attributes` of a `when.date` block: the first and last day as date strings. */
  datatype DaySpan = DaySpan(start: string, end: string)

  /** `attributes` of a `when.datetime` block: raw offset timestamps, the end possibly missing. */
  datatype Span = Span(start: string, end: Option<string>)

  datatype When = When(date: Option<OneOrMany<DaySpan>>, datetime: Option<OneOrMany<Span>>)

  /** `repeat_info.condition.attributes`, with the date and time strings already split into fields. */
  datatype Condition = Condition(
    kind: string,
    day: Option<Scalar>,
    week: Option<Scalar>,
    startDate: Date,
    startTime: Option<Time>,
    endDate: Option<Date>,
    endTime: Option<Time>)

  /** `repeat_info`: the condition and the `start` timestamps of `exclusive_datetimes.exclusive_datetime`. */
  datatype RepeatInfo = RepeatInfo(condition: Condition, exclusions: Option<OneOrMany<string>>)

  datatype Attributes = Attributes(
    id: string,
    version: string,
    detail: Option<string>,
    description: Option<string>,
    timezone: string,
    endTimezone: Option<string>,
    publicType: Option<string>,
    eventType: string)

  datatype Event = Event(
    attributes: Attributes,
    members: Option<OneOrMany<Member>>,
    when: Option<When>,
    repeatInfo: Option<RepeatInfo>)

  /** The errors thrown while normalising a payload. */
  datatype ParseError =
    | MissingRecurrenceEnd
    | UnsupportedRecurrence
    | InvalidWeekday(input: string)
    | SeveralDates(eventId: string)
    | SeveralDateTimes(eventId: string)
    | MissingDateTimeEnd(eventId: string)
    | NoDateBlock(eventId: string)
    | NoSchedule(eventId: string)

  /** `if (x)` on an optional attribute. */
  predicate Present(x: Option<Scalar>) {
    x.Some? && x.value.Truthy()
  }

  /** The ordinal a monthly type code stands for; `lastweek` is 5. */
  function OrdinalOf(kind: string): Option<int> {
    if kind == "1stweek" then Some(1)
    else if kind == "2ndweek" then Some(2)
    else if kind == "3rdweek" then Some(3)
    else if kind == "4thweek" then Some(4)
    else if kind == "lastweek" then Some(5)
    else None
  }

  /** The type codes the factory understands and the frequency each stands for. */
  function PatternOfKind(kind: string): Option<Pattern> {
    if kind == "day" then Some(Daily)
    else if kind == "weekday" || kind == "week" then Some(Weekly)
    else if OrdinalOf(kind).Some? || kind == "month" then Some(Monthly)
    else None
  }

  /** The end of the series: `end_date` with `end_time`, or the start of `end_date`; missing `end_date` throws. */
  function UntilOf(c: Condition, zone: string): Result<Moment, ParseError> {
    if c.endDate.None? then Failure(MissingRecurrenceEnd)
    else if c.endTime.Some? then Success(At(c.endDate.value, c.endTime.value, zone))
    else Success(StartOfDay(c.endDate.value, zone))
  }

  /** `moment.tz(stamp, zone)` for each exclusion, in source order. */
  function LocalizeAll(db: TimeZoneDb, stamps: seq<string>, zone: string): (r: seq<Moment>)
    ensures |r| == |stamps|
    ensures forall i :: 0 <= i < |stamps| ==> r[i] == Localize(db, stamps[i], zone)
  {
    seq(|stamps|, i requires 0 <= i < |stamps| => Localize(db, stamps[i], zone))
  }

  /** The exclusion dates of the later generators, computed before the type dispatch: absent gives `[]`. */
  function ExclusionDates(info: RepeatInfo, zone: string, db: TimeZoneDb): (r: seq<Moment>)
    ensures info.exclusions.None? ==> r == []
    ensures info.exclusions.Some? ==> |r| == |Items(info.exclusions.value)|
    ensures info.exclusions.Some? ==>
      forall i :: 0 <= i < |r| ==> r[i] == Localize(db, Items(info.exclusions.value)[i], zone)
  {
    match info.exclusions
    case None => []
    case Some(x) => LocalizeAll(db, Items(x), zone)
  }
}
