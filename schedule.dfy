/**
 * The schedule model of src/app/js/main/schedule.ts: normalising a groupware event into a
 * `Schedule` (`fromGaroonSchedule`, with its recurrence factory and code tables) and turning a
 * `Schedule` into a Google Calendar event (`toGoogleCalendarEvent`, with its RRULE/EXDATE
 * generator). This is the first of the three recurrence generations in the repository.
 */
module Schedules {
  import opened Wrappers
  import opened Text
  import opened Calendar
  import opened GaroonEvent
  import opened RecurrenceRules

  datatype Visibility = Public | Private {
    function Code(): string {
      match this
      case Public => "public"
      case Private => "private"
    }
  }

  datatype Status = Confirmed | Tentative {
    function Code(): string {
      match this
      case Confirmed => "confirmed"
      case Tentative => "tentative"
    }
  }

  datatype Transparency = Opaque | Transparent {
    function Code(): string {
      match this
      case Opaque => "opaque"
      case Transparent => "transparent"
    }
  }

  datatype Attendee = Attendee(id: string, displayName: string)

  datatype Location = Location(id: string, displayName: string)

  /**
   * What distinguishes the three recurrence interfaces. `WeeklyShape.byday` is the list of
   * weekdays; `MonthlyShape.ordinal` is the source's `[n, weekday]` pair `byday`.
   */
  datatype Shape =
    | DailyShape
    | WeeklyShape(byday: Option<seq<Weekday>>)
    | MonthlyShape(ordinal: Option<(int, Weekday)>, bymonthday: Option<Scalar>)

  /** `Recurrences`: the shape plus the fields every recurrence interface shares. */
  datatype Recurrence = Recurrence(
    shape: Shape,
    interval: Option<int>,
    count: Option<int>,
    until: Option<Moment>,
    exclusiveDates: Option<seq<Moment>>)
  {
    function Pattern(): Pattern {
      match shape
      case DailyShape => Daily
      case WeeklyShape(_) => Weekly
      case MonthlyShape(_, _) => Monthly
    }
  }

  datatype Schedule = Schedule(
    id: string,
    version: string,
    summary: string,
    description: Option<string>,
    locations: seq<Location>,
    attendees: seq<Attendee>,
    start: DateTime,
    end: DateTime,
    visibility: Option<Visibility>,
    status: Option<Status>,
    transparency: Option<Transparency>,
    recurrence: Option<Recurrence>,
    garoonEvent: Event)

  /* ---------- member classification ---------- */

  datatype Classified = AsAttendee(attendee: Attendee) | AsLocation(location: Location)

  /** A user with a name is an attendee; otherwise a facility with a name is a location; otherwise nothing. */
  function UserOrFacility(m: Member): Option<Classified> {
    if m.user.Some? && m.user.value.name != "" then Some(AsAttendee(Attendee(m.user.value.id, m.user.value.name)))
    else if m.facility.Some? && m.facility.value.name != "" then Some(AsLocation(Location(m.facility.value.id, m.facility.value.name)))
    else None
  }

  /** The callback of the `reduce` in `usersAndFacilitiesFromMembers`. */
  function ClassifyStep(acc: (seq<Attendee>, seq<Location>), m: Member): (seq<Attendee>, seq<Location>) {
    match UserOrFacility(m)
    case Some(AsAttendee(a)) => (acc.0 + [a], acc.1)
    case Some(AsLocation(l)) => (acc.0, acc.1 + [l])
    case None => acc
  }

  /** `members.reduce(step, acc)`: a left fold. */
  function ClassifyFold(members: seq<Member>, acc: (seq<Attendee>, seq<Location>)): (seq<Attendee>, seq<Location>)
    decreases |members|
  {
    if |members| == 0 then acc else ClassifyFold(members[1..], ClassifyStep(acc, members[0]))
  }

  /** The member list of an event: absent gives none, a single member is a one-element list. */
  function MemberList(members: Option<OneOrMany<Member>>): seq<Member> {
    match members
    case None => []
    case Some(x) => Items(x)
  }

  /** `usersAndFacilitiesFromMemberOrMembers`. */
  function UsersAndFacilities(members: Option<OneOrMany<Member>>): (seq<Attendee>, seq<Location>) {
    ClassifyFold(MemberList(members), ([], []))
  }

  /** The attendee a single member contributes, if any. */
  function AttendeeOf(m: Member): seq<Attendee> {
    var c := UserOrFacility(m);
    if c.Some? && c.value.AsAttendee? then [c.value.attendee] else []
  }

  /** The location a single member contributes, if any. */
  function LocationOf(m: Member): seq<Location> {
    var c := UserOrFacility(m);
    if c.Some? && c.value.AsLocation? then [c.value.location] else []
  }

  /** Reference definition: the attendees of a member list, member by member. */
  function AttendeesOf(members: seq<Member>): seq<Attendee> {
    if |members| == 0 then [] else AttendeeOf(members[0]) + AttendeesOf(members[1..])
  }

  /** Reference definition: the locations of a member list, member by member. */
  function LocationsOf(members: seq<Member>): seq<Location> {
    if |members| == 0 then [] else LocationOf(members[0]) + LocationsOf(members[1..])
  }

  lemma ClassifyStepSplits(acc: (seq<Attendee>, seq<Location>), m: Member)
    ensures ClassifyStep(acc, m) == (acc.0 + AttendeeOf(m), acc.1 + LocationOf(m))
  {
    assert acc.0 + [] == acc.0 && acc.1 + [] == acc.1;
  }

  lemma {:induction false} ClassifyFoldIsReference(members: seq<Member>, acc: (seq<Attendee>, seq<Location>))
    ensures ClassifyFold(members, acc) == (acc.0 + AttendeesOf(members), acc.1 + LocationsOf(members))
    decreases |members|
  {
    if |members| == 0 {
      assert acc.0 + AttendeesOf(members) == acc.0 && acc.1 + LocationsOf(members) == acc.1;
    } else {
      var m, rest := members[0], members[1..];
      var step := ClassifyStep(acc, m);
      ClassifyStepSplits(acc, m);
      ClassifyFoldIsReference(rest, step);
      assert ClassifyFold(members, acc) == ClassifyFold(rest, step);
      assert AttendeesOf(members) == AttendeeOf(m) + AttendeesOf(rest);
      assert LocationsOf(members) == LocationOf(m) + LocationsOf(rest);
      assert step.0 + AttendeesOf(rest) == acc.0 + (AttendeeOf(m) + AttendeesOf(rest));
      assert step.1 + LocationsOf(rest) == acc.1 + (LocationOf(m) + LocationsOf(rest));
    }
  }

  /** Every member contributes at most one entry, and members come out in source order. */
  lemma {:induction false} ClassificationCounts(members: seq<Member>)
    ensures |AttendeesOf(members)| + |LocationsOf(members)| <= |members|
    ensures |members| > 0 && UserOrFacility(members[0]).None? ==>
      AttendeesOf(members) == AttendeesOf(members[1..]) && LocationsOf(members) == LocationsOf(members[1..])
    ensures forall i :: 0 <= i < |members| && UserOrFacility(members[i]).Some? && UserOrFacility(members[i]).value.AsAttendee? ==>
      UserOrFacility(members[i]).value.attendee in AttendeesOf(members)
    decreases |members|
  {
    if |members| > 0 {
      ClassificationCounts(members[1..]);
      forall i | 1 <= i < |members| && UserOrFacility(members[i]).Some? && UserOrFacility(members[i]).value.AsAttendee?
        ensures UserOrFacility(members[i]).value.attendee in AttendeesOf(members)
      {
        assert members[i] == members[1..][i - 1];
      }
    }
  }

  /** The split of an event's members is the member-by-member classification, in source order. */
  lemma MembersSplitInOrder(members: Option<OneOrMany<Member>>)
    ensures UsersAndFacilities(members) == (AttendeesOf(MemberList(members)), LocationsOf(MemberList(members)))
    ensures members.None? ==> UsersAndFacilities(members) == ([], [])
    ensures members.Some? && members.value.One? ==>
      UsersAndFacilities(members) == UsersAndFacilities(Some(Many([members.value.item])))
  {
    var list := MemberList(members);
    ClassifyFoldIsReference(list, ([], []));
    assert [] + AttendeesOf(list) == AttendeesOf(list) && [] + LocationsOf(list) == LocationsOf(list);
  }

  /* ---------- code tables ---------- */

  /** `visibilityFromPublicType`; an unknown code falls out of the switch as `undefined`. */
  function VisibilityFromPublicType(code: string): Option<Visibility> {
    if code == "public" then Some(Public)
    else if code == "private" || code == "qualified" then Some(Private)
    else None
  }

  /** An absent (or empty) public type is Public. */
  function VisibilityOf(publicType: Option<string>): Option<Visibility> {
    if publicType.Some? && publicType.value != "" then VisibilityFromPublicType(publicType.value) else Some(Public)
  }

  /** `statusFromEventTypeType`. */
  function StatusFromEventType(code: string): Option<Status> {
    if code == "normal" || code == "repeat" || code == "banner" then Some(Confirmed)
    else if code == "temporary" then Some(Tentative)
    else None
  }

  /** `transparencyFromEventTypeType`. */
  function TransparencyFromEventType(code: string): Option<Transparency> {
    if code == "normal" || code == "repeat" then Some(Opaque)
    else if code == "temporary" || code == "banner" then Some(Transparent)
    else None
  }

  /** A visibility's own code reads back as itself; the two tables know the same event types; tentative never blocks time. */
  lemma CodeTables(v: Visibility, code: string)
    ensures VisibilityFromPublicType(v.Code()) == Some(v)
    ensures VisibilityOf(None) == Some(Public)
    ensures VisibilityFromPublicType(code).Some? <==> code in ["public", "private", "qualified"]
    ensures StatusFromEventType(code).Some? <==> TransparencyFromEventType(code).Some?
    ensures StatusFromEventType(code).Some? <==> code in ["normal", "repeat", "banner", "temporary"]
    ensures StatusFromEventType(code) == Some(Tentative) ==> TransparencyFromEventType(code) == Some(Transparent)
    ensures TransparencyFromEventType(code) == Some(Opaque) ==> StatusFromEventType(code) == Some(Confirmed)
  {
  }

  /* ---------- recurrence factory ---------- */

  /** `recurrenceWeeklyPatternFromWeekday`: the text "0".."6" names Sunday..Saturday; anything else throws. */
  function WeekdayFromText(day: string): (r: Result<Weekday, ParseError>)
    ensures r.Success? <==> |day| == 1 && '0' <= day[0] <= '6'
    ensures r.Success? ==> day == [Digit(WeekdayNumber(r.value))]
    ensures r.Failure? ==> r.error == InvalidWeekday(day)
  {
    if day == "0" then Success(Sunday)
    else if day == "1" then Success(Monday)
    else if day == "2" then Success(Tuesday)
    else if day == "3" then Success(Wednesday)
    else if day == "4" then Success(Thursday)
    else if day == "5" then Success(Friday)
    else if day == "6" then Success(Saturday)
    else Failure(InvalidWeekday(day))
  }

  /** The `switch` on the type code; a falsy `week`/`day` leaves the recurrence undefined, which throws. */
  function ShapeOf(c: Condition): Result<Shape, ParseError> {
    if c.kind == "day" then Success(DailyShape)
    else if c.kind == "weekday" then Success(WeeklyShape(Some(WorkingDays)))
    else if c.kind == "week" then
      if Present(c.week) then
        var w :- WeekdayFromText(c.week.value.ToText());
        Success(WeeklyShape(Some([w])))
      else Failure(UnsupportedRecurrence)
    else if OrdinalOf(c.kind).Some? then
      if Present(c.week) then
        var w :- WeekdayFromText(c.week.value.ToText());
        Success(MonthlyShape(Some((OrdinalOf(c.kind).value, w)), None))
      else Failure(UnsupportedRecurrence)
    else if c.kind == "month" then
      if Present(c.day) then Success(MonthlyShape(None, c.day)) else Failure(UnsupportedRecurrence)
    else Failure(UnsupportedRecurrence)
  }

  /** The exclusion dates: absent stays absent, a single entry is a one-element list. */
  function ExclusionsOf(info: RepeatInfo, zone: string, db: TimeZoneDb): Option<seq<Moment>> {
    match info.exclusions
    case None => None
    case Some(x) => Some(LocalizeAll(db, Items(x), zone))
  }

  /** Specification of `recurrenceFromRepeatInfo`. */
  function RecurrenceOf(info: RepeatInfo, zone: string, db: TimeZoneDb): (r: Result<Recurrence, ParseError>)
    ensures info.condition.endDate.None? ==> r == Failure(MissingRecurrenceEnd)
    ensures info.condition.endDate.Some? && PatternOfKind(info.condition.kind).None? ==> r == Failure(UnsupportedRecurrence)
    ensures r.Success? ==> PatternOfKind(info.condition.kind) == Some(r.value.Pattern())
    ensures r.Success? ==> r.value.until.Some? && r.value.until.value.date == info.condition.endDate.value
                           && r.value.until.value.zone == zone
    ensures r.Success? ==> r.value.count.None? && r.value.interval.None?
    ensures r.Success? ==> r.value.exclusiveDates == ExclusionsOf(info, zone, db)
    ensures r.Success? ==> r.value.until == Some(
      if info.condition.endTime.Some? then At(info.condition.endDate.value, info.condition.endTime.value, zone)
      else StartOfDay(info.condition.endDate.value, zone))
    ensures info.condition.endDate.Some? && info.condition.kind == "day" ==> r.Success? && r.value.shape == DailyShape
    ensures info.condition.endDate.Some? && info.condition.kind == "week" && Present(info.condition.week) ==>
      var w := WeekdayFromText(info.condition.week.value.ToText());
      (w.Failure? ==> r == Failure(InvalidWeekday(info.condition.week.value.ToText())))
      && (w.Success? ==> r.Success? && r.value.shape == WeeklyShape(Some([w.value])))
    ensures info.condition.endDate.Some? && OrdinalOf(info.condition.kind).Some? && Present(info.condition.week) ==>
      var w := WeekdayFromText(info.condition.week.value.ToText());
      (w.Failure? ==> r == Failure(InvalidWeekday(info.condition.week.value.ToText())))
      && (w.Success? ==> r.Success? && r.value.shape == MonthlyShape(Some((OrdinalOf(info.condition.kind).value, w.value)), None))
    ensures info.condition.endDate.Some? && info.condition.kind == "month" && Present(info.condition.day) ==>
      r.Success? && r.value.shape == MonthlyShape(None, info.condition.day)
  {
    var until :- UntilOf(info.condition, zone);
    var shape :- ShapeOf(info.condition);
    Success(Recurrence(shape, None, None, Some(until), ExclusionsOf(info, zone, db)))
  }

  /** Which type codes succeed: `week` and the ordinals need a weekday, `month` a day. */
  lemma RecurrenceKinds(info: RepeatInfo, zone: string, db: TimeZoneDb)
    requires info.condition.endDate.Some?
    ensures info.condition.kind == "day" ==> RecurrenceOf(info, zone, db).Success?
    ensures info.condition.kind == "weekday" ==>
      RecurrenceOf(info, zone, db).Success? && RecurrenceOf(info, zone, db).value.shape == WeeklyShape(Some(WorkingDays))
    ensures (info.condition.kind == "week" || OrdinalOf(info.condition.kind).Some?) && !Present(info.condition.week) ==>
      RecurrenceOf(info, zone, db) == Failure(UnsupportedRecurrence)
    ensures info.condition.kind == "month" ==>
      (RecurrenceOf(info, zone, db).Success? <==> Present(info.condition.day))
    ensures OrdinalOf(info.condition.kind).Some? && Present(info.condition.week)
            && WeekdayFromText(info.condition.week.value.ToText()).Success? ==>
      RecurrenceOf(info, zone, db).Success? &&
      RecurrenceOf(info, zone, db).value.shape.ordinal ==
        Some((OrdinalOf(info.condition.kind).value, WeekdayFromText(info.condition.week.value.ToText()).value))
  {
  }

  /** `recurrenceFromRepeatInfo`: builds the recurrence, then attaches the exclusion dates to it. */
  method RecurrenceFromRepeatInfo(info: RepeatInfo, zone: string, db: TimeZoneDb) returns (r: Result<Recurrence, ParseError>)
    ensures r == RecurrenceOf(info, zone, db)
  {
    var c := info.condition;
    var until: Moment;
    if c.endDate.Some? {
      if c.endTime.Some? {
        until := At(c.endDate.value, c.endTime.value, zone);
      } else {
        until := StartOfDay(c.endDate.value, zone);
      }
    } else {
      return Failure(MissingRecurrenceEnd);
    }
    var recurrence: Option<Recurrence> := None;
    if c.kind == "day" {
      recurrence := Some(Recurrence(DailyShape, None, None, Some(until), None));
    } else if c.kind == "weekday" {
      recurrence := Some(Recurrence(WeeklyShape(Some(WorkingDays)), None, None, Some(until), None));
    } else if c.kind == "week" {
      if Present(c.week) {
        var w := WeekdayFromText(c.week.value.ToText());
        if w.Failure? {
          return Failure(w.error);
        }
        recurrence := Some(Recurrence(WeeklyShape(Some([w.value])), None, None, Some(until), None));
      }
    } else if OrdinalOf(c.kind).Some? {
      if Present(c.week) {
        var w := WeekdayFromText(c.week.value.ToText());
        if w.Failure? {
          return Failure(w.error);
        }
        recurrence := Some(Recurrence(MonthlyShape(Some((OrdinalOf(c.kind).value, w.value)), None), None, None, Some(until), None));
      }
    } else if c.kind == "month" {
      if Present(c.day) {
        recurrence := Some(Recurrence(MonthlyShape(None, c.day), None, None, Some(until), None));
      }
    }
    if recurrence.Some? {
      var rec := recurrence.value;
      if info.exclusions.Some? {
        rec := rec.(exclusiveDates := Some(LocalizeAll(db, Items(info.exclusions.value), zone)));
      }
      return Success(rec);
    } else {
      return Failure(UnsupportedRecurrence);
    }
  }

  /* ---------- fromGaroonSchedule ---------- */

  /** The time zone of the end: `end_timezone`, or `timezone` when it is absent or empty. */
  function EndZone(a: Attributes): string {
    if a.endTimezone.Some? && a.endTimezone.value != "" then a.endTimezone.value else a.timezone
  }

  /** Start and end of a one-off event, from its single `when.date` or `when.datetime` block. */
  function WhenSpan(ev: Event, w: When, db: TimeZoneDb): Result<(DateTime, DateTime), ParseError> {
    var a := ev.attributes;
    if w.date.Some? then
      match w.date.value
      case One(d) =>
        Success((DateTime(Localize(db, d.start, a.timezone), false), DateTime(Localize(db, d.end, EndZone(a)), false)))
      case Many(_) => Failure(SeveralDates(a.id))
    else if w.datetime.Some? then
      match w.datetime.value
      case One(d) =>
        if d.end.Some? && d.end.value != "" then
          Success((DateTime(Localize(db, d.start, a.timezone), true), DateTime(Localize(db, d.end.value, EndZone(a)), true)))
        else Failure(MissingDateTimeEnd(a.id))
      case Many(_) => Failure(SeveralDateTimes(a.id))
    else Failure(NoDateBlock(a.id))
  }

  /** Start and end of the first occurrence of a recurring event: both on `start_date`. */
  function FirstOccurrence(c: Condition, zone: string): (DateTime, DateTime) {
    var start := if c.startTime.Some? then DateTime(At(c.startDate, c.startTime.value, zone), true)
                 else DateTime(StartOfDay(c.startDate, zone), false);
    var end := if c.endTime.Some? then DateTime(At(c.startDate, c.endTime.value, zone), true)
               else DateTime(StartOfDay(c.startDate, zone), false);
    (start, end)
  }

  /** Specification of `fromGaroonSchedule`. */
  function ScheduleOf(ev: Event, db: TimeZoneDb): (r: Result<Schedule, ParseError>)
    ensures ev.repeatInfo.None? && ev.when.None? ==> r == Failure(NoSchedule(ev.attributes.id))
    ensures r.Success? ==>
      r.value.id == ev.attributes.id && r.value.version == ev.attributes.version
      && r.value.summary == ev.attributes.detail.GetOr("") && r.value.description == ev.attributes.description
      && r.value.garoonEvent == ev
    ensures r.Success? ==> r.value.attendees == AttendeesOf(MemberList(ev.members))
                           && r.value.locations == LocationsOf(MemberList(ev.members))
    ensures r.Success? ==>
      r.value.visibility == VisibilityOf(ev.attributes.publicType)
      && r.value.status == StatusFromEventType(ev.attributes.eventType)
      && r.value.transparency == TransparencyFromEventType(ev.attributes.eventType)
    ensures r.Success? ==> (r.value.recurrence.Some? <==> ev.repeatInfo.Some?)
    ensures ev.repeatInfo.Some? ==>
      var rec := RecurrenceOf(ev.repeatInfo.value, ev.attributes.timezone, db);
      (r.Success? <==> rec.Success?)
      && (r.Success? ==> r.value.recurrence == Some(rec.value))
      && (rec.Failure? ==> r == Failure(rec.error))
    ensures r.Success? && ev.repeatInfo.Some? ==>
      var c := ev.repeatInfo.value.condition;
      var zone := ev.attributes.timezone;
      r.value.start.hasTime == c.startTime.Some? && r.value.end.hasTime == c.endTime.Some?
      && r.value.start.moment == (if c.startTime.Some? then At(c.startDate, c.startTime.value, zone) else StartOfDay(c.startDate, zone))
      && r.value.end.moment == (if c.endTime.Some? then At(c.startDate, c.endTime.value, zone) else StartOfDay(c.startDate, zone))
    ensures r.Success? && ev.repeatInfo.None? ==>
      r.value.start.hasTime == r.value.end.hasTime
      && (r.value.start.hasTime <==> ev.when.value.date.None?)
      && r.value.start.moment.zone == ev.attributes.timezone && r.value.end.moment.zone == EndZone(ev.attributes)
    ensures ev.repeatInfo.None? && ev.when.Some? && ev.when.value.date.Some? ==>
      match ev.when.value.date.value
      case Many(_) => r == Failure(SeveralDates(ev.attributes.id))
      case One(d) =>
        r.Success? && r.value.start == DateTime(Localize(db, d.start, ev.attributes.timezone), false)
        && r.value.end == DateTime(Localize(db, d.end, EndZone(ev.attributes)), false)
    ensures ev.repeatInfo.None? && ev.when.Some? && ev.when.value.date.None? && ev.when.value.datetime.Some? ==>
      match ev.when.value.datetime.value
      case Many(_) => r == Failure(SeveralDateTimes(ev.attributes.id))
      case One(d) =>
        if d.end.None? || d.end.value == "" then r == Failure(MissingDateTimeEnd(ev.attributes.id))
        else
          r.Success? && r.value.start == DateTime(Localize(db, d.start, ev.attributes.timezone), true)
          && r.value.end == DateTime(Localize(db, d.end.value, EndZone(ev.attributes)), true)
    ensures ev.repeatInfo.None? && ev.when.Some? && ev.when.value.date.None? && ev.when.value.datetime.None? ==>
      r == Failure(NoDateBlock(ev.attributes.id))
  {
    var a := ev.attributes;
    MembersSplitInOrder(ev.members);
    var (users, locations) := UsersAndFacilities(ev.members);
    var timing: Result<(Option<Recurrence>, (DateTime, DateTime)), ParseError> :=
      if ev.repeatInfo.Some? then
        var recurrence :- RecurrenceOf(ev.repeatInfo.value, a.timezone, db);
        Success((Some(recurrence), FirstOccurrence(ev.repeatInfo.value.condition, a.timezone)))
      else if ev.when.Some? then
        var span :- WhenSpan(ev, ev.when.value, db);
        Success((None, span))
      else Failure(NoSchedule(a.id));
    var (recurrence, span) :- timing;
    Success(Schedule(
      a.id, a.version, a.detail.GetOr(""), a.description, locations, users, span.0, span.1,
      VisibilityOf(a.publicType), StatusFromEventType(a.eventType), TransparencyFromEventType(a.eventType),
      recurrence, ev))
  }

  /** `fromGaroonSchedule`. */
  method FromGaroonSchedule(ev: Event, db: TimeZoneDb) returns (r: Result<Schedule, ParseError>)
    ensures r == ScheduleOf(ev, db)
  {
    var a := ev.attributes;
    var (users, locations) := UsersAndFacilities(ev.members);
    var timezone := a.timezone;
    var endTimezone := EndZone(a);
    var recurrence: Option<Recurrence> := None;
    var visibility := VisibilityOf(a.publicType);
    var start: DateTime;
    var end: DateTime;
    if ev.repeatInfo.Some? {
      var parsed := RecurrenceFromRepeatInfo(ev.repeatInfo.value, timezone, db);
      if parsed.Failure? {
        return Failure(parsed.error);
      }
      recurrence := Some(parsed.value);
      var c := ev.repeatInfo.value.condition;
      if c.startTime.Some? {
        start := DateTime(At(c.startDate, c.startTime.value, timezone), true);
      } else {
        start := DateTime(StartOfDay(c.startDate, timezone), false);
      }
      if c.endTime.Some? {
        end := DateTime(At(c.startDate, c.endTime.value, timezone), true);
      } else {
        end := DateTime(StartOfDay(c.startDate, timezone), false);
      }
    } else if ev.when.Some? {
      var w := ev.when.value;
      if w.date.Some? {
        if w.date.value.One? {
          start := DateTime(Localize(db, w.date.value.item.start, timezone), false);
          end := DateTime(Localize(db, w.date.value.item.end, endTimezone), false);
        } else {
          return Failure(SeveralDates(a.id));
        }
      } else if w.datetime.Some? {
        if w.datetime.value.One? {
          var d := w.datetime.value.item;
          start := DateTime(Localize(db, d.start, timezone), true);
          if d.end.Some? && d.end.value != "" {
            end := DateTime(Localize(db, d.end.value, endTimezone), true);
          } else {
            return Failure(MissingDateTimeEnd(a.id));
          }
        } else {
          return Failure(SeveralDateTimes(a.id));
        }
      } else {
        return Failure(NoDateBlock(a.id));
      }
    } else {
      return Failure(NoSchedule(a.id));
    }
    r := Success(Schedule(
      a.id, a.version, a.detail.GetOr(""), a.description, locations, users, start, end,
      visibility, StatusFromEventType(a.eventType), TransparencyFromEventType(a.eventType),
      recurrence, ev));
  }

  /* ---------- Google Calendar event ---------- */

  /** The `start`/`end` object of a Google Calendar event. */
  datatype GoogleDateTime = Timed(dateTime: string, timeZone: string) | AllDay(date: string, timeZone: string)

  datatype Source = Source(title: string, url: string)

  /** The event resource `toGoogleCalendarEvent` builds; an optional key is `None` when not set. */
  datatype GoogleEvent = GoogleEvent(
    id: string,
    summary: string,
    description: Option<string>,
    location: Option<string>,
    start: GoogleDateTime,
    end: GoogleDateTime,
    visibility: Option<Visibility>,
    status: Option<Status>,
    transparency: Option<Transparency>,
    recurrence: seq<string>,
    source: Source)

  /** `googleDateTimeFromDateTime`: an instant for a timed value, a calendar date for an all-day one. */
  function GoogleDateTimeOf(dt: DateTime, db: TimeZoneDb): (g: GoogleDateTime)
    ensures g.timeZone == dt.moment.zone
    ensures g.Timed? <==> dt.hasTime
    ensures g.AllDay? ==> |g.date| >= 10 && g.date == DashedDate(dt.moment)
    ensures g.Timed? ==> g.dateTime == db.toIso(dt.moment)
  {
    if dt.hasTime then Timed(db.toIso(dt.moment), dt.moment.zone) else AllDay(DashedDate(dt.moment), dt.moment.zone)
  }

  /** The BYDAY part: weekly weekdays joined by commas, a monthly ordinal, or the month-day (still as BYDAY). */
  function ByDayParts(shape: Shape): seq<RulePart> {
    match shape
    case DailyShape => []
    case WeeklyShape(byday) => if byday.Some? then [RulePart(ByDay, WeekdaysValue(byday.value))] else []
    case MonthlyShape(ordinal, bymonthday) =>
      if ordinal.Some? then [RulePart(ByDay, OrdinalValue(ordinal.value))]
      else if Present(bymonthday) then [RulePart(ByDay, bymonthday.value.ToText())]
      else []
  }

  function RuleParts(r: Recurrence): seq<RulePart> {
    Assemble(r.Pattern(), r.count, r.until, r.interval, ByDayParts(r.shape))
  }

  /** Specification of `googleRecurrenceFromRecurrence`. */
  function GoogleRecurrenceOf(start: DateTime, recurrence: Option<Recurrence>): seq<string> {
    match recurrence
    case None => []
    case Some(r) => [RuleLine(RuleParts(r))] + ExdatesWithZone(start, r.exclusiveDates.GetOr([]))
  }

  /** The RRULE parts come in canonical order, FREQ first, and never hold both COUNT and UNTIL. */
  lemma RuleLineWellOrdered(r: Recurrence)
    ensures WellOrdered(RuleParts(r))
  {
    AssembleWellOrdered(r.Pattern(), r.count, r.until, r.interval, ByDayParts(r.shape));
  }

  /** One RRULE line, then one EXDATE line per exclusion, in order. */
  lemma GoogleRecurrenceLines(start: DateTime, recurrence: Option<Recurrence>)
    ensures recurrence.None? ==> GoogleRecurrenceOf(start, recurrence) == []
    ensures recurrence.Some? ==>
      var lines := GoogleRecurrenceOf(start, recurrence);
      var dates := recurrence.value.exclusiveDates.GetOr([]);
      |lines| == 1 + |dates| && lines[0] == RuleLine(RuleParts(recurrence.value))
      && forall i :: 0 <= i < |dates| ==> lines[1 + i] == ExdateWithZone(start, dates[i])
  {
    if recurrence.Some? {
      HeadThenExdates(RuleLine(RuleParts(recurrence.value)), start, recurrence.value.exclusiveDates.GetOr([]));
    }
  }

  /** The first half of `googleRecurrenceFromRecurrence`: pushes the RRULE parts one by one. */
  method PushRuleParts(r: Recurrence) returns (rrules: seq<string>)
    ensures rrules == Renders(RuleParts(r))
  {
    rrules := ["RRULE:FREQ=" + r.Pattern().Name()];
    ghost var parts := [FreqPart(r.Pattern())];
    assert "RRULE:FREQ" + "=" == "RRULE:FREQ=";
    assert rrules == Renders(parts);
    if Set(r.count) {
      PushPart(rrules, parts, "COUNT=", Count, IntToString(r.count.value));
      rrules := rrules + ["COUNT=" + IntToString(r.count.value)];
      parts := parts + [RulePart(Count, IntToString(r.count.value))];
    } else if r.until.Some? {
      PushPart(rrules, parts, "UNTIL=", Until, CompactDate(r.until.value));
      rrules := rrules + ["UNTIL=" + CompactDate(r.until.value)];
      parts := parts + [RulePart(Until, CompactDate(r.until.value))];
    }
    assert parts == [FreqPart(r.Pattern())] + TermParts(r.count, r.until);
    if Set(r.interval) {
      PushPart(rrules, parts, "INTERVAL=", Interval, IntToString(r.interval.value));
      rrules := rrules + ["INTERVAL=" + IntToString(r.interval.value)];
      parts := parts + [RulePart(Interval, IntToString(r.interval.value))];
    }
    assert parts == [FreqPart(r.Pattern())] + TermParts(r.count, r.until) + IntervalParts(r.interval);
    ghost var prefix := parts;
    if r.shape.WeeklyShape? && r.shape.byday.Some? {
      PushPart(rrules, parts, "BYDAY=", ByDay, WeekdaysValue(r.shape.byday.value));
      rrules := rrules + ["BYDAY=" + WeekdaysValue(r.shape.byday.value)];
      parts := parts + [RulePart(ByDay, WeekdaysValue(r.shape.byday.value))];
    } else if r.shape.MonthlyShape? {
      if r.shape.ordinal.Some? {
        PushPart(rrules, parts, "BYDAY=", ByDay, OrdinalValue(r.shape.ordinal.value));
        rrules := rrules + ["BYDAY=" + OrdinalValue(r.shape.ordinal.value)];
        parts := parts + [RulePart(ByDay, OrdinalValue(r.shape.ordinal.value))];
      } else if Present(r.shape.bymonthday) {
        PushPart(rrules, parts, "BYDAY=", ByDay, r.shape.bymonthday.value.ToText());
        rrules := rrules + ["BYDAY=" + r.shape.bymonthday.value.ToText()];
        parts := parts + [RulePart(ByDay, r.shape.bymonthday.value.ToText())];
      }
    }
    assert parts == prefix + ByDayParts(r.shape);
  }

  /** `googleRecurrenceFromRecurrence`: the RRULE line, then the exclusions mapped one by one. */
  method GoogleRecurrenceFromRecurrence(start: DateTime, recurrence: Option<Recurrence>) returns (lines: seq<string>)
    ensures lines == GoogleRecurrenceOf(start, recurrence)
  {
    if recurrence.None? {
      return [];
    }
    var r := recurrence.value;
    var rrules := PushRuleParts(r);
    var exrules: seq<string> := [];
    if r.exclusiveDates.Some? {
      exrules := MapExdatesWithZone(start, r.exclusiveDates.value);
    }
    assert exrules == ExdatesWithZone(start, r.exclusiveDates.GetOr([]));
    assert Join(rrules, ";") == RuleLine(RuleParts(r));
    lines := [Join(rrules, ";")] + exrules;
    assert lines == GoogleRecurrenceOf(start, recurrence);
  }

  /**
   * `compare` applies `<` and `>` to two `DateTime` objects, which both become `ObjectText`:
   * neither string is below the other, so every pair of schedules compares equal.
   */
  function Compare(left: Schedule, right: Schedule): (r: int)
    ensures r == 0
  {
    LexLessIrreflexive(ObjectText);
    if LexLess(ObjectText, ObjectText) then -1
    else if LexLess(ObjectText, ObjectText) then 1
    else 0
  }

  /** `locations.map(location => location.displayName)`. */
  function DisplayNames(locations: seq<Location>): (r: seq<string>)
    ensures |r| == |locations|
    ensures forall i :: 0 <= i < |locations| ==> r[i] == locations[i].displayName
  {
    seq(|locations|, i requires 0 <= i < |locations| => locations[i].displayName)
  }

  /** `toGoogleCalendarEvent`; `baseUrl` is the event page URL without its query or fragment. */
  function ToGoogleCalendarEvent(s: Schedule, baseUrl: string, db: TimeZoneDb): (e: GoogleEvent)
    ensures e.id == s.id && e.summary == s.summary
    ensures e.source == Source(s.summary, baseUrl + "?event=" + s.id)
    ensures e.description.Some? <==> s.description.Some? && s.description.value != ""
    ensures e.description.Some? ==> e.description == s.description
    ensures e.location.Some? <==> |s.locations| > 0
    ensures e.location.Some? ==> e.location.value == Join(DisplayNames(s.locations), ", ")
    ensures |s.locations| == 1 ==> e.location == Some(s.locations[0].displayName)
    ensures e.start == GoogleDateTimeOf(s.start, db) && e.end == GoogleDateTimeOf(s.end, db)
    ensures e.visibility == s.visibility && e.status == s.status && e.transparency == s.transparency
    ensures e.recurrence == GoogleRecurrenceOf(s.start, s.recurrence)
  {
    var names := DisplayNames(s.locations);
    GoogleEvent(
      s.id, s.summary,
      if s.description.Some? && s.description.value != "" then s.description else None,
      if |s.locations| > 0 then Some(Join(names, ", ")) else None,
      GoogleDateTimeOf(s.start, db), GoogleDateTimeOf(s.end, db),
      s.visibility, s.status, s.transparency,
      GoogleRecurrenceOf(s.start, s.recurrence),
      Source(s.summary, baseUrl + "?event=" + s.id))
  }
}
