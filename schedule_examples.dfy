/**
 * The recurring event of src/test/js/main/schedule.test.ts, checked against the expectations
 * written in that test: the parsed schedule and the Google event built from it.
 */
module ScheduleExamples {
  import opened Wrappers
  import opened Text
  import opened Calendar
  import opened GaroonEvent
  import opened RecurrenceRules
  import opened Schedules

  const Tokyo: string := "Asia/Tokyo"

  /** The daily event from 2017-09-07 to 2017-09-10, 00:15 to 00:30, with two excluded days. */
  const DailyEvent: Event := Event(
    Attributes("1234", "1504772224", Some("繰り返し予定のテスト"), Some("メモー"), Tokyo, None, Some("private"), "repeat"),
    Some(One(Member(Some(Party("6", "田中 太郎")), None))),
    None,
    Some(RepeatInfo(
      Condition("day", Some(Str("7")), Some(Str("4")), Date(2017, 9, 7), Some(Time(0, 15, 0)), Some(Date(2017, 9, 10)), Some(Time(0, 30, 0))),
      Some(Many(["2017-09-08T00:00:00+09:00", "2017-09-09T00:00:00+09:00"])))))

  lemma CompactDates()
    ensures CompactDate(Moment(Date(2017, 9, 10), Time(0, 30, 0), Tokyo)) == "20170910"
    ensures CompactDate(Moment(Date(2017, 9, 8), Midnight, Tokyo)) == "20170908"
    ensures CompactDate(Moment(Date(2017, 9, 9), Midnight, Tokyo)) == "20170909"
    ensures CompactTime(Moment(Date(2017, 9, 7), Time(0, 15, 0), Tokyo)) == "001500"
  {
    assert NatToString(2017) == "2017" by {
      assert NatToString(201) == "201" by {
        assert NatToString(20) == "20";
      }
    }
    assert Pad(9, 2) == "09" && Pad(10, 2) == "10" && Pad(8, 2) == "08" && Pad(0, 2) == "00" && Pad(15, 2) == "15";
  }

  /** The schedule the test expects `fromGaroonSchedule` to produce. */
  const DailySchedule: Schedule := Schedule(
    "1234", "1504772224", "繰り返し予定のテスト", Some("メモー"), [], [Attendee("6", "田中 太郎")],
    DateTime(At(Date(2017, 9, 7), Time(0, 15, 0), Tokyo), true),
    DateTime(At(Date(2017, 9, 7), Time(0, 30, 0), Tokyo), true),
    Some(Private), Some(Confirmed), Some(Opaque),
    Some(Recurrence(DailyShape, None, None, Some(Moment(Date(2017, 9, 10), Time(0, 30, 0), Tokyo)),
                    Some([Moment(Date(2017, 9, 8), Midnight, Tokyo), Moment(Date(2017, 9, 9), Midnight, Tokyo)]))),
    DailyEvent)

  /**
   * Parsing keeps the single user as attendee, ends the schedule at the end of the first
   * occurrence, and keeps the exclusions in order (schedule.test.ts, first test).
   */
  lemma DailyEventParsed(db: TimeZoneDb)
    requires db.localize("2017-09-08T00:00:00+09:00", Tokyo) == (Date(2017, 9, 8), Midnight)
    requires db.localize("2017-09-09T00:00:00+09:00", Tokyo) == (Date(2017, 9, 9), Midnight)
    ensures ScheduleOf(DailyEvent, db) == Success(DailySchedule)
  {
    var info := DailyEvent.repeatInfo.value;
    var dates := DailySchedule.recurrence.value.exclusiveDates.value;
    var stamps := ["2017-09-08T00:00:00+09:00", "2017-09-09T00:00:00+09:00"];
    var localized := LocalizeAll(db, stamps, Tokyo);
    assert localized[0] == Localize(db, stamps[0], Tokyo) == dates[0];
    assert localized[1] == Localize(db, stamps[1], Tokyo) == dates[1];
    assert localized == dates;
    assert ExclusionsOf(info, Tokyo, db) == Some(dates);
    assert RecurrenceOf(info, Tokyo, db) == Success(DailySchedule.recurrence.value);
    MembersSplitInOrder(DailyEvent.members);
    assert AttendeesOf([Member(Some(Party("6", "田中 太郎")), None)]) == [Attendee("6", "田中 太郎")];
  }

  lemma DailyRuleParts()
    ensures RuleParts(DailySchedule.recurrence.value) == [RulePart(Freq, "DAILY"), RulePart(Until, "20170910")]
  {
    CompactDates();
  }

  lemma DailyRuleLine()
    ensures RuleLine(RuleParts(DailySchedule.recurrence.value)) == "RRULE:FREQ=DAILY;UNTIL=20170910"
  {
    DailyRuleParts();
    var parts := [RulePart(Freq, "DAILY"), RulePart(Until, "20170910")];
    assert parts[0].Render() == "RRULE:FREQ=DAILY";
    assert parts[1].Render() == "UNTIL=20170910";
    assert Renders(parts) == ["RRULE:FREQ=DAILY", "UNTIL=20170910"];
    assert Join(["RRULE:FREQ=DAILY", "UNTIL=20170910"], ";") == "RRULE:FREQ=DAILY;UNTIL=20170910";
  }

  lemma DailyExdates()
    ensures ExdatesWithZone(DailySchedule.start, DailySchedule.recurrence.value.exclusiveDates.value) ==
      ["EXDATE;TZID=" + "Asia/Tokyo" + ";VALUE=DATE-TIME:" + "20170908T001500", "EXDATE;TZID=" + "Asia/Tokyo" + ";VALUE=DATE-TIME:" + "20170909T001500"]
  {
    CompactDates();
    var dates := DailySchedule.recurrence.value.exclusiveDates.value;
    var start := DailySchedule.start;
    assert ExclusionTime(start, dates[0]) == "001500" && ExclusionTime(start, dates[1]) == "001500";
    assert ExdateValue(start, dates[0]) == "20170908" + "T" + "001500" == "20170908T001500";
    assert ExdateValue(start, dates[1]) == "20170909" + "T" + "001500" == "20170909T001500";
    assert ExdateWithZone(start, dates[0]) == "EXDATE;TZID=" + "Asia/Tokyo" + ";VALUE=DATE-TIME:" + "20170908T001500";
    assert ExdateWithZone(start, dates[1]) == "EXDATE;TZID=" + "Asia/Tokyo" + ";VALUE=DATE-TIME:" + "20170909T001500";
    var exdates := ExdatesWithZone(start, dates);
    assert |exdates| == 2 && exdates[0] == ExdateWithZone(start, dates[0]) && exdates[1] == ExdateWithZone(start, dates[1]);
  }

  /**
   * The Google event carries one RRULE line with the date-only UNTIL, then one EXDATE line per
   * exclusion at the start's time of day (schedule.test.ts, second test).
   */
  lemma DailyScheduleToGoogle(db: TimeZoneDb)
    ensures var e := ToGoogleCalendarEvent(DailySchedule, "http://example.com/", db);
      e.recurrence == [
        "RRULE:FREQ=DAILY;UNTIL=20170910",
        "EXDATE;TZID=" + "Asia/Tokyo" + ";VALUE=DATE-TIME:" + "20170908T001500",
        "EXDATE;TZID=" + "Asia/Tokyo" + ";VALUE=DATE-TIME:" + "20170909T001500"]
      && e.source == Source("繰り返し予定のテスト", "http://example.com/?event=1234")
      && e.description == Some("メモー") && e.location.None?
  {
    DailyRuleLine();
    DailyExdates();
  }
}
