/**
 * The schedule store of src/app/js/main/schedule-store.ts: a `Store` of schedules whose documents
 * keep the raw groupware event as payload and two sortable text keys, `start` and `end`, which
 * the range query compares as strings.
 */
module ScheduleStores {
  import opened Wrappers
  import opened Text
  import opened Calendar
  import opened GaroonEvent
  import opened Schedules
  import opened Stores

  /** `StoredSchedule`: the nedb document. */
  datatype StoredSchedule = StoredSchedule(id: string, payload: Event, start: string, end: string)

  /* ---------- sortable keys ---------- */

  /**
   * moment's `SS` token is the fraction of the second in hundredths, not the seconds: the
   * moments of the model carry whole seconds, so it is always `00`.
   */
  const Fraction: string := "00"

  /** `HH:mm:SS` for an hour and a minute. */
  function ClockKey(hour: nat, minute: nat): string {
    Pad(hour, 2) + ":" + Pad(minute, 2) + ":" + Fraction
  }

  /** The literal clocks of the all-day formats are the clock keys of 00:00 and 24:00. */
  lemma AllDayClocks()
    ensures ClockKey(0, 0) == "00:00:00" && ClockKey(24, 0) == "24:00:00"
  {
    PadTwo(0);
    PadTwo(24);
  }

  /** The clock reading a key encodes: the time of a timed value, 00:00 for an all-day start, 24:00 for an all-day end. */
  function KeyClock(dt: DateTime, start: bool): (nat, nat) {
    if dt.hasTime then (dt.moment.time.hour, dt.moment.time.minute)
    else if start then (0, 0)
    else (24, 0)
  }

  /** `serializeDateTime`: `YYYY-MM-DD HH:mm:SS`, or the day with `00:00:00` / `24:00:00` when all-day. */
  function SerializeDateTime(dt: DateTime, start: bool): (key: string)
    ensures key == DashedDate(dt.moment) + " " + ClockKey(KeyClock(dt, start).0, KeyClock(dt, start).1)
  {
    AllDayClocks();
    DashedDate(dt.moment) + " " +
      if dt.hasTime then ClockKey(dt.moment.time.hour, dt.moment.time.minute)
      else if start then "00:00:00"
      else "24:00:00"
  }

  /** A wall-clock reading of an actual day. */
  predicate ValidClock(t: Time) {
    t.hour < 24 && t.minute < 60 && t.second < 60
  }

  /** The seconds are not encoded: two timed values that differ only in their seconds get the same key. */
  lemma KeyDropsSeconds(d: Date, hour: nat, minute: nat, s1: nat, s2: nat, zone: string, start: bool)
    ensures SerializeDateTime(DateTime(Moment(d, Time(hour, minute, s1), zone), true), start)
         == SerializeDateTime(DateTime(Moment(d, Time(hour, minute, s2), zone), true), start)
  {
  }

  /** Clock keys are eight characters long and compare as their clocks do: hours first, then minutes. */
  lemma ClockKeyOrder(h1: nat, m1: nat, h2: nat, m2: nat)
    requires h1 < 100 && m1 < 100 && h2 < 100 && m2 < 100
    ensures |ClockKey(h1, m1)| == 8 && |ClockKey(h2, m2)| == 8
    ensures h1 < h2 || (h1 == h2 && m1 < m2) ==> LexLess(ClockKey(h1, m1), ClockKey(h2, m2))
  {
    PadTwo(h1);
    PadTwo(h2);
    PadTwo(m1);
    PadTwo(m2);
    if h1 < h2 {
      LexLessPadTwo(h1, h2);
      LexLessSameLengthExtend(Pad(h1, 2), Pad(h2, 2), ":", ":");
      LexLessSameLengthExtend(Pad(h1, 2) + ":", Pad(h2, 2) + ":", Pad(m1, 2), Pad(m2, 2));
      LexLessSameLengthExtend(Pad(h1, 2) + ":" + Pad(m1, 2), Pad(h2, 2) + ":" + Pad(m2, 2), ":", ":");
      LexLessSameLengthExtend(Pad(h1, 2) + ":" + Pad(m1, 2) + ":", Pad(h2, 2) + ":" + Pad(m2, 2) + ":", Fraction, Fraction);
    } else if h1 == h2 && m1 < m2 {
      var p := Pad(h1, 2) + ":";
      LexLessPadTwo(m1, m2);
      LexLessCommonPrefix(p, Pad(m1, 2), Pad(m2, 2));
      LexLessSameLengthExtend(p + Pad(m1, 2), p + Pad(m2, 2), ":", ":");
      LexLessSameLengthExtend(p + Pad(m1, 2) + ":", p + Pad(m2, 2) + ":", Fraction, Fraction);
    }
  }

  /** Dashed dates with four-digit years are ten characters long and compare as the dates do. */
  lemma DashedDateOrder(a: Moment, b: Moment)
    requires 1000 <= a.date.year <= 9999 && 1000 <= b.date.year <= 9999
    requires a.date.month < 100 && b.date.month < 100 && a.date.day < 100 && b.date.day < 100
    ensures |DashedDate(a)| == 10 && |DashedDate(b)| == 10
    ensures var (da, db) := (a.date, b.date);
      da.year < db.year || (da.year == db.year && da.month < db.month)
      || (da.year == db.year && da.month == db.month && da.day < db.day) ==>
      LexLess(DashedDate(a), DashedDate(b))
  {
    var (da, db) := (a.date, b.date);
    PadFourSplit(da.year);
    PadFourSplit(db.year);
    PadTwo(da.year / 100);
    PadTwo(db.year / 100);
    PadTwo(da.year % 100);
    PadTwo(db.year % 100);
    PadTwo(da.month);
    PadTwo(db.month);
    PadTwo(da.day);
    PadTwo(db.day);
    var ya, yb := Pad(da.year, 4), Pad(db.year, 4);
    var ma, mb := Pad(da.month, 2), Pad(db.month, 2);
    var ta, tb := Pad(da.day, 2), Pad(db.day, 2);
    if da.year < db.year {
      LexLessPadFour(da.year, db.year);
      LexLessSameLengthExtend(ya, yb, "-", "-");
      LexLessSameLengthExtend(ya + "-", yb + "-", ma, mb);
      LexLessSameLengthExtend(ya + "-" + ma, yb + "-" + mb, "-", "-");
      LexLessSameLengthExtend(ya + "-" + ma + "-", yb + "-" + mb + "-", ta, tb);
    } else if da.year == db.year && da.month < db.month {
      LexLessPadTwo(da.month, db.month);
      LexLessCommonPrefix(ya + "-", ma, mb);
      LexLessSameLengthExtend(ya + "-" + ma, yb + "-" + mb, "-", "-");
      LexLessSameLengthExtend(ya + "-" + ma + "-", yb + "-" + mb + "-", ta, tb);
    } else if da.year == db.year && da.month == db.month && da.day < db.day {
      LexLessPadTwo(da.day, db.day);
      LexLessCommonPrefix(ya + "-" + ma + "-", ta, tb);
    }
  }

  /** On one day, keys compare as their clocks do: hours first, then minutes. */
  lemma SameDayKeyOrder(a: DateTime, sa: bool, b: DateTime, sb: bool)
    requires a.moment.date == b.moment.date
    requires KeyClock(a, sa).0 < 100 && KeyClock(a, sa).1 < 100 && KeyClock(b, sb).0 < 100 && KeyClock(b, sb).1 < 100
    ensures KeyClock(a, sa) == KeyClock(b, sb) ==> SerializeDateTime(a, sa) == SerializeDateTime(b, sb)
    ensures KeyClock(a, sa).0 < KeyClock(b, sb).0
            || (KeyClock(a, sa).0 == KeyClock(b, sb).0 && KeyClock(a, sa).1 < KeyClock(b, sb).1) ==>
      LexLess(SerializeDateTime(a, sa), SerializeDateTime(b, sb))
  {
    var (ha, ma) := KeyClock(a, sa);
    var (hb, mb) := KeyClock(b, sb);
    ClockKeyOrder(ha, ma, hb, mb);
    LexLessCommonPrefix(DashedDate(a.moment) + " ", ClockKey(ha, ma), ClockKey(hb, mb));
  }

  /**
   * On one day the all-day start key is at or below every timed key, and the all-day end key is
   * above every timed key and above the all-day start key.
   */
  lemma AllDayKeysBracketTheDay(day: Moment, t: DateTime, start: bool)
    requires t.hasTime && t.moment.date == day.date && ValidClock(t.moment.time)
    ensures !LexLess(SerializeDateTime(t, start), SerializeDateTime(DateTime(day, false), true))
    ensures LexLess(SerializeDateTime(t, start), SerializeDateTime(DateTime(day, false), false))
    ensures LexLess(SerializeDateTime(DateTime(day, false), true), SerializeDateTime(DateTime(day, false), false))
  {
    var first, last := DateTime(day, false), DateTime(day, false);
    SameDayKeyOrder(first, true, t, start);
    SameDayKeyOrder(t, start, last, false);
    SameDayKeyOrder(first, true, last, false);
    LexLessAsymmetric(SerializeDateTime(first, true), SerializeDateTime(t, start));
    LexLessIrreflexive(SerializeDateTime(t, start));
  }

  /** Keys of earlier days sort first, whatever their clocks, for four-digit years. */
  lemma EarlierDayKeyOrder(a: DateTime, sa: bool, b: DateTime, sb: bool)
    requires 1000 <= a.moment.date.year <= 9999 && 1000 <= b.moment.date.year <= 9999
    requires a.moment.date.month < 100 && b.moment.date.month < 100 && a.moment.date.day < 100 && b.moment.date.day < 100
    requires var (da, db) := (a.moment.date, b.moment.date);
      da.year < db.year || (da.year == db.year && da.month < db.month)
      || (da.year == db.year && da.month == db.month && da.day < db.day)
    ensures LexLess(SerializeDateTime(a, sa), SerializeDateTime(b, sb))
  {
    var (ha, ma) := KeyClock(a, sa);
    var (hb, mb) := KeyClock(b, sb);
    DashedDateOrder(a.moment, b.moment);
    LexLessSameLengthExtend(DashedDate(a.moment), DashedDate(b.moment), " ", " ");
    LexLessSameLengthExtend(DashedDate(a.moment) + " ", DashedDate(b.moment) + " ", ClockKey(ha, ma), ClockKey(hb, mb));
  }

  /* ---------- documents ---------- */

  function ScheduleId(s: Schedule): string {
    s.id
  }

  /** `serializer`: the id, the raw event, and the start and end keys. */
  function Serialize(s: Schedule): (doc: StoredSchedule)
    ensures doc.id == s.id && doc.payload == s.garoonEvent
    ensures doc.start == SerializeDateTime(s.start, true) && doc.end == SerializeDateTime(s.end, false)
  {
    StoredSchedule(s.id, s.garoonEvent, SerializeDateTime(s.start, true), SerializeDateTime(s.end, false))
  }

  /** `deserializer`: parses the stored raw event again. */
  function Deserialize(doc: StoredSchedule, db: TimeZoneDb): Result<Schedule, ParseError> {
    ScheduleOf(doc.payload, db)
  }

  /** A schedule parsed from an event is stored with that event and parses back to itself. */
  lemma StoreRoundTrip(ev: Event, db: TimeZoneDb)
    requires ScheduleOf(ev, db).Success?
    ensures Deserialize(Serialize(ScheduleOf(ev, db).value), db) == ScheduleOf(ev, db)
  {
  }

  /* ---------- range query ---------- */

  /**
   * The query of `getSchedules` as written: stored start at or after the start key, OR stored
   * end before the end key, both compared as strings.
   */
  predicate Matches(start: string, end: string, startKey: string, endKey: string) {
    !LexLess(start, startKey) || LexLess(end, endKey)
  }

  /** The overlap the doc-comment of `getSchedules` describes: starts before the end key and ends after the start key. */
  predicate Overlaps(start: string, end: string, startKey: string, endKey: string) {
    LexLess(start, endKey) && LexLess(startKey, end)
  }

  /** The ids of the documents the query matches. */
  function Selected(docs: map<string, StoredSchedule>, startKey: string, endKey: string): (r: set<string>)
    ensures forall id :: id in r <==> id in docs && Matches(docs[id].start, docs[id].end, startKey, endKey)
  {
    set id | id in docs && Matches(docs[id].start, docs[id].end, startKey, endKey)
  }

  /** The key of a timed reading on 2018-07-15 in Tokyo, the day of schedule-store.test.ts. */
  function TestKey(hour: nat, minute: nat, second: nat, start: bool): string {
    SerializeDateTime(DateTime(Moment(Date(2018, 7, 15), Time(hour, minute, second), "Asia/Tokyo"), true), start)
  }

  /** Keys of readings on the test day compare as their clocks do. */
  lemma TestKeyOrder(h1: nat, m1: nat, s1: nat, st1: bool, h2: nat, m2: nat, s2: nat, st2: bool)
    requires h1 < 24 && m1 < 60 && h2 < 24 && m2 < 60
    ensures (h1, m1) == (h2, m2) ==> !LexLess(TestKey(h1, m1, s1, st1), TestKey(h2, m2, s2, st2))
    ensures h1 < h2 || (h1 == h2 && m1 < m2) ==>
      LexLess(TestKey(h1, m1, s1, st1), TestKey(h2, m2, s2, st2)) && !LexLess(TestKey(h2, m2, s2, st2), TestKey(h1, m1, s1, st1))
  {
    var a := DateTime(Moment(Date(2018, 7, 15), Time(h1, m1, s1), "Asia/Tokyo"), true);
    var b := DateTime(Moment(Date(2018, 7, 15), Time(h2, m2, s2), "Asia/Tokyo"), true);
    SameDayKeyOrder(a, st1, b, st2);
    LexLessIrreflexive(TestKey(h1, m1, s1, st1));
    LexLessAsymmetric(TestKey(h1, m1, s1, st1), TestKey(h2, m2, s2, st2));
  }

  /**
   * The six schedules of schedule-store.test.ts (1: 9-10, 2: 8-10, 3: 8-9, 4: 8-8:59:59,
   * 5: 12-13, 6: 11-12) queried with 9:00 and 12:00: the query as written matches all six,
   * while only 1, 2 and 6 overlap the range, which is what the test expects.
   */
  lemma RangeQueryOnTestSchedules()
    ensures var lo, hi := TestKey(9, 0, 0, true), TestKey(12, 0, 0, false);
      Matches(TestKey(9, 0, 0, true), TestKey(10, 0, 0, false), lo, hi)
      && Matches(TestKey(8, 0, 0, true), TestKey(10, 0, 0, false), lo, hi)
      && Matches(TestKey(8, 0, 0, true), TestKey(9, 0, 0, false), lo, hi)
      && Matches(TestKey(8, 0, 0, true), TestKey(8, 59, 59, false), lo, hi)
      && Matches(TestKey(12, 0, 0, true), TestKey(13, 0, 0, false), lo, hi)
      && Matches(TestKey(11, 0, 0, true), TestKey(12, 0, 0, false), lo, hi)
    ensures var lo, hi := TestKey(9, 0, 0, true), TestKey(12, 0, 0, false);
      Overlaps(TestKey(9, 0, 0, true), TestKey(10, 0, 0, false), lo, hi)
      && Overlaps(TestKey(8, 0, 0, true), TestKey(10, 0, 0, false), lo, hi)
      && !Overlaps(TestKey(8, 0, 0, true), TestKey(9, 0, 0, false), lo, hi)
      && !Overlaps(TestKey(8, 0, 0, true), TestKey(8, 59, 59, false), lo, hi)
      && !Overlaps(TestKey(12, 0, 0, true), TestKey(13, 0, 0, false), lo, hi)
      && Overlaps(TestKey(11, 0, 0, true), TestKey(12, 0, 0, false), lo, hi)
  {
    TestKeyOrder(9, 0, 0, true, 9, 0, 0, true);
    TestKeyOrder(9, 0, 0, true, 10, 0, 0, false);
    TestKeyOrder(10, 0, 0, false, 12, 0, 0, false);
    TestKeyOrder(9, 0, 0, false, 12, 0, 0, false);
    TestKeyOrder(8, 59, 59, false, 12, 0, 0, false);
    TestKeyOrder(8, 0, 0, true, 9, 0, 0, true);
    TestKeyOrder(8, 59, 59, false, 9, 0, 0, true);
    TestKeyOrder(9, 0, 0, true, 12, 0, 0, true);
    TestKeyOrder(9, 0, 0, true, 11, 0, 0, true);
    TestKeyOrder(12, 0, 0, true, 12, 0, 0, false);
    TestKeyOrder(11, 0, 0, true, 12, 0, 0, false);
    TestKeyOrder(9, 0, 0, true, 9, 0, 0, false);
    TestKeyOrder(8, 0, 0, true, 12, 0, 0, false);
    TestKeyOrder(9, 0, 0, true, 13, 0, 0, false);
    TestKeyOrder(9, 0, 0, true, 12, 0, 0, false);
  }

  /** `new ScheduleStore()` and its `getSchedules`; the document map lives in the inherited store. */
  class ScheduleStore {
    const base: Store<Schedule, StoredSchedule, ParseError>

    /** An empty in-memory store with the schedule serializer and a deserializer that parses with `db`. */
    constructor(db: TimeZoneDb)
      ensures fresh(base) && base.docs == map[]
      ensures base.idOf == ScheduleId && base.serializer == Serialize
      ensures forall doc :: base.deserializer(doc) == Deserialize(doc, db)
    {
      base := new Store(ScheduleId, Serialize, doc => Deserialize(doc, db));
    }

    /**
     * `getSchedules(start, end)`: the documents the query matches, each deserialized, in the
     * order the datastore yields them (`order`, each matching id once); the first document that
     * does not parse makes the call reject, and so does a datastore error.
     */
    method GetSchedules(start: DateTime, end: DateTime, failed: bool)
      returns (r: Result<seq<Schedule>, StoreError<ParseError>>, ghost order: seq<string>)
      ensures failed ==> r == Failure(QueryFailed)
      ensures r.Success? ==>
        var selected := Selected(base.docs, SerializeDateTime(start, true), SerializeDateTime(end, false));
        |r.value| == |order|
        && (forall id :: id in selected <==> id in order)
        && (forall i, j :: 0 <= i < j < |order| ==> order[i] != order[j])
        && (forall i :: 0 <= i < |order| ==> order[i] in base.docs && base.deserializer(base.docs[order[i]]) == Success(r.value[i]))
      ensures !failed && r.Failure? ==>
        var selected := Selected(base.docs, SerializeDateTime(start, true), SerializeDateTime(end, false));
        r.error.Unreadable? && exists id :: id in selected && base.deserializer(base.docs[id]) == Failure(r.error.error)
    {
      order := [];
      if failed {
        return Failure(QueryFailed), order;
      }
      var docs, deserialize := base.docs, base.deserializer;
      var selected := Selected(docs, SerializeDateTime(start, true), SerializeDateTime(end, false));
      var remaining := selected;
      var found: seq<Schedule> := [];
      while remaining != {}
        invariant remaining <= selected
        invariant |found| == |order|
        invariant forall id :: id in selected <==> id in remaining || id in order
        invariant forall id :: id in remaining ==> id !in order
        invariant forall i, j :: 0 <= i < j < |order| ==> order[i] != order[j]
        invariant forall i :: 0 <= i < |order| ==> order[i] in docs && deserialize(docs[order[i]]) == Success(found[i])
        decreases remaining
      {
        var id :| id in remaining;
        var e := deserialize(docs[id]);
        if e.Failure? {
          return Failure(Unreadable(e.error)), order;
        }
        found := found + [e.value];
        order := order + [id];
        remaining := remaining - {id};
      }
      return Success(found), order;
    }
  }
}
