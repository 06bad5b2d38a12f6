/**
 * The pieces of RFC 5545 text that every generation of the recurrence generator emits:
 * the parts of the RRULE line (section 3.3.10 of RFC 5545, RECUR) and the EXDATE lines
 * (section 3.8.5.1 of RFC 5545), in the exact spelling the source produces.
 */
module RecurrenceRules {
  import opened Wrappers
  import opened Text
  import opened Calendar
  import opened GaroonEvent

  /** The keys an RRULE line is built from, in the order every generator pushes them. */
  datatype Key = Freq | Count | Until | Interval | ByDay {
    function Name(): string {
      match this
      case Freq => "RRULE:FREQ"
      case Count => "COUNT"
      case Until => "UNTIL"
      case Interval => "INTERVAL"
      case ByDay => "BYDAY"
    }

    /** Position in the canonical order FREQ, COUNT, UNTIL, INTERVAL, BYDAY. */
    function Rank(): nat {
      match this
      case Freq => 0
      case Count => 1
      case Until => 2
      case Interval => 3
      case ByDay => 4
    }
  }

  /** One `KEY=value` element of the `;`-joined RRULE line; the first one is `RRULE:FREQ=...`. */
  datatype RulePart = RulePart(key: Key, value: string) {
    function Render(): string {
      key.Name() + "=" + value
    }
  }

  function Renders(parts: seq<RulePart>): (r: seq<string>)
    ensures |r| == |parts|
    ensures forall i :: 0 <= i < |parts| ==> r[i] == parts[i].Render()
  {
    seq(|parts|, i requires 0 <= i < |parts| => parts[i].Render())
  }

  /** `rrules.join(";")`. */
  function RuleLine(parts: seq<RulePart>): string {
    Join(Renders(parts), ";")
  }

  /** JavaScript truthiness of an optional count or interval: absent and 0 are both falsy. */
  predicate Set(x: Option<int>) {
    x.Some? && x.value != 0
  }

  function FreqPart(p: Pattern): RulePart {
    RulePart(Freq, p.Name())
  }

  /** `COUNT=n` when a count is set, else `UNTIL=YYYYMMDD` when an end is set, else nothing. */
  function TermParts(count: Option<int>, until: Option<Moment>): seq<RulePart> {
    if Set(count) then [RulePart(Count, IntToString(count.value))]
    else if until.Some? then [RulePart(Until, CompactDate(until.value))]
    else []
  }

  function IntervalParts(interval: Option<int>): seq<RulePart> {
    if Set(interval) then [RulePart(Interval, IntToString(interval.value))] else []
  }

  function Codes(days: seq<Weekday>): (r: seq<string>)
    ensures |r| == |days|
    ensures forall i :: 0 <= i < |days| ==> r[i] == days[i].Code()
  {
    seq(|days|, i requires 0 <= i < |days| => days[i].Code())
  }

  /** `byday.join(",")` for a list of weekdays. */
  function WeekdaysValue(days: seq<Weekday>): string {
    Join(Codes(days), ",")
  }

  /** The working-day pattern renders as `MO,TU,WE,TH,FR`. */
  lemma {:induction false} WorkingDaysValue()
    ensures WeekdaysValue(WorkingDays) == "MO,TU,WE,TH,FR"
  {
    var codes := Codes(WorkingDays);
    assert codes == ["MO", "TU", "WE", "TH", "FR"];
    assert Join(codes[4..], ",") == "FR";
    assert codes[3..][1..] == codes[4..];
    assert Join(codes[3..], ",") == "TH,FR";
    assert codes[2..][1..] == codes[3..];
    assert Join(codes[2..], ",") == "WE,TH,FR";
    assert codes[1..][1..] == codes[2..];
    assert Join(codes[1..], ",") == "TU,WE,TH,FR";
  }

  /** `[ordinal, weekday].join("")`, e.g. `2WE`. */
  function OrdinalValue(ordinal: (int, Weekday)): string {
    IntToString(ordinal.0) + ordinal.1.Code()
  }

  /** Every part's key ranks strictly above the previous one's: canonical order, no key twice. */
  predicate Increasing(parts: seq<RulePart>) {
    forall i, j :: 0 <= i < j < |parts| ==> parts[i].key.Rank() < parts[j].key.Rank()
  }

  /** Every part's key rank lies in `lo..hi`. */
  predicate RanksWithin(parts: seq<RulePart>, lo: nat, hi: nat) {
    forall i :: 0 <= i < |parts| ==> lo <= parts[i].key.Rank() <= hi
  }

  /**
   * What every RRULE line satisfies: FREQ first, the parts in canonical order,
   * and never both COUNT and UNTIL.
   */
  predicate WellOrdered(parts: seq<RulePart>) {
    |parts| >= 1 && parts[0].key == Freq && Increasing(parts)
    && !((exists i :: 0 <= i < |parts| && parts[i].key == Count) && (exists j :: 0 <= j < |parts| && parts[j].key == Until))
  }

  lemma IncreasingConcat(a: seq<RulePart>, b: seq<RulePart>, lo: nat, mid: nat, hi: nat)
    requires Increasing(a) && Increasing(b)
    requires lo <= mid <= hi && RanksWithin(a, lo, mid) && RanksWithin(b, mid + 1, hi)
    ensures Increasing(a + b) && RanksWithin(a + b, lo, hi)
  {
    forall i, j | 0 <= i < j < |a + b|
      ensures (a + b)[i].key.Rank() < (a + b)[j].key.Rank()
    {
      if j < |a| {
        assert (a + b)[i] == a[i] && (a + b)[j] == a[j];
      } else if i < |a| {
        assert (a + b)[i] == a[i] && (a + b)[j] == b[j - |a|];
      } else {
        assert (a + b)[i] == b[i - |a|] && (a + b)[j] == b[j - |a|];
      }
    }
    forall i | 0 <= i < |a + b|
      ensures lo <= (a + b)[i].key.Rank() <= hi
    {
      if i < |a| {
        assert (a + b)[i] == a[i];
      } else {
        assert (a + b)[i] == b[i - |a|];
      }
    }
  }

  /** The parts as the generators assemble them: FREQ, then COUNT or UNTIL, then INTERVAL, then the BYDAY parts. */
  function Assemble(p: Pattern, count: Option<int>, until: Option<Moment>, interval: Option<int>, byday: seq<RulePart>): seq<RulePart>
  {
    [FreqPart(p)] + TermParts(count, until) + IntervalParts(interval) + byday
  }

  /** A line whose only COUNT or UNTIL part comes from a single-part slot never has both. */
  lemma TermExclusive(head: RulePart, term: seq<RulePart>, rest: seq<RulePart>)
    requires head.key == Freq && |term| <= 1
    requires forall i :: 0 <= i < |rest| ==> rest[i].key != Count && rest[i].key != Until
    ensures var parts := [head] + term + rest;
      !((exists i :: 0 <= i < |parts| && parts[i].key == Count) && (exists j :: 0 <= j < |parts| && parts[j].key == Until))
  {
  }

  /** The assembled parts come in canonical order, FREQ first. */
  lemma AssembleIncreasing(p: Pattern, count: Option<int>, until: Option<Moment>, interval: Option<int>, byday: seq<RulePart>)
    requires |byday| <= 1 && forall i :: 0 <= i < |byday| ==> byday[i].key == ByDay
    ensures Increasing(Assemble(p, count, until, interval, byday))
  {
    var term := TermParts(count, until);
    var inter := IntervalParts(interval);
    IncreasingConcat([FreqPart(p)], term, 0, 0, 2);
    IncreasingConcat([FreqPart(p)] + term, inter, 0, 2, 3);
    IncreasingConcat([FreqPart(p)] + term + inter, byday, 0, 3, 4);
  }

  /** Whatever the generation, the parts come in canonical order and COUNT excludes UNTIL. */
  lemma AssembleWellOrdered(p: Pattern, count: Option<int>, until: Option<Moment>, interval: Option<int>, byday: seq<RulePart>)
    requires |byday| <= 1 && forall i :: 0 <= i < |byday| ==> byday[i].key == ByDay
    ensures WellOrdered(Assemble(p, count, until, interval, byday))
  {
    AssembleIncreasing(p, count, until, interval, byday);
    var term := TermParts(count, until);
    var rest := IntervalParts(interval) + byday;
    assert Assemble(p, count, until, interval, byday) == [FreqPart(p)] + term + rest;
    TermExclusive(FreqPart(p), term, rest);
  }

  /** The time of day an exclusion is written with: the series start's when it is timed, else the exclusion's own. */
  function ExclusionTime(start: DateTime, date: Moment): string {
    CompactTime(if start.hasTime then start.moment else date)
  }

  /** `<YYYYMMDD>T<HHmmss>`, the value every EXDATE spelling carries after its colon. */
  function ExdateValue(start: DateTime, date: Moment): string {
    CompactDate(date) + "T" + ExclusionTime(start, date)
  }

  /** `EXDATE;TZID=<zone>;VALUE=DATE-TIME:<value>` (schedule.ts and schedule/recurrence/index.ts). */
  function ExdateWithZone(start: DateTime, date: Moment): string {
    "EXDATE;TZID=" + date.zone + ";VALUE=DATE-TIME:" + ExdateValue(start, date)
  }

  /** `EXDATE:<value>` (schedule/recurrence.ts). */
  function ExdateWithoutZone(start: DateTime, date: Moment): string {
    "EXDATE:" + ExdateValue(start, date)
  }

  function ExdatesWithZone(start: DateTime, dates: seq<Moment>): (r: seq<string>)
    ensures |r| == |dates|
    ensures forall i :: 0 <= i < |dates| ==> r[i] == ExdateWithZone(start, dates[i])
  {
    seq(|dates|, i requires 0 <= i < |dates| => ExdateWithZone(start, dates[i]))
  }

  function ExdatesWithoutZone(start: DateTime, dates: seq<Moment>): (r: seq<string>)
    ensures |r| == |dates|
    ensures forall i :: 0 <= i < |dates| ==> r[i] == ExdateWithoutZone(start, dates[i])
  {
    seq(|dates|, i requires 0 <= i < |dates| => ExdateWithoutZone(start, dates[i]))
  }

  /** A line put in front of others: it comes first, and each of the others moves one place on. */
  lemma InFront(head: string, lines: seq<string>)
    ensures |[head] + lines| == 1 + |lines| && ([head] + lines)[0] == head
    ensures forall i :: 0 <= i < |lines| ==> ([head] + lines)[1 + i] == lines[i]
  {
  }

  /** A header line followed by the EXDATE lines: one line per exclusion, after the header, in order. */
  lemma HeadThenExdates(head: string, start: DateTime, dates: seq<Moment>)
    ensures var lines := [head] + ExdatesWithZone(start, dates);
      |lines| == 1 + |dates| && lines[0] == head
      && forall i :: 0 <= i < |dates| ==> lines[1 + i] == ExdateWithZone(start, dates[i])
  {
    InFront(head, ExdatesWithZone(start, dates));
  }

  /** A header line followed by the zone-less EXDATE lines: one line per exclusion, after the header, in order. */
  lemma HeadThenZonelessExdates(head: string, start: DateTime, dates: seq<Moment>)
    ensures var lines := [head] + ExdatesWithoutZone(start, dates);
      |lines| == 1 + |dates| && lines[0] == head
      && forall i :: 0 <= i < |dates| ==> lines[1 + i] == ExdateWithoutZone(start, dates[i])
  {
    InFront(head, ExdatesWithoutZone(start, dates));
  }

  /** Pushing a rendered part keeps the pushed strings equal to the rendering of the parts. */
  lemma PushPart(rrules: seq<string>, parts: seq<RulePart>, prefix: string, key: Key, value: string)
    requires rrules == Renders(parts) && prefix == key.Name() + "="
    ensures rrules + [prefix + value] == Renders(parts + [RulePart(key, value)])
  {
  }

  /** `dates.map(date => EXDATE;TZID=...)`, one line per exclusion, in order. */
  method MapExdatesWithZone(start: DateTime, dates: seq<Moment>) returns (exrules: seq<string>)
    ensures exrules == ExdatesWithZone(start, dates)
  {
    exrules := [];
    var i := 0;
    while i < |dates|
      invariant 0 <= i <= |dates|
      invariant |exrules| == i
      invariant forall k :: 0 <= k < i ==> exrules[k] == ExdateWithZone(start, dates[k])
    {
      exrules := exrules + [ExdateWithZone(start, dates[i])];
      i := i + 1;
    }
  }

  /** `dates.map(date => EXDATE:...)`, one line per exclusion, in order. */
  method MapExdatesWithoutZone(start: DateTime, dates: seq<Moment>) returns (exrules: seq<string>)
    ensures exrules == ExdatesWithoutZone(start, dates)
  {
    exrules := [];
    var i := 0;
    while i < |dates|
      invariant 0 <= i <= |dates|
      invariant |exrules| == i
      invariant forall k :: 0 <= k < i ==> exrules[k] == ExdateWithoutZone(start, dates[k])
    {
      exrules := exrules + [ExdateWithoutZone(start, dates[i])];
      i := i + 1;
    }
  }
}
