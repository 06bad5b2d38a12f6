/**
 * One synchronization cycle of src/app/js/main/synchronizer.ts. The cycle fetches the
 * groupware schedules of the sync period. It first reconciles the cached schedules the fetch no
 * longer returns, then walks the fetched schedules in order, inserting, updating or ignoring
 * each in the Google calendar and caching it when a write succeeded, while reporting progress
 * to the sync status.
 *
 * The pure functions below specify the cycle on a `World` (calendar, cache, counters, and
 * whether the cycle has stopped); the `Synchronizer` methods perform it step by step on the
 * calendar, the cache, the groupware client and the status store, and are proved to end in the
 * state the functions compute.
 */
module Synchronization {
  import opened Wrappers
  import opened Calendar
  import opened GaroonEvent
  import opened Schedules
  import opened Stores
  import opened ScheduleStores
  import opened GoogleErrors
  import opened CalendarService
  import opened GaroonSource
  import Status = SyncStatus

  /* ---------- fetching ---------- */

  /** The events of a reply's `schedule_event`: none when absent, one, or the array in order. */
  function EventsOf(block: Option<OneOrMany<Event>>): (r: seq<Event>)
    ensures block.None? ==> r == []
    ensures block.Some? && block.value.One? ==> r == [block.value.item]
    ensures block.Some? && block.value.Many? ==> r == block.value.items
  {
    match block
    case None => []
    case Some(x) => Items(x)
  }

  /** A head that parses, then a first parse failure at `i` in the tail, is a first failure at `i + 1`. */
  lemma FirstFailureAfterHead(events: seq<Event>, db: TimeZoneDb, e: ParseError)
    requires |events| > 0 && ScheduleOf(events[0], db).Success?
    requires exists i :: (0 <= i < |events| - 1 && ScheduleOf(events[1..][i], db) == Failure(e)
      && (forall j :: 0 <= j < i ==> ScheduleOf(events[1..][j], db).Success?))
    ensures exists i :: (0 <= i < |events| && ScheduleOf(events[i], db) == Failure(e)
      && (forall j :: 0 <= j < i ==> ScheduleOf(events[j], db).Success?))
  {
    var i :| 0 <= i < |events| - 1 && ScheduleOf(events[1..][i], db) == Failure(e)
      && (forall j :: 0 <= j < i ==> ScheduleOf(events[1..][j], db).Success?);
    assert events[i + 1] == events[1..][i];
    forall j | 0 < j < i + 1
      ensures ScheduleOf(events[j], db).Success?
    {
      assert events[j] == events[1..][j - 1];
    }
  }

  /** `events.map(fromGaroonSchedule)`: every event parsed in order, or the first parse error. */
  function ParseAll(events: seq<Event>, db: TimeZoneDb): (r: Result<seq<Schedule>, ParseError>)
    ensures r.Success? ==> |r.value| == |events|
    ensures r.Success? ==> forall i :: 0 <= i < |events| ==> ScheduleOf(events[i], db) == Success(r.value[i])
    ensures r.Failure? ==>
      exists i :: 0 <= i < |events| && ScheduleOf(events[i], db) == Failure(r.error) && (forall j :: 0 <= j < i ==> ScheduleOf(events[j], db).Success?)
    decreases |events|
  {
    if |events| == 0 then Success([])
    else
      match ScheduleOf(events[0], db)
      case Failure(e) => Failure(e)
      case Success(s) =>
        match ParseAll(events[1..], db)
        case Failure(e) =>
          FirstFailureAfterHead(events, db, e);
          Failure(e)
        case Success(rest) =>
          assert forall j :: 1 <= j < |events| ==> events[j] == events[1..][j - 1];
          Success([s] + rest)
  }

  /** Why a fetch rejects: no reply, or an event that does not parse. */
  datatype FetchFailure = NoReply | Unparsable(error: ParseError)

  /** What one call makes of the reply it receives. */
  function Received(a: Answer, db: TimeZoneDb): (r: Result<seq<Schedule>, FetchFailure>)
    ensures a.Unreachable? ==> r == Failure(NoReply)
  {
    match a
    case Unreachable => Failure(NoReply)
    case Answered(block) =>
      match ParseAll(EventsOf(block), db)
      case Failure(e) => Failure(Unparsable(e))
      case Success(schedules) => Success(schedules)
  }

  /** The reply the `k`-th call from `queue` receives. */
  function ReplyAt(queue: seq<Answer>, k: nat): Answer {
    if k < |queue| then queue[k] else Unreachable
  }

  /**
   * `fetchGaroonSchedules(start, end, maxRetry)`: a call, and on rejection another one while
   * retries are left; the result and the replies left.
   */
  function Fetch(queue: seq<Answer>, maxRetry: nat, db: TimeZoneDb): (Result<seq<Schedule>, FetchFailure>, seq<Answer>)
    decreases maxRetry
  {
    var r := Received(NextAnswer(queue), db);
    if r.Failure? && maxRetry > 0 then Fetch(AfterCall(queue), maxRetry - 1, db)
    else (r, AfterCall(queue))
  }

  /** The replies after a call are the replies of the calls after it. */
  lemma ReplyShift(queue: seq<Answer>, k: nat)
    ensures ReplyAt(AfterCall(queue), k) == ReplyAt(queue, k + 1)
  {
  }

  /** A first reply that fails, followed by `n + 1` failing replies, makes `n + 2` failing replies. */
  lemma FailuresShift(queue: seq<Answer>, n: nat, db: TimeZoneDb)
    requires Received(ReplyAt(queue, 0), db).Failure?
    requires forall k :: 0 <= k <= n ==> Received(ReplyAt(AfterCall(queue), k), db).Failure?
    ensures forall k :: 0 <= k <= n + 1 ==> Received(ReplyAt(queue, k), db).Failure?
  {
    forall k | 0 < k <= n + 1
      ensures Received(ReplyAt(queue, k), db).Failure?
    {
      ReplyShift(queue, k - 1);
    }
  }

  /** A fetch makes at most `maxRetry + 1` calls. */
  lemma {:induction false} FetchCallsAtMost(queue: seq<Answer>, maxRetry: nat, db: TimeZoneDb)
    ensures |Fetch(queue, maxRetry, db).1| >= |queue| - (maxRetry + 1)
    decreases maxRetry
  {
    if Received(NextAnswer(queue), db).Failure? && maxRetry > 0 {
      FetchCallsAtMost(AfterCall(queue), maxRetry - 1, db);
    }
  }

  /** None of the first `k` calls from `queue` receives a usable reply. */
  ghost predicate UnusableBefore(queue: seq<Answer>, k: nat, db: TimeZoneDb) {
    forall j :: 0 <= j < k ==> Received(ReplyAt(queue, j), db).Failure?
  }

  /** An unusable first reply, then `k` unusable replies after it, make `k + 1` unusable replies. */
  lemma UnusableShift(queue: seq<Answer>, k: nat, db: TimeZoneDb)
    requires Received(ReplyAt(queue, 0), db).Failure?
    requires UnusableBefore(AfterCall(queue), k, db)
    ensures UnusableBefore(queue, k + 1, db)
    ensures ReplyAt(queue, k + 1) == ReplyAt(AfterCall(queue), k)
  {
    ReplyShift(queue, k);
    if k > 0 {
      FailuresShift(queue, k - 1, db);
    }
  }

  /** A fetch that succeeds does so with the first usable reply among its calls. */
  lemma {:induction false} FetchSuccessIsFirstUsable(queue: seq<Answer>, maxRetry: nat, db: TimeZoneDb)
    requires Fetch(queue, maxRetry, db).0.Success?
    ensures exists k :: (0 <= k <= maxRetry && Fetch(queue, maxRetry, db).0 == Received(ReplyAt(queue, k), db)
      && UnusableBefore(queue, k, db))
    decreases maxRetry
  {
    assert ReplyAt(queue, 0) == NextAnswer(queue);
    if Received(NextAnswer(queue), db).Failure? && maxRetry > 0 {
      var rest := AfterCall(queue);
      FetchSuccessIsFirstUsable(rest, maxRetry - 1, db);
      var k :| 0 <= k <= maxRetry - 1 && Fetch(rest, maxRetry - 1, db).0 == Received(ReplyAt(rest, k), db)
        && UnusableBefore(rest, k, db);
      UnusableShift(queue, k, db);
      assert Fetch(queue, maxRetry, db).0 == Fetch(rest, maxRetry - 1, db).0;
    } else {
      assert Fetch(queue, maxRetry, db).0 == Received(ReplyAt(queue, 0), db);
      assert UnusableBefore(queue, 0, db);
    }
  }

  /** A fetch that rejects received no usable reply in any of its calls. */
  lemma {:induction false} FetchFailureIsAllUnusable(queue: seq<Answer>, maxRetry: nat, db: TimeZoneDb)
    requires Fetch(queue, maxRetry, db).0.Failure?
    ensures forall k :: 0 <= k <= maxRetry ==> Received(ReplyAt(queue, k), db).Failure?
    decreases maxRetry
  {
    assert ReplyAt(queue, 0) == NextAnswer(queue);
    if maxRetry > 0 {
      FetchFailureIsAllUnusable(AfterCall(queue), maxRetry - 1, db);
      FailuresShift(queue, maxRetry - 1, db);
    } else {
      forall k | 0 <= k <= maxRetry
        ensures Received(ReplyAt(queue, k), db).Failure?
      {
        assert k == 0;
      }
    }
  }

  /**
   * A fetch makes at most `maxRetry + 1` calls; it succeeds exactly when one of their replies is
   * usable, with the first usable one.
   */
  lemma FetchFirstUsable(queue: seq<Answer>, maxRetry: nat, db: TimeZoneDb)
    ensures |Fetch(queue, maxRetry, db).1| >= |queue| - (maxRetry + 1)
    ensures Fetch(queue, maxRetry, db).0.Success? <==>
      exists k :: 0 <= k <= maxRetry && Received(ReplyAt(queue, k), db).Success?
    ensures Fetch(queue, maxRetry, db).0.Success? ==>
      exists k :: 0 <= k <= maxRetry && Fetch(queue, maxRetry, db).0 == Received(ReplyAt(queue, k), db)
        && (forall j :: 0 <= j < k ==> Received(ReplyAt(queue, j), db).Failure?)
  {
    FetchCallsAtMost(queue, maxRetry, db);
    if Fetch(queue, maxRetry, db).0.Success? {
      FetchSuccessIsFirstUsable(queue, maxRetry, db);
      var k :| 0 <= k <= maxRetry && Fetch(queue, maxRetry, db).0 == Received(ReplyAt(queue, k), db)
        && UnusableBefore(queue, k, db);
    } else {
      FetchFailureIsAllUnusable(queue, maxRetry, db);
    }
  }

  /** `fetchGaroonSchedulesByIds(ids)`: no call at all for an empty id list. */
  function FetchByIds(ids: seq<string>, queue: seq<Answer>, maxRetry: nat, db: TimeZoneDb): (r: (Result<seq<Schedule>, FetchFailure>, seq<Answer>))
    ensures |ids| == 0 ==> r == (Success([]), queue)
  {
    if |ids| == 0 then (Success([]), queue) else Fetch(queue, maxRetry, db)
  }

  /* ---------- the world a cycle changes ---------- */

  /** `addCount`, `modifyCount` and `ignoreCount`. */
  datatype Tally = Tally(added: nat, modified: nat, ignored: nat) {
    function Total(): nat {
      added + modified + ignored
    }
  }

  /**
   * The Google calendar, the cached documents, the counters, and whether the cycle has stopped on
   * a rejection (after which nothing more happens).
   */
  datatype World = World(events: map<string, GoogleEvent>, docs: map<string, StoredSchedule>, tally: Tally, halted: bool)

  /**
   * Where the services fail: calls to the calendar for these event ids reject without a status
   * code; the datastore fails to read, or to write, the documents of these ids.
   */
  datatype Faults = Faults(google: set<string>, unreadable: set<string>, unwritable: set<string>)

  /** The cached schedule of an id, as `scheduleStore.get` resolves it. */
  function Cached(docs: map<string, StoredSchedule>, id: string, db: TimeZoneDb): Result<Option<Schedule>, StoreError<ParseError>> {
    Lookup(docs, id, doc => Deserialize(doc, db))
  }

  /* ---------- schedules only in the cache ---------- */

  function IdsOf(schedules: seq<Schedule>): (r: seq<string>)
    ensures |r| == |schedules| && forall i :: 0 <= i < |r| ==> r[i] == schedules[i].id
  {
    seq(|schedules|, i requires 0 <= i < |schedules| => schedules[i].id)
  }

  /** The ids of cached schedules the fetch did not return. */
  function OnlyInStore(stored: seq<Schedule>, fetchedIds: seq<string>): (r: seq<string>)
    ensures |r| <= |stored|
    ensures forall id :: id in r <==> (id !in fetchedIds && exists i :: 0 <= i < |stored| && stored[i].id == id)
    decreases |stored|
  {
    if |stored| == 0 then []
    else
      var rest := OnlyInStore(stored[1..], fetchedIds);
      assert forall i :: 1 <= i < |stored| ==> stored[i] == stored[1..][i - 1];
      if stored[0].id in fetchedIds then rest else [stored[0].id] + rest
  }

  /** `schedules.find(s => s.id === id)`: the first schedule with that id. */
  function Find(schedules: seq<Schedule>, id: string): (r: Option<Schedule>)
    ensures r.None? <==> forall i :: 0 <= i < |schedules| ==> schedules[i].id != id
    ensures r.Some? ==>
      exists i :: 0 <= i < |schedules| && schedules[i] == r.value && r.value.id == id && (forall j :: 0 <= j < i ==> schedules[j].id != id)
    decreases |schedules|
  {
    if |schedules| == 0 then None
    else if schedules[0].id == id then Some(schedules[0])
    else
      assert forall j :: 1 <= j < |schedules| ==> schedules[j] == schedules[1..][j - 1];
      Find(schedules[1..], id)
  }

  /**
   * One id of `syncSchedulesNotInStore`: refetched, its event is updated and the schedule cached;
   * gone, its event is deleted and its document removed. A rejection stops the cycle.
   */
  function ReconcileOne(w: World, id: string, refetched: seq<Schedule>, faults: Faults, url: string, db: TimeZoneDb): (v: World)
    ensures v.tally == w.tally
    ensures w.halted ==> v == w
  {
    if w.halted then w
    else
      match Find(refetched, id)
      case Some(s) =>
        var (r, events) := UpdateResult(w.events, id in faults.google, ToGoogleCalendarEvent(s, url, db));
        if r.Failure? || s.id in faults.unwritable then w.(events := events, halted := true)
        else w.(events := events, docs := Upsert(w.docs, s.id, Serialize(s)))
      case None =>
        var (r, events) := DeleteResult(w.events, id in faults.google, id);
        if r.Failure? then w.(events := events, halted := true)
        else w.(events := events, docs := w.docs - {id})
  }

  /** The ids of the only-in-cache phase one after the other. */
  function ReconcileAll(w: World, ids: seq<string>, refetched: seq<Schedule>, faults: Faults, url: string, db: TimeZoneDb): World
    decreases |ids|
  {
    if |ids| == 0 then w
    else ReconcileOne(ReconcileAll(w, ids[..|ids| - 1], refetched, faults, url, db), ids[|ids| - 1], refetched, faults, url, db)
  }

  /** The only-in-cache phase: refetch the ids, then reconcile them; a failed refetch stops the cycle. */
  function ReconcilePhase(w: World, ids: seq<string>, idQueue: seq<Answer>, faults: Faults, url: string, db: TimeZoneDb): World {
    match FetchByIds(ids, idQueue, 0, db).0
    case Failure(_) => w.(halted := true)
    case Success(refetched) => ReconcileAll(w, ids, refetched, faults, url, db)
  }

  /** A refetched schedule is written to the calendar and the cache; a vanished one is deleted from both. */
  lemma ReconcileOneEffect(w: World, id: string, refetched: seq<Schedule>, faults: Faults, url: string, db: TimeZoneDb)
    requires !w.halted && id !in faults.google && id !in faults.unwritable
    ensures var v := ReconcileOne(w, id, refetched, faults, url, db);
      match Find(refetched, id)
      case Some(s) =>
        (id in w.events ==> !v.halted && v.events == w.events[id := ToGoogleCalendarEvent(s, url, db)] && v.docs == Upsert(w.docs, id, Serialize(s)))
        && (id !in w.events ==> v.halted && v.events == w.events && v.docs == w.docs)
      case None =>
        (id in w.events ==> !v.halted && v.events == w.events - {id} && v.docs == w.docs - {id})
        && (id !in w.events ==> v.halted && v.events == w.events && v.docs == w.docs)
  {
  }

  /** Reconciling a list of ids touches neither the events nor the documents of other ids. */
  lemma {:induction false} ReconcileTouchesOnlyItsIds(w: World, ids: seq<string>, refetched: seq<Schedule>, faults: Faults, url: string, db: TimeZoneDb, other: string)
    requires other !in ids
    ensures var v := ReconcileAll(w, ids, refetched, faults, url, db);
      (other in v.events <==> other in w.events) && (other in w.events ==> v.events[other] == w.events[other])
      && (other in v.docs <==> other in w.docs) && (other in w.docs ==> v.docs[other] == w.docs[other])
      && v.tally == w.tally
    decreases |ids|
  {
    if |ids| > 0 {
      var init := ids[..|ids| - 1];
      assert other !in init by {
        assert forall k :: 0 <= k < |init| ==> init[k] == ids[k];
      }
      ReconcileTouchesOnlyItsIds(w, init, refetched, faults, url, db, other);
      var u := ReconcileAll(w, init, refetched, faults, url, db);
      assert ids[|ids| - 1] != other;
      var last := ids[|ids| - 1];
      if !u.halted {
        match Find(refetched, last)
        case Some(s) =>
          assert s.id == last;
        case None =>
      }
    }
  }

  /* ---------- the fetched schedules ---------- */

  /** What the calendar calls for one schedule achieved: which counter moved, or none. */
  datatype Written = Added | Modified | Ignored | NotWritten

  /**
   * The decision table of `sync` for one schedule: insert a new one (and update it when the
   * calendar already has it), ignore one whose cached version is current, update a changed one
   * (and insert it when the calendar lacks it). Other rejections are swallowed.
   */
  function GoogleWrite(events: map<string, GoogleEvent>, faulty: bool, cached: Option<Schedule>, s: Schedule, json: GoogleEvent): (r: (Written, map<string, GoogleEvent>))
    ensures r.0 == Added || r.0 == Modified ==> r.1 == events[json.id := json]
    ensures r.0 == Ignored || r.0 == NotWritten ==> r.1 == events
    ensures r.0 == Ignored <==> cached.Some? && cached.value.version == s.version
    ensures faulty ==> r.0 == Ignored || r.0 == NotWritten
  {
    if cached.None? then
      var (r, afterInsert) := InsertResult(events, faulty, json);
      if r.Success? then (Added, afterInsert)
      else if r.error.reason == AlreadyExists then
        var (r2, afterUpdate) := UpdateResult(afterInsert, faulty, json);
        if r2.Success? then (Modified, afterUpdate) else (NotWritten, afterUpdate)
      else (NotWritten, afterInsert)
    else if cached.value.version == s.version then (Ignored, events)
    else
      var (r, afterUpdate) := UpdateResult(events, faulty, json);
      if r.Success? then (Modified, afterUpdate)
      else if r.error.reason == NotFound then
        var (r2, afterInsert) := InsertResult(afterUpdate, faulty, json);
        if r2.Success? then (Added, afterInsert) else (NotWritten, afterInsert)
      else (NotWritten, afterUpdate)
  }

  /** The counters after one schedule: at most one of them moves, by one. */
  function Count(t: Tally, w: Written): (u: Tally)
    ensures u.Total() == t.Total() + (if w == NotWritten then 0 else 1)
    ensures w == Added ==> u == t.(added := t.added + 1)
    ensures w == Modified ==> u == t.(modified := t.modified + 1)
    ensures w == Ignored ==> u == t.(ignored := t.ignored + 1)
    ensures w == NotWritten ==> u == t
  {
    match w
    case Added => t.(added := t.added + 1)
    case Modified => t.(modified := t.modified + 1)
    case Ignored => t.(ignored := t.ignored + 1)
    case NotWritten => t
  }

  /**
   * One fetched schedule: read its cached version, write the calendar, and cache the schedule
   * when a write succeeded. A rejected read or cache write stops the cycle.
   */
  function SyncOne(w: World, s: Schedule, faults: Faults, url: string, db: TimeZoneDb): (v: World)
    ensures w.halted ==> v == w
    ensures v.tally.Total() <= w.tally.Total() + 1
  {
    if w.halted then w
    else if s.id in faults.unreadable then w.(halted := true)
    else
      match Cached(w.docs, s.id, db)
      case Failure(_) => w.(halted := true)
      case Success(cached) =>
        var (written, events) := GoogleWrite(w.events, s.id in faults.google, cached, s, ToGoogleCalendarEvent(s, url, db));
        var tally := Count(w.tally, written);
        if written == Added || written == Modified then
          if s.id in faults.unwritable then World(events, w.docs, tally, true)
          else World(events, Upsert(w.docs, s.id, Serialize(s)), tally, false)
        else World(events, w.docs, tally, false)
  }

  /** The fetched schedules one after the other. */
  function SyncAll(w: World, schedules: seq<Schedule>, faults: Faults, url: string, db: TimeZoneDb): World
    decreases |schedules|
  {
    if |schedules| == 0 then w
    else SyncOne(SyncAll(w, schedules[..|schedules| - 1], faults, url, db), schedules[|schedules| - 1], faults, url, db)
  }

  /**
   * The cache is written for a schedule exactly when a calendar write for it succeeded, and the
   * calendar then holds the schedule's event; a current cached version changes nothing.
   */
  lemma CacheFollowsCalendar(w: World, s: Schedule, faults: Faults, url: string, db: TimeZoneDb)
    requires !w.halted && s.id !in faults.unreadable && Cached(w.docs, s.id, db).Success?
    ensures var cached := Cached(w.docs, s.id, db).value;
      var json := ToGoogleCalendarEvent(s, url, db);
      var (written, events) := GoogleWrite(w.events, s.id in faults.google, cached, s, json);
      var v := SyncOne(w, s, faults, url, db);
      v.events == events && v.tally == Count(w.tally, written)
      && (written == Added || written == Modified ==> events == w.events[s.id := json])
      && (written == Ignored || written == NotWritten ==> events == w.events && v.docs == w.docs && !v.halted)
      && (written == Added || written == Modified ==> v.halted == (s.id in faults.unwritable))
      && (!v.halted && (written == Added || written == Modified) ==> v.docs == Upsert(w.docs, s.id, Serialize(s)))
      && (cached.Some? && cached.value.version == s.version ==> written == Ignored && v.events == w.events && v.docs == w.docs)
  {
    var cached := Cached(w.docs, s.id, db).value;
    var json := ToGoogleCalendarEvent(s, url, db);
    assert json.id == s.id;
    var (written, events) := GoogleWrite(w.events, s.id in faults.google, cached, s, json);
    var tally := Count(w.tally, written);
    assert SyncOne(w, s, faults, url, db) ==
      if written == Added || written == Modified then
        if s.id in faults.unwritable then World(events, w.docs, tally, true)
        else World(events, Upsert(w.docs, s.id, Serialize(s)), tally, false)
      else World(events, w.docs, tally, false);
  }

  /**
   * Without a calendar fault, a schedule that is new or changed according to the cache ends up
   * written, whatever the calendar held: the insert and update fall back on each other.
   */
  lemma WritesSelfHeal(events: map<string, GoogleEvent>, cached: Option<Schedule>, s: Schedule, json: GoogleEvent)
    requires json.id == s.id
    requires cached.None? || cached.value.version != s.version
    ensures GoogleWrite(events, false, cached, s, json) == (if cached.None? && json.id in events then Modified else if cached.None? then Added
      else if json.id in events then Modified else Added, events[json.id := json])
  {
    FallbacksSucceed(events, json);
  }

  /** Once stopped, a cycle stays stopped and changes nothing more. */
  lemma {:induction false} HaltedStays(w: World, schedules: seq<Schedule>, k: nat, faults: Faults, url: string, db: TimeZoneDb)
    requires k <= |schedules| && SyncAll(w, schedules[..k], faults, url, db).halted
    ensures SyncAll(w, schedules, faults, url, db) == SyncAll(w, schedules[..k], faults, url, db)
    decreases |schedules| - k
  {
    if k < |schedules| {
      assert schedules[..k + 1][..k] == schedules[..k];
      HaltedStays(w, schedules, k + 1, faults, url, db);
    } else {
      assert schedules[..k] == schedules;
    }
  }

  /** Each schedule moves at most one counter: the counters never sum to more than the schedules. */
  lemma {:induction false} TallyBound(w: World, schedules: seq<Schedule>, faults: Faults, url: string, db: TimeZoneDb)
    ensures SyncAll(w, schedules, faults, url, db).tally.Total() <= w.tally.Total() + |schedules|
    decreases |schedules|
  {
    if |schedules| > 0 {
      TallyBound(w, schedules[..|schedules| - 1], faults, url, db);
    }
  }

  /* ---------- the whole cycle ---------- */

  /** The world after both phases over the fetched schedules. */
  function CycleWorld(w: World, stored: seq<Schedule>, fetched: seq<Schedule>, idQueue: seq<Answer>, faults: Faults, url: string, db: TimeZoneDb): World {
    SyncAll(ReconcilePhase(w, OnlyInStore(stored, IdsOf(fetched)), idQueue, faults, url, db), fetched, faults, url, db)
  }

  /** The actions dispatched before the fetched schedules are walked. */
  const Started: seq<Status.Action> := [Status.StartFetchGaroon, Status.EndFetchGaroon(Status.Success), Status.StartSyncGoogleCalendar]

  /** Why `sync` throws. */
  datatype SyncError = UrlNotSet(message: string) | QueryRejected(error: StoreError<ParseError>)

  const UrlNotSetMessage: string := "Before sync, garoon event page URL is not set."

  /** The ids of the cached documents the range query of a cycle starting at `now` selects. */
  function RangeIds(docs: map<string, StoredSchedule>, now: Moment, periodEnd: Moment): set<string> {
    Selected(docs, SerializeDateTime(DateTime(now, false), true), SerializeDateTime(DateTime(periodEnd, false), false))
  }

  /** The range query rejects: the datastore fails, or a selected document does not parse. */
  predicate QueryFails(docs: map<string, StoredSchedule>, now: Moment, periodEnd: Moment, queryFailed: bool, db: TimeZoneDb) {
    queryFailed || exists id :: id in RangeIds(docs, now, periodEnd) && Deserialize(docs[id], db).Failure?
  }

  /** `s` is what some document among `ids` parses to. */
  predicate ParsedFrom(docs: map<string, StoredSchedule>, ids: set<string>, s: Schedule, db: TimeZoneDb) {
    exists id :: id in ids && id in docs && Deserialize(docs[id], db) == Success(s)
  }

  /**
   * `stored` is every document among `ids` parsed, each exactly once, in the order `order` in
   * which the datastore yielded their ids.
   */
  ghost predicate QueriedInOrder(docs: map<string, StoredSchedule>, ids: set<string>, order: seq<string>, stored: seq<Schedule>, db: TimeZoneDb) {
    |stored| == |order|
    && (forall id :: id in ids <==> id in order)
    && (forall i, j :: 0 <= i < j < |order| ==> order[i] != order[j])
    && (forall i :: 0 <= i < |order| ==> order[i] in docs && Deserialize(docs[order[i]], db) == Success(stored[i]))
  }

  /** What `getSchedules` yielded for a cycle, in terms of the cached documents. */
  lemma QueryOutcome(docs: map<string, StoredSchedule>, deserializer: StoredSchedule -> Result<Schedule, ParseError>, db: TimeZoneDb,
                     now: Moment, periodEnd: Moment, queryFailed: bool, r: Result<seq<Schedule>, StoreError<ParseError>>, order: seq<string>)
    requires forall doc :: deserializer(doc) == Deserialize(doc, db)
    requires queryFailed ==> r == Failure(QueryFailed)
    requires r.Success? ==>
      |r.value| == |order|
      && (forall id :: id in RangeIds(docs, now, periodEnd) <==> id in order)
      && (forall i, j :: 0 <= i < j < |order| ==> order[i] != order[j])
      && (forall i :: 0 <= i < |order| ==> order[i] in docs && deserializer(docs[order[i]]) == Success(r.value[i]))
    requires !queryFailed && r.Failure? ==>
      r.error.Unreadable? && exists id :: id in RangeIds(docs, now, periodEnd) && deserializer(docs[id]) == Failure(r.error.error)
    ensures r.Success? <==> !QueryFails(docs, now, periodEnd, queryFailed, db)
    ensures r.Success? ==> forall i :: 0 <= i < |r.value| ==> ParsedFrom(docs, RangeIds(docs, now, periodEnd), r.value[i], db)
    ensures r.Success? ==> QueriedInOrder(docs, RangeIds(docs, now, periodEnd), order, r.value, db)
  {
    if r.Success? {
      forall i | 0 <= i < |order|
        ensures Deserialize(docs[order[i]], db) == Success(r.value[i])
      {
        assert deserializer(docs[order[i]]) == Success(r.value[i]);
      }
      forall i | 0 <= i < |r.value|
        ensures ParsedFrom(docs, RangeIds(docs, now, periodEnd), r.value[i], db)
      {
        var id := order[i];
        assert id in order;
        assert id in RangeIds(docs, now, periodEnd);
        assert Deserialize(docs[id], db) == deserializer(docs[id]) == Success(r.value[i]);
      }
      forall id | id in RangeIds(docs, now, periodEnd)
        ensures Deserialize(docs[id], db).Success?
      {
        var i :| 0 <= i < |order| && order[i] == id;
        assert deserializer(docs[order[i]]) == Success(r.value[i]);
      }
    }
  }

  /** The status store of the main process, which the cycle dispatches to. */
  class StatusStore {
    var state: Status.State

    constructor()
      ensures state == Status.InitialState()
    {
      state := Status.InitialState();
    }

    method Dispatch(a: Status.Action, now: Moment)
      modifies this
      ensures state == Status.Reduce(old(state), a, now)
    {
      state := Status.Reduce(state, a, now);
    }
  }

  class Synchronizer {
    const google: GoogleCalendar
    const garoon: GaroonClient
    const status: StatusStore
    const db: TimeZoneDb

    constructor(google: GoogleCalendar, garoon: GaroonClient, status: StatusStore, db: TimeZoneDb)
      ensures this.google == google && this.garoon == garoon && this.status == status && this.db == db
    {
      this.google := google;
      this.garoon := garoon;
      this.status := status;
      this.db := db;
    }

    /** `fetchGaroonSchedules(start, end, maxRetry)`, retrying recursively. */
    method FetchGaroonSchedules(maxRetry: nat) returns (r: Result<seq<Schedule>, FetchFailure>)
      modifies garoon
      ensures (r, garoon.rangeAnswers) == Fetch(old(garoon.rangeAnswers), maxRetry, db)
      ensures garoon.idAnswers == old(garoon.idAnswers)
      decreases maxRetry
    {
      var a := garoon.GetEvents();
      r := Received(a, db);
      if r.Failure? && maxRetry > 0 {
        r := FetchGaroonSchedules(maxRetry - 1);
      }
    }

    /** `fetchGaroonSchedulesByIds(ids, maxRetry)`: nothing is asked for an empty list. */
    method FetchGaroonSchedulesByIds(ids: seq<string>, maxRetry: nat) returns (r: Result<seq<Schedule>, FetchFailure>)
      modifies garoon
      ensures (r, garoon.idAnswers) == FetchByIds(ids, old(garoon.idAnswers), maxRetry, db)
      ensures garoon.rangeAnswers == old(garoon.rangeAnswers)
      decreases maxRetry
    {
      if |ids| == 0 {
        return Success([]);
      }
      var a := garoon.GetEventsByIds();
      r := Received(a, db);
      if r.Failure? && maxRetry > 0 {
        r := FetchGaroonSchedulesByIds(ids, maxRetry - 1);
      }
    }

    /** One id of `syncSchedulesNotInStore`; `false` when a call rejects. */
    method ReconcileId(id: string, refetched: seq<Schedule>, url: string, store: ScheduleStore, faults: Faults, ghost t: Tally)
      returns (ok: bool)
      requires store.base.idOf == ScheduleId && store.base.serializer == Serialize
      modifies google, store.base
      ensures var v := ReconcileOne(World(old(google.events), old(store.base.docs), t, false), id, refetched, faults, url, db);
        google.events == v.events && store.base.docs == v.docs && ok == !v.halted
    {
      var found := Find(refetched, id);
      var faulty := id in faults.google;
      if found.Some? {
        var s := found.value;
        var r := google.UpdateEvent(ToGoogleCalendarEvent(s, url, db), faulty);
        if r.Failure? {
          return false;
        }
        var written := store.base.Set(s, None, s.id in faults.unwritable);
        return written.Success?;
      } else {
        var r := google.DeleteEvent(id, faulty);
        if r.Failure? {
          return false;
        }
        store.base.Remove(id);
        return true;
      }
    }

    /** The loop of `syncSchedulesNotInStore` over the refetched schedules; `false` when an id rejects. */
    method ReconcileIds(ids: seq<string>, refetched: seq<Schedule>, url: string, store: ScheduleStore, faults: Faults, ghost w: World)
      returns (ok: bool)
      requires w == World(google.events, store.base.docs, w.tally, false)
      requires store.base.idOf == ScheduleId && store.base.serializer == Serialize
      modifies google, store.base
      ensures var v := ReconcileAll(w, ids, refetched, faults, url, db);
        google.events == v.events && store.base.docs == v.docs && ok == !v.halted && v.tally == w.tally
    {
      var i := 0;
      while i < |ids|
        invariant 0 <= i <= |ids|
        invariant var v := ReconcileAll(w, ids[..i], refetched, faults, url, db);
          google.events == v.events && store.base.docs == v.docs && !v.halted && v.tally == w.tally
      {
        assert ids[..i + 1][..i] == ids[..i];
        ok := ReconcileId(ids[i], refetched, url, store, faults, w.tally);
        if !ok {
          ReconcileStops(w, ids, i + 1, refetched, faults, url, db);
          return false;
        }
        i := i + 1;
      }
      assert ids[..|ids|] == ids;
      return true;
    }

    /** `syncSchedulesNotInStore`: refetch the ids only the cache knows, then settle each; `false` when the phase rejects. */
    method SyncSchedulesNotInStore(fetched: seq<Schedule>, stored: seq<Schedule>, url: string, store: ScheduleStore, faults: Faults, ghost w: World)
      returns (ok: bool)
      requires w == World(google.events, store.base.docs, w.tally, false)
      requires store.base.idOf == ScheduleId && store.base.serializer == Serialize
      modifies google, garoon, store.base
      ensures var v := ReconcilePhase(w, OnlyInStore(stored, IdsOf(fetched)), old(garoon.idAnswers), faults, url, db);
        google.events == v.events && store.base.docs == v.docs && ok == !v.halted && v.tally == w.tally
      ensures garoon.idAnswers == FetchByIds(OnlyInStore(stored, IdsOf(fetched)), old(garoon.idAnswers), 0, db).1
      ensures garoon.rangeAnswers == old(garoon.rangeAnswers)
    {
      var ids := OnlyInStore(stored, IdsOf(fetched));
      var refetched := FetchGaroonSchedulesByIds(ids, 0);
      if refetched.Failure? {
        return false;
      }
      ok := ReconcileIds(ids, refetched.value, url, store, faults, w);
    }

    /** The calendar calls for one schedule, with their fallbacks; which write succeeded, if any. */
    method WriteCalendar(cached: Option<Schedule>, s: Schedule, json: GoogleEvent, faulty: bool) returns (written: Written)
      modifies google
      ensures (written, google.events) == GoogleWrite(old(google.events), faulty, cached, s, json)
    {
      if cached.None? {
        var r := google.InsertEvent(json, faulty);
        if r.Success? {
          return Added;
        } else if r.error.reason == AlreadyExists {
          var r2 := google.UpdateEvent(json, faulty);
          return if r2.Success? then Modified else NotWritten;
        }
        return NotWritten;
      } else if cached.value.version == s.version {
        return Ignored;
      } else {
        var r := google.UpdateEvent(json, faulty);
        if r.Success? {
          return Modified;
        } else if r.error.reason == NotFound {
          var r2 := google.InsertEvent(json, faulty);
          return if r2.Success? then Added else NotWritten;
        }
        return NotWritten;
      }
    }

    /** One schedule of the `reduce` chain of `sync`; `false` when the chain rejects. */
    method SyncSchedule(s: Schedule, url: string, store: ScheduleStore, faults: Faults, tally: Tally)
      returns (ok: bool, t: Tally)
      requires store.base.idOf == ScheduleId && store.base.serializer == Serialize
      requires forall doc :: store.base.deserializer(doc) == Deserialize(doc, db)
      modifies google, store.base
      ensures var v := SyncOne(World(old(google.events), old(store.base.docs), tally, false), s, faults, url, db);
        google.events == v.events && store.base.docs == v.docs && ok == !v.halted && (ok ==> t == v.tally)
    {
      t := tally;
      var cached := store.base.Get(s.id, None, s.id in faults.unreadable);
      if cached.Failure? {
        return false, t;
      }
      if s.id in store.base.docs {
        assert store.base.deserializer(store.base.docs[s.id]) == Deserialize(store.base.docs[s.id], db);
      }
      assert cached == Cached(store.base.docs, s.id, db);
      var written := WriteCalendar(cached.value, s, ToGoogleCalendarEvent(s, url, db), s.id in faults.google);
      t := Count(t, written);
      if written == Added || written == Modified {
        var stored := store.base.Set(s, None, s.id in faults.unwritable);
        if stored.Failure? {
          return false, t;
        }
      }
      return true, t;
    }

    /** The `reduce` chain over the fetched schedules, reporting progress after each; `false` when it rejects. */
    method SyncFetched(fetched: seq<Schedule>, url: string, store: ScheduleStore, faults: Faults, now: Moment, ghost w: World)
      returns (ok: bool)
      requires w == World(google.events, store.base.docs, Tally(0, 0, 0), false)
      requires store.base.idOf == ScheduleId && store.base.serializer == Serialize
      requires forall doc :: store.base.deserializer(doc) == Deserialize(doc, db)
      modifies google, store.base, status
      ensures var v := SyncAll(w, fetched, faults, url, db);
        google.events == v.events && store.base.docs == v.docs && ok == !v.halted
      ensures ok ==> status.state == Status.Run(old(status.state), Status.ProgressUpdates(|fetched|, |fetched|), now)
      ensures !ok ==> status.state.syncing == old(status.state.syncing) && status.state.lastSyncTime == old(status.state.lastSyncTime)
    {
      var n := |fetched|;
      var i := 0;
      var tally := Tally(0, 0, 0);
      while i < n
        invariant 0 <= i <= n
        invariant var v := SyncAll(w, fetched[..i], faults, url, db);
          google.events == v.events && store.base.docs == v.docs && !v.halted && tally == v.tally
        invariant status.state == Status.Run(old(status.state), Status.ProgressUpdates(i, n), now)
        invariant status.state.syncing == old(status.state.syncing) && status.state.lastSyncTime == old(status.state.lastSyncTime)
      {
        assert fetched[..i + 1][..i] == fetched[..i];
        ok, tally := SyncSchedule(fetched[i], url, store, faults, tally);
        if !ok {
          HaltedStays(w, fetched, i + 1, faults, url, db);
          return false;
        }
        status.Dispatch(Status.UpdateProgress(Status.Progress(i, n)), now);
        Status.RunSnoc(old(status.state), Status.ProgressUpdates(i, n), Status.UpdateProgress(Status.Progress(i, n)), now);
        i := i + 1;
      }
      assert fetched[..n] == fetched;
      return true;
    }

    /**
     * The part of `sync` after the range query: fetch from the groupware, settle the cached
     * schedules the fetch lost, then write each fetched schedule, dispatching the status actions
     * as it goes. `stored` is what the range query yielded; `false` when a step rejects.
     */
    method Cycle(stored: seq<Schedule>, url: string, store: ScheduleStore, now: Moment, faults: Faults) returns (ok: bool)
      requires store.base.idOf == ScheduleId && store.base.serializer == Serialize
      requires forall doc :: store.base.deserializer(doc) == Deserialize(doc, db)
      modifies google, garoon, status, store.base
      ensures Fetch(old(garoon.rangeAnswers), 0, db).0.Failure? ==>
        !ok && google.events == old(google.events) && store.base.docs == old(store.base.docs)
        && status.state == Status.Run(old(status.state), [Status.StartFetchGaroon, Status.EndSync(Status.Failed)], now)
      ensures Fetch(old(garoon.rangeAnswers), 0, db).0.Success? ==>
        var fetched := Fetch(old(garoon.rangeAnswers), 0, db).0.value;
        var v := CycleWorld(World(old(google.events), old(store.base.docs), Tally(0, 0, 0), false), stored, fetched, old(garoon.idAnswers), faults, url, db);
        google.events == v.events && store.base.docs == v.docs && ok == !v.halted
        && (ok ==> status.state == Status.Run(old(status.state), Status.CompletedCycle(|fetched|), now))
        && (!ok ==>
              status.state.syncing == Status.Syncing(Status.Initial, Status.Failed)
              && status.state.progress == Status.NoProgress && status.state.lastSyncTime == old(status.state.lastSyncTime))
    {
      ghost var s0 := status.state;
      status.Dispatch(Status.StartFetchGaroon, now);
      var fetched := FetchGaroonSchedules(0);
      if fetched.Failure? {
        status.Dispatch(Status.EndSync(Status.Failed), now);
        return false;
      }
      status.Dispatch(Status.EndFetchGaroon(Status.Success), now);
      status.Dispatch(Status.StartSyncGoogleCalendar, now);
      assert status.state == Status.Run(s0, Started, now);

      ghost var w0 := World(google.events, store.base.docs, Tally(0, 0, 0), false);
      ok := SyncSchedulesNotInStore(fetched.value, stored, url, store, faults, w0);
      ghost var w1 := ReconcilePhase(w0, OnlyInStore(stored, IdsOf(fetched.value)), old(garoon.idAnswers), faults, url, db);
      if !ok {
        HaltedStays(w1, fetched.value, 0, faults, url, db);
        status.Dispatch(Status.EndSync(Status.Failed), now);
        return false;
      }

      ok := SyncFetched(fetched.value, url, store, faults, now, w1);
      if !ok {
        status.Dispatch(Status.EndSync(Status.Failed), now);
        return false;
      }
      Status.RunAppend(s0, Started, Status.ProgressUpdates(|fetched.value|, |fetched.value|), now);
      FinishCycle(s0, |fetched.value|, now);
    }

    /** The three actions a completed cycle dispatches after its last progress update. */
    method FinishCycle(ghost s0: Status.State, n: nat, now: Moment)
      requires status.state == Status.Run(s0, Started + Status.ProgressUpdates(n, n), now)
      modifies status
      ensures status.state == Status.Run(s0, Status.CompletedCycle(n), now)
    {
      ghost var body := Started + Status.ProgressUpdates(n, n);
      status.Dispatch(Status.UpdateProgress(Status.Progress(n, n)), now);
      Status.RunSnoc(s0, body, Status.UpdateProgress(Status.Progress(n, n)), now);
      status.Dispatch(Status.EndSyncGoogleCalendar(Status.Success), now);
      Status.RunSnoc(s0, body + [Status.UpdateProgress(Status.Progress(n, n))], Status.EndSyncGoogleCalendar(Status.Success), now);
      status.Dispatch(Status.EndSync(Status.Success), now);
      Status.RunSnoc(s0, body + [Status.UpdateProgress(Status.Progress(n, n))] + [Status.EndSyncGoogleCalendar(Status.Success)], Status.EndSync(Status.Success), now);
      assert body + [Status.UpdateProgress(Status.Progress(n, n))] + [Status.EndSyncGoogleCalendar(Status.Success)] + [Status.EndSync(Status.Success)]
        == Status.CompletedCycle(n);
    }

    /**
     * `sync(calendarId, scheduleStore)`: `url` is the configured event page URL, `now` the clock
     * reading and `periodEnd` thirty days later; `queryFailed` says whether the datastore fails
     * the range query. Returns whether the cycle completed, or the error it throws. `stored` is
     * the list the range query yields.
     */
    method Sync(calendarId: string, store: ScheduleStore, url: Option<string>, now: Moment, periodEnd: Moment, faults: Faults, queryFailed: bool)
      returns (r: Result<bool, SyncError>, ghost stored: seq<Schedule>, ghost order: seq<string>)
      requires store.base.idOf == ScheduleId && store.base.serializer == Serialize
      requires forall doc :: store.base.deserializer(doc) == Deserialize(doc, db)
      modifies google, garoon, status, store.base
      ensures url.None? || QueryFails(old(store.base.docs), now, periodEnd, queryFailed, db) ==>
        google.events == old(google.events) && store.base.docs == old(store.base.docs) && status.state == old(status.state)
        && garoon.rangeAnswers == old(garoon.rangeAnswers) && garoon.idAnswers == old(garoon.idAnswers)
      ensures url.None? ==> r == Failure(UrlNotSet(UrlNotSetMessage))
      ensures url.Some? && QueryFails(old(store.base.docs), now, periodEnd, queryFailed, db) ==> r.Failure? && r.error.QueryRejected?
      ensures url.Some? && !QueryFails(old(store.base.docs), now, periodEnd, queryFailed, db) ==>
        QueriedInOrder(old(store.base.docs), RangeIds(old(store.base.docs), now, periodEnd), order, stored, db)
      ensures url.Some? && !QueryFails(old(store.base.docs), now, periodEnd, queryFailed, db) && Fetch(old(garoon.rangeAnswers), 0, db).0.Failure? ==>
        r == Success(false) && google.events == old(google.events) && store.base.docs == old(store.base.docs)
        && status.state == Status.Run(old(status.state), [Status.StartFetchGaroon, Status.EndSync(Status.Failed)], now)
      ensures url.Some? && !QueryFails(old(store.base.docs), now, periodEnd, queryFailed, db) && Fetch(old(garoon.rangeAnswers), 0, db).0.Success? ==>
        var fetched := Fetch(old(garoon.rangeAnswers), 0, db).0.value;
        var v := CycleWorld(World(old(google.events), old(store.base.docs), Tally(0, 0, 0), false), stored, fetched, old(garoon.idAnswers), faults, url.value, db);
        google.events == v.events && store.base.docs == v.docs && r == Success(!v.halted)
        && (!v.halted ==> status.state == Status.Run(old(status.state), Status.CompletedCycle(|fetched|), now))
        && (v.halted ==>
              status.state.syncing == Status.Syncing(Status.Initial, Status.Failed)
              && status.state.progress == Status.NoProgress && status.state.lastSyncTime == old(status.state.lastSyncTime))
    {
      stored, order := [], [];
      if url.None? {
        return Failure(UrlNotSet(UrlNotSetMessage)), stored, order;
      }
      var inStore;
      inStore, order := store.GetSchedules(DateTime(now, false), DateTime(periodEnd, false), queryFailed);
      QueryOutcome(store.base.docs, store.base.deserializer, db, now, periodEnd, queryFailed, inStore, order);
      if inStore.Failure? {
        return Failure(QueryRejected(inStore.error)), stored, order;
      }
      stored := inStore.value;
      var ok := Cycle(inStore.value, url.value, store, now, faults);
      return Success(ok), stored, order;
    }
  }

  /** Once the only-in-cache phase stops, later ids change nothing. */
  lemma {:induction false} ReconcileStops(w: World, ids: seq<string>, k: nat, refetched: seq<Schedule>, faults: Faults, url: string, db: TimeZoneDb)
    requires k <= |ids| && ReconcileAll(w, ids[..k], refetched, faults, url, db).halted
    ensures ReconcileAll(w, ids, refetched, faults, url, db) == ReconcileAll(w, ids[..k], refetched, faults, url, db)
    decreases |ids| - k
  {
    if k < |ids| {
      assert ids[..k + 1][..k] == ids[..k];
      ReconcileStops(w, ids, k + 1, refetched, faults, url, db);
    } else {
      assert ids[..k] == ids;
    }
  }
}
