/**
 * The synchronization status of src/app/js/main/sync.ts: a Redux state of the current phase,
 * the result of the last step, a progress fraction and the time of the last successful sync,
 * changed only by the `reducer`. The clock read by `moment()` is the `now` parameter.
 */
module SyncStatus {
  import Wrappers
  import opened Calendar

  /** `SyncState`. */
  datatype Phase = Initial | FetchingGaroon | SyncingGoogleCalendar

  /** `SyncResult`: `Unknown` while idle or in progress. */
  datatype SyncResult = Unknown | Success | Failed

  /** `Progress`: a numerator over a denominator, with no check that one is at most the other. */
  datatype Progress = Progress(num: int, den: int)

  datatype Syncing = Syncing(state: Phase, result: SyncResult)

  datatype State = State(syncing: Syncing, progress: Progress, lastSyncTime: Wrappers.Option<Moment>)

  /** The six action creators; `Other` is any action of another module. */
  datatype Action =
    | StartFetchGaroon
    | EndFetchGaroon(result: SyncResult)
    | StartSyncGoogleCalendar
    | EndSyncGoogleCalendar(result: SyncResult)
    | UpdateProgress(progress: Progress)
    | EndSync(result: SyncResult)
    | Other

  /** The progress an idle synchronizer shows. */
  const NoProgress: Progress := Progress(0, 1)

  /** `initialState`: idle, nothing known, no progress and never synced. */
  function InitialState(): (s: State)
    ensures s.syncing.state == Initial && s.syncing.result == Unknown
    ensures s.progress.num == 0 && s.progress.den == 1 && s.lastSyncTime.None?
  {
    State(Syncing(Initial, Unknown), NoProgress, Wrappers.None)
  }

  /** `reducer`: each action's effect on the state; `now` is the clock reading of `EndSync`. */
  function Reduce(s: State, a: Action, now: Moment): (t: State)
    ensures a.StartFetchGaroon? ==> t.syncing == Syncing(FetchingGaroon, Unknown) && t.progress == s.progress && t.lastSyncTime == s.lastSyncTime
    ensures a.StartSyncGoogleCalendar? ==> t.syncing == Syncing(SyncingGoogleCalendar, Unknown) && t.progress == s.progress && t.lastSyncTime == s.lastSyncTime
    ensures a.EndFetchGaroon? || a.EndSyncGoogleCalendar? ==> t == s.(syncing := s.syncing.(result := a.result))
    ensures a.UpdateProgress? ==> t == s.(progress := a.progress)
    ensures a.EndSync? ==> t.syncing == Syncing(Initial, a.result) && t.progress == NoProgress
    ensures a.EndSync? && a.result == Success ==> t.lastSyncTime == Wrappers.Some(now)
    ensures a.EndSync? && a.result != Success ==> t.lastSyncTime == s.lastSyncTime
    ensures a.Other? ==> t == s
  {
    match a
    case StartFetchGaroon => s.(syncing := s.syncing.(state := FetchingGaroon, result := Unknown))
    case EndFetchGaroon(result) => s.(syncing := s.syncing.(result := result))
    case StartSyncGoogleCalendar => s.(syncing := s.syncing.(state := SyncingGoogleCalendar, result := Unknown))
    case EndSyncGoogleCalendar(result) => s.(syncing := s.syncing.(result := result))
    case UpdateProgress(progress) => s.(progress := progress)
    case EndSync(result) =>
      if result == Success then
        s.(syncing := s.syncing.(state := Initial, result := result), progress := NoProgress, lastSyncTime := Wrappers.Some(now))
      else
        s.(syncing := s.syncing.(state := Initial, result := result), progress := NoProgress)
    case Other => s
  }

  /** The last sync time moves to `now` exactly on a successful `EndSync`, and otherwise stays. */
  lemma LastSyncTimeOnSuccessOnly(s: State, a: Action, now: Moment)
    ensures a == EndSync(Success) ==> Reduce(s, a, now).lastSyncTime == Wrappers.Some(now)
    ensures a != EndSync(Success) ==> Reduce(s, a, now).lastSyncTime == s.lastSyncTime
  {
  }

  /** The state after a sequence of dispatched actions, all ending with the same clock reading. */
  function Run(s: State, actions: seq<Action>, now: Moment): State
    decreases |actions|
  {
    if |actions| == 0 then s else Run(Reduce(s, actions[0], now), actions[1..], now)
  }

  /** Dispatching two sequences one after the other is dispatching their concatenation. */
  lemma {:induction false} RunAppend(s: State, xs: seq<Action>, ys: seq<Action>, now: Moment)
    ensures Run(s, xs + ys, now) == Run(Run(s, xs, now), ys, now)
    decreases |xs|
  {
    if |xs| > 0 {
      assert (xs + ys)[0] == xs[0];
      assert (xs + ys)[1..] == xs[1..] + ys;
      RunAppend(Reduce(s, xs[0], now), xs[1..], ys, now);
    } else {
      assert xs + ys == ys;
    }
  }

  /** Dispatching one more action. */
  lemma RunSnoc(s: State, xs: seq<Action>, a: Action, now: Moment)
    ensures Run(s, xs + [a], now) == Reduce(Run(s, xs, now), a, now)
  {
    RunAppend(s, xs, [a], now);
    assert Run(Run(s, xs, now), [a], now) == Run(Reduce(Run(s, xs, now), a, now), [], now);
  }

  /** Without a successful `EndSync` the last sync time survives any sequence of actions. */
  lemma {:induction false} LastSyncTimeKept(s: State, actions: seq<Action>, now: Moment)
    requires forall i :: 0 <= i < |actions| ==> actions[i] != EndSync(Success)
    ensures Run(s, actions, now).lastSyncTime == s.lastSyncTime
    decreases |actions|
  {
    if |actions| > 0 {
      LastSyncTimeOnSuccessOnly(s, actions[0], now);
      LastSyncTimeKept(Reduce(s, actions[0], now), actions[1..], now);
    }
  }

  /** The progress updates a cycle over `n` schedules dispatches after each of them: (i, n) for i < n. */
  function ProgressUpdates(k: nat, n: int): (r: seq<Action>)
    ensures |r| == k
    ensures forall i :: 0 <= i < k ==> r[i] == UpdateProgress(Progress(i, n))
  {
    if k == 0 then [] else ProgressUpdates(k - 1, n) + [UpdateProgress(Progress(k - 1, n))]
  }

  /** Progress updates only change the progress, to the last one dispatched. */
  lemma {:induction false} ProgressOnly(s: State, k: nat, n: int, now: Moment)
    ensures Run(s, ProgressUpdates(k, n), now).syncing == s.syncing
    ensures Run(s, ProgressUpdates(k, n), now).lastSyncTime == s.lastSyncTime
    ensures k > 0 ==> Run(s, ProgressUpdates(k, n), now).progress == Progress(k - 1, n)
    ensures k == 0 ==> Run(s, ProgressUpdates(k, n), now) == s
  {
    if k > 0 {
      ProgressOnly(s, k - 1, n, now);
      RunAppend(s, ProgressUpdates(k - 1, n), [UpdateProgress(Progress(k - 1, n))], now);
    }
  }

  /** The actions a cycle of the synchronizer dispatches when it completes over `n` schedules. */
  function CompletedCycle(n: nat): seq<Action> {
    [StartFetchGaroon, EndFetchGaroon(Success), StartSyncGoogleCalendar]
    + ProgressUpdates(n, n)
    + [UpdateProgress(Progress(n, n)), EndSyncGoogleCalendar(Success), EndSync(Success)]
  }

  /** A completed cycle leaves the synchronizer idle, successful, with no progress and synced at `now`. */
  lemma CompletedCycleEnds(s: State, n: nat, now: Moment)
    ensures Run(s, CompletedCycle(n), now) == State(Syncing(Initial, Success), NoProgress, Wrappers.Some(now))
  {
    var body := [StartFetchGaroon, EndFetchGaroon(Success), StartSyncGoogleCalendar]
      + ProgressUpdates(n, n) + [UpdateProgress(Progress(n, n)), EndSyncGoogleCalendar(Success)];
    assert CompletedCycle(n) == body + [EndSync(Success)];
    RunAppend(s, body, [EndSync(Success)], now);
    var last := Run(s, body, now);
    assert Run(last, [EndSync(Success)], now) == Run(Reduce(last, EndSync(Success), now), [], now);
  }

  /** A cycle whose fetch from the groupware fails leaves the synchronizer idle and failed, keeping the last sync time. */
  lemma FailedFetchEnds(s: State, now: Moment)
    ensures Run(s, [StartFetchGaroon, EndSync(Failed)], now) == State(Syncing(Initial, Failed), NoProgress, s.lastSyncTime)
  {
  }
}
