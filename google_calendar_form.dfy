/**
 * The calendar pages of the tutorial wizard (src/app/js/renderer/modules/google-calendar.ts): a
 * Redux state of the authorization code and its verification, the writable calendars once
 * loaded, and the one chosen as the synchronization target. Only the `reducer` is modelled; the
 * thunks that talk to the main process over IPC are not part of this model.
 */
module GoogleCalendarForm {
  import opened Wrappers

  /** `CodeVerifyState`. */
  datatype CodeVerifyState = Initial | Verifying | Verified

  /** `CodeVerifyResult`. */
  datatype CodeVerifyResult = Unknown | Valid | Invalid | Error

  /** `CalendarLoadState`; `NotLoaded` is its `Initial`. */
  datatype CalendarLoadState = NotLoaded | Loading | Loaded

  /** `CalendarLoadResult`: its `Unknown`, `Success` and `Error`. */
  datatype CalendarLoadResult = LoadUnknown | LoadSuccess | LoadError

  datatype CodeVerifying = CodeVerifying(state: CodeVerifyState, result: CodeVerifyResult)

  datatype CalendarLoading = CalendarLoading(state: CalendarLoadState, result: CalendarLoadResult)

  /** A calendar of the account (src/app/js/common/google.ts). */
  datatype Calendar = Calendar(id: string, summary: string)

  /** `GoogleCalendarState`; `calendarId` is `None` while no calendar is chosen. */
  datatype State = State(
    verifying: CodeVerifying,
    authorizationCode: string,
    calendars: seq<Calendar>,
    calendarId: Option<string>,
    calendarLoading: CalendarLoading)

  /** The seven action creators; `Other` is any action of another module. */
  datatype Action =
    | SetAuthorizationCode(code: string)
    | StartVerifyAuthorizationCode
    | EndVerifyAuthorizationCode(verifyState: CodeVerifyState, verifyResult: CodeVerifyResult)
    | SetCalendars(calendars: seq<Calendar>)
    | SelectCalendar(id: string)
    | StartCalendarLoad
    | EndCalendarLoad(loadState: CalendarLoadState, loadResult: CalendarLoadResult)
    | Other

  /** `initialState`: nothing verified or loaded, no code, no calendars and none chosen. */
  function InitialState(): (s: State)
    ensures s.verifying == CodeVerifying(Initial, Unknown) && s.calendarLoading == CalendarLoading(NotLoaded, LoadUnknown)
    ensures s.authorizationCode == "" && s.calendars == [] && s.calendarId.None?
  {
    State(CodeVerifying(Initial, Unknown), "", [], None, CalendarLoading(NotLoaded, LoadUnknown))
  }

  /** `reducer`: each action's effect on the state. */
  function Reduce(s: State, a: Action): (t: State)
    ensures a.SetAuthorizationCode? ==> t == s.(authorizationCode := a.code)
    ensures a.StartVerifyAuthorizationCode? ==> t == s.(verifying := CodeVerifying(Verifying, s.verifying.result))
    ensures a.EndVerifyAuthorizationCode? ==> t == s.(verifying := CodeVerifying(a.verifyState, a.verifyResult))
    ensures a.SetCalendars? ==> t == s.(calendars := a.calendars, calendarId := None)
    ensures a.SelectCalendar? ==> t == s.(calendarId := Some(a.id))
    ensures a.StartCalendarLoad? ==> t == s.(calendarLoading := CalendarLoading(Loading, s.calendarLoading.result))
    ensures a.EndCalendarLoad? ==> t == s.(calendarLoading := CalendarLoading(a.loadState, a.loadResult))
    ensures a.Other? ==> t == s
  {
    match a
    case SetAuthorizationCode(code) => s.(authorizationCode := code)
    case StartVerifyAuthorizationCode => s.(verifying := s.verifying.(state := Verifying))
    case EndVerifyAuthorizationCode(state, result) => s.(verifying := s.verifying.(state := state, result := result))
    case SetCalendars(calendars) => s.(calendarId := None, calendars := calendars)
    case SelectCalendar(id) => s.(calendarId := Some(id))
    case StartCalendarLoad => s.(calendarLoading := s.calendarLoading.(state := Loading))
    case EndCalendarLoad(state, result) => s.(calendarLoading := s.calendarLoading.(state := state, result := result))
    case Other => s
  }

  /** The state after a sequence of dispatched actions. */
  function Run(s: State, actions: seq<Action>): State
    decreases |actions|
  {
    if |actions| == 0 then s else Run(Reduce(s, actions[0]), actions[1..])
  }

  /** Dispatching one more action. */
  lemma {:induction false} RunSnoc(s: State, xs: seq<Action>, a: Action)
    ensures Run(s, xs + [a]) == Reduce(Run(s, xs), a)
    decreases |xs|
  {
    if |xs| == 0 {
      assert xs + [a] == [a];
      assert Run(s, [a]) == Run(Reduce(s, a), []);
    } else {
      assert (xs + [a])[0] == xs[0];
      assert (xs + [a])[1..] == xs[1..] + [a];
      RunSnoc(Reduce(s, xs[0]), xs[1..], a);
    }
  }

  /**
   * The chosen calendar, read backwards: the last `SelectCalendar` unless a `SetCalendars` came
   * after it, and the one chosen before the sequence if neither occurs.
   */
  function LastSelection(before: Option<string>, actions: seq<Action>): Option<string>
    decreases |actions|
  {
    if |actions| == 0 then before
    else match actions[|actions| - 1]
      case SelectCalendar(id) => Some(id)
      case SetCalendars(_) => None
      case _ => LastSelection(before, actions[..|actions| - 1])
  }

  /** The chosen calendar after any sequence of actions is the last selection not undone by a reload. */
  lemma {:induction false} SelectionAfterRun(s: State, actions: seq<Action>)
    ensures Run(s, actions).calendarId == LastSelection(s.calendarId, actions)
    decreases |actions|
  {
    if |actions| > 0 {
      var init := actions[..|actions| - 1];
      var last := actions[|actions| - 1];
      assert actions == init + [last];
      RunSnoc(s, init, last);
      SelectionAfterRun(s, init);
    }
  }

  /** Dispatching two actions, and three. */
  lemma RunShort(s: State, a: Action, b: Action, c: Action)
    ensures Run(s, [a, b]) == Reduce(Reduce(s, a), b)
    ensures Run(s, [a, b, c]) == Reduce(Reduce(Reduce(s, a), b), c)
  {
    RunSnoc(s, [], a);
    assert [] + [a] == [a];
    RunSnoc(s, [a], b);
    assert [a] + [b] == [a, b];
    RunSnoc(s, [a, b], c);
    assert [a, b] + [c] == [a, b, c];
  }

  /** Loading a new list of calendars always drops the choice, whatever it was. */
  lemma ReloadClearsSelection(s: State, calendars: seq<Calendar>, id: string)
    ensures Run(s, [SelectCalendar(id), SetCalendars(calendars)]).calendarId.None?
    ensures Run(s, [SetCalendars(calendars), SelectCalendar(id)]) == s.(calendars := calendars, calendarId := Some(id))
  {
    RunShort(s, SelectCalendar(id), SetCalendars(calendars), Other);
    RunShort(s, SetCalendars(calendars), SelectCalendar(id), Other);
  }

  /** A successful load as `loadWritableCalendars` dispatches it: the list, then the end of loading. */
  lemma LoadCycle(s: State, calendars: seq<Calendar>)
    ensures Run(s, [StartCalendarLoad, SetCalendars(calendars), EndCalendarLoad(Loaded, LoadSuccess)])
         == s.(calendars := calendars, calendarId := None, calendarLoading := CalendarLoading(Loaded, LoadSuccess))
  {
    RunShort(s, StartCalendarLoad, SetCalendars(calendars), EndCalendarLoad(Loaded, LoadSuccess));
  }
}
