/**
 * The tutorial wizard of src/app/js/renderer/modules/tutorial.ts: the page the wizard shows and
 * whether synchronization starts when it finishes, and the root reducer that combines it with
 * the account page and the calendar pages. The `submit` thunk, which sends the result to the
 * main process over IPC, is not part of this model.
 */
module Tutorial {
  import opened Wrappers
  import GaroonForm
  import GoogleCalendarForm

  /** The wizard's own state: a page index with no bounds, and the start-sync choice. */
  datatype State = State(stepIndex: int, startSyncAfterTutorial: bool)

  /** The three action creators; `Other` is any action of another module. */
  datatype Action = Next | Prev | SetStartSyncAfterTutorial(start: bool) | Other

  /** `initialState`: the first page, synchronizing afterwards. */
  function InitialState(): (s: State)
    ensures s.stepIndex == 0 && s.startSyncAfterTutorial
  {
    State(0, true)
  }

  /** `tutorialReducer`: `Next` and `Prev` move one page with no bounds check. */
  function Reduce(s: State, a: Action): (t: State)
    ensures a.Next? ==> t == s.(stepIndex := s.stepIndex + 1)
    ensures a.Prev? ==> t == s.(stepIndex := s.stepIndex - 1)
    ensures a.SetStartSyncAfterTutorial? ==> t == s.(startSyncAfterTutorial := a.start)
    ensures a.Other? ==> t == s
  {
    match a
    case Next => s.(stepIndex := s.stepIndex + 1)
    case Prev => s.(stepIndex := s.stepIndex - 1)
    case SetStartSyncAfterTutorial(start) => s.(startSyncAfterTutorial := start)
    case Other => s
  }

  /** `Prev` undoes `Next` and `Next` undoes `Prev`. */
  lemma PrevUndoesNext(s: State)
    ensures Reduce(Reduce(s, Next), Prev) == s
    ensures Reduce(Reduce(s, Prev), Next) == s
  {
  }

  /** Nothing keeps the index from going below the first page. */
  lemma PrevFromFirstPage()
    ensures Reduce(InitialState(), Prev).stepIndex == -1
  {
  }

  /** The state after a sequence of dispatched actions. */
  function Run(s: State, actions: seq<Action>): State
    decreases |actions|
  {
    if |actions| == 0 then s else Run(Reduce(s, actions[0]), actions[1..])
  }

  /** How many actions of a sequence are `a`. */
  function Occurrences(actions: seq<Action>, a: Action): (n: nat)
    ensures n <= |actions|
  {
    if |actions| == 0 then 0 else (if actions[0] == a then 1 else 0) + Occurrences(actions[1..], a)
  }

  /** After any sequence of actions the page index has moved by the `Next`s less the `Prev`s. */
  lemma {:induction false} StepIndexCounts(s: State, actions: seq<Action>)
    ensures Run(s, actions).stepIndex == s.stepIndex + Occurrences(actions, Next) - Occurrences(actions, Prev)
    decreases |actions|
  {
    if |actions| > 0 {
      StepIndexCounts(Reduce(s, actions[0]), actions[1..]);
    }
  }

  /** The root state `combineReducers` builds: one slice per page module. */
  datatype AppState = AppState(tutorial: State, garoon: GaroonForm.State, googleCalendar: GoogleCalendarForm.State)

  /** An action of one of the three modules; the action types of different modules never coincide. */
  datatype AppAction =
    | TutorialAction(tutorialAction: Action)
    | GaroonAction(garoonAction: GaroonForm.Action)
    | GoogleCalendarAction(googleCalendarAction: GoogleCalendarForm.Action)

  /** The root state before any action: each slice's initial state. */
  function InitialAppState(): (s: AppState)
    ensures s.tutorial == InitialState() && s.garoon == GaroonForm.InitialState()
    ensures s.googleCalendar == GoogleCalendarForm.InitialState()
  {
    AppState(InitialState(), GaroonForm.InitialState(), GoogleCalendarForm.InitialState())
  }

  /**
   * The root `reducer`: every slice reducer sees every action, and each treats the actions of
   * the other modules as unknown. A throw of the account page reducer is the root's throw.
   */
  function ReduceApp(s: AppState, a: AppAction, parse: string -> GaroonForm.ParseOutcome): (r: Result<AppState, GaroonForm.Thrown>)
    ensures r.Success? <==> GaroonForm.Reduce(s.garoon, if a.GaroonAction? then a.garoonAction else GaroonForm.Other, parse).Success?
    ensures a.TutorialAction? ==> r == Success(s.(tutorial := Reduce(s.tutorial, a.tutorialAction)))
    ensures a.GaroonAction? && r.Success? ==> r.value == s.(garoon := GaroonForm.Reduce(s.garoon, a.garoonAction, parse).value)
    ensures a.GoogleCalendarAction? ==>
      r == Success(s.(googleCalendar := GoogleCalendarForm.Reduce(s.googleCalendar, a.googleCalendarAction)))
  {
    var tutorial := Reduce(s.tutorial, if a.TutorialAction? then a.tutorialAction else Other);
    var garoon := GaroonForm.Reduce(s.garoon, if a.GaroonAction? then a.garoonAction else GaroonForm.Other, parse);
    var googleCalendar :=
      GoogleCalendarForm.Reduce(s.googleCalendar, if a.GoogleCalendarAction? then a.googleCalendarAction else GoogleCalendarForm.Other);
    if garoon.Failure? then Failure(garoon.error)
    else Success(AppState(tutorial, garoon.value, googleCalendar))
  }

  /** Only the account page can make the root reducer throw, and only while setting the event page URL. */
  lemma OnlyEventPageUrlThrows(s: AppState, a: AppAction, parse: string -> GaroonForm.ParseOutcome)
    ensures ReduceApp(s, a, parse).Failure? <==>
      a.GaroonAction? && a.garoonAction.SetEventPageUrl? && parse(a.garoonAction.value) == GaroonForm.ThrowsOther
  {
  }

  /** What the finishing `submit` sends: the chosen calendar and the start-sync choice. */
  function Submission(s: AppState): (r: (Option<string>, bool))
    ensures r.0 == s.googleCalendar.calendarId && r.1 == s.tutorial.startSyncAfterTutorial
  {
    (s.googleCalendar.calendarId, s.tutorial.startSyncAfterTutorial)
  }

  /** Moving through the pages never changes what the wizard will submit. */
  lemma PagingKeepsSubmission(s: AppState, a: Action, parse: string -> GaroonForm.ParseOutcome)
    requires a.Next? || a.Prev?
    ensures Submission(ReduceApp(s, TutorialAction(a), parse).value) == Submission(s)
  {
  }
}
