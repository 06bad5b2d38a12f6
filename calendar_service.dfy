/**
 * The Google Calendar the synchronizer writes to, as the `insertEvent`, `updateEvent` and
 * `deleteEvent` calls of src/app/js/main/google.ts see it: a map from event id to event. A call
 * either succeeds or rejects with the response `createErrorResponse` builds from the API's
 * status code. Inserting an id that exists answers 409, updating or deleting one that does not
 * answers 404, and a call the service cannot serve (`faulty`) answers with an error that carries
 * no code.
 */
module CalendarService {
  import opened Wrappers
  import opened Schedules
  import opened GoogleErrors

  const InsertMessage: string := "Error while trying to insert a event into a calendar."
  const UpdateMessage: string := "Error while trying to update a event into a calendar."
  const DeleteMessage: string := "Error while trying to delete a event into a calendar."

  /** The rejection for an API error with status `code` (`None`: no code). */
  function Rejection(message: string, code: Option<int>): (e: ErrorResponse)
    ensures e.message == message && e.payload == Some(ApiError(code))
    ensures e.reason == NotFound <==> code == Some(404)
    ensures e.reason == AlreadyExists <==> code == Some(409)
  {
    CreateErrorResponse(message, Some(ApiError(code))).value
  }

  /** What `insertEvent` answers and the calendar it leaves. */
  function InsertResult(events: map<string, GoogleEvent>, faulty: bool, e: GoogleEvent): (r: (Result<(), ErrorResponse>, map<string, GoogleEvent>))
    ensures r.0.Success? <==> !faulty && e.id !in events
    ensures r.0.Success? ==> r.1 == events[e.id := e]
    ensures r.0.Failure? ==> r.1 == events && r.0.error.message == InsertMessage
    ensures r.0.Failure? ==> (r.0.error.reason == AlreadyExists <==> !faulty)
  {
    if faulty then (Failure(Rejection(InsertMessage, None)), events)
    else if e.id in events then (Failure(Rejection(InsertMessage, Some(409))), events)
    else (Success(()), events[e.id := e])
  }

  /** What `updateEvent` answers and the calendar it leaves. */
  function UpdateResult(events: map<string, GoogleEvent>, faulty: bool, e: GoogleEvent): (r: (Result<(), ErrorResponse>, map<string, GoogleEvent>))
    ensures r.0.Success? <==> !faulty && e.id in events
    ensures r.0.Success? ==> r.1 == events[e.id := e]
    ensures r.0.Failure? ==> r.1 == events && r.0.error.message == UpdateMessage
    ensures r.0.Failure? ==> (r.0.error.reason == NotFound <==> !faulty)
  {
    if faulty then (Failure(Rejection(UpdateMessage, None)), events)
    else if e.id !in events then (Failure(Rejection(UpdateMessage, Some(404))), events)
    else (Success(()), events[e.id := e])
  }

  /** What `deleteEvent` answers and the calendar it leaves. */
  function DeleteResult(events: map<string, GoogleEvent>, faulty: bool, id: string): (r: (Result<(), ErrorResponse>, map<string, GoogleEvent>))
    ensures r.0.Success? <==> !faulty && id in events
    ensures r.0.Success? ==> r.1 == events - {id}
    ensures r.0.Failure? ==> r.1 == events && r.0.error.message == DeleteMessage
  {
    if faulty then (Failure(Rejection(DeleteMessage, None)), events)
    else if id !in events then (Failure(Rejection(DeleteMessage, Some(404))), events)
    else (Success(()), events - {id})
  }

  /** Inserting after a 409 always finds the event to update; updating after a 404 always finds room to insert. */
  lemma FallbacksSucceed(events: map<string, GoogleEvent>, e: GoogleEvent)
    ensures InsertResult(events, false, e).0.Failure? ==> UpdateResult(events, false, e) == (Success(()), events[e.id := e])
    ensures UpdateResult(events, false, e).0.Failure? ==> InsertResult(events, false, e) == (Success(()), events[e.id := e])
  {
  }

  /** The calendar of one account; `events` is what the service holds. */
  class GoogleCalendar {
    var events: map<string, GoogleEvent>

    constructor(events: map<string, GoogleEvent>)
      ensures this.events == events
    {
      this.events := events;
    }

    /** `insertEvent(calendarId, event)`. */
    method InsertEvent(e: GoogleEvent, faulty: bool) returns (r: Result<(), ErrorResponse>)
      modifies this
      ensures (r, events) == InsertResult(old(events), faulty, e)
    {
      var outcome := InsertResult(events, faulty, e);
      r, events := outcome.0, outcome.1;
    }

    /** `updateEvent(calendarId, event)`: the event id names the event to replace. */
    method UpdateEvent(e: GoogleEvent, faulty: bool) returns (r: Result<(), ErrorResponse>)
      modifies this
      ensures (r, events) == UpdateResult(old(events), faulty, e)
    {
      var outcome := UpdateResult(events, faulty, e);
      r, events := outcome.0, outcome.1;
    }

    /** `deleteEvent(calendarId, eventId)`. */
    method DeleteEvent(id: string, faulty: bool) returns (r: Result<(), ErrorResponse>)
      modifies this
      ensures (r, events) == DeleteResult(old(events), faulty, id)
    {
      var outcome := DeleteResult(events, faulty, id);
      r, events := outcome.0, outcome.1;
    }
  }
}
