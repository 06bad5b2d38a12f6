/**
 * The groupware client the synchronizer reads from (src/app/js/main/garoon.ts is not part of
 * this model): each `getEvents` or `getEventsByIds` call answers with the next reply the server
 * has queued for that endpoint, and fails when the server is unreachable or has no reply left.
 */
module GaroonSource {
  import opened Wrappers
  import opened GaroonEvent

  /** One reply of the server: `schedule_event` absent, a single event, or an array of them. */
  datatype Answer = Answered(scheduleEvent: Option<OneOrMany<Event>>) | Unreachable

  /** The reply a call receives from a queue of replies: its head, or `Unreachable` when empty. */
  function NextAnswer(queue: seq<Answer>): Answer {
    if |queue| == 0 then Unreachable else queue[0]
  }

  /** The queue a call leaves behind. */
  function AfterCall(queue: seq<Answer>): (rest: seq<Answer>)
    ensures |queue| > 0 ==> |rest| == |queue| - 1 && queue == [queue[0]] + rest
    ensures |queue| == 0 ==> rest == []
  {
    if |queue| == 0 then [] else queue[1..]
  }

  class GaroonClient {
    /** Replies to `getEvents(start, end, true)`, in the order calls receive them. */
    var rangeAnswers: seq<Answer>
    /** Replies to `getEventsByIds(ids)`, in the order calls receive them. */
    var idAnswers: seq<Answer>

    constructor(rangeAnswers: seq<Answer>, idAnswers: seq<Answer>)
      ensures this.rangeAnswers == rangeAnswers && this.idAnswers == idAnswers
    {
      this.rangeAnswers := rangeAnswers;
      this.idAnswers := idAnswers;
    }

    /** `getEvents`: the next range reply. */
    method GetEvents() returns (a: Answer)
      modifies this
      ensures a == NextAnswer(old(rangeAnswers)) && rangeAnswers == AfterCall(old(rangeAnswers))
      ensures idAnswers == old(idAnswers)
    {
      a := NextAnswer(rangeAnswers);
      rangeAnswers := AfterCall(rangeAnswers);
    }

    /** `getEventsByIds`: the next by-id reply. */
    method GetEventsByIds() returns (a: Answer)
      modifies this
      ensures a == NextAnswer(old(idAnswers)) && idAnswers == AfterCall(old(idAnswers))
      ensures rangeAnswers == old(rangeAnswers)
    {
      a := NextAnswer(idAnswers);
      idAnswers := AfterCall(idAnswers);
    }
  }
}
