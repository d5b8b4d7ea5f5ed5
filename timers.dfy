/** The host's timer facility (`setInterval` / `clearInterval`), as seen by one
    component: the table of its uncancelled interval timers. */
module Timers {
  import opened JsValues

  type TimerId = int

  class TimerHost {
    /** Uncancelled interval timers, each with the delay it was scheduled with. */
    var active: map<TimerId, Option<int>>
    /** The id the next `setInterval` call returns; browsers hand out positive ids. */
    var nextId: TimerId

    /** Ids are positive, and every live id was handed out before `nextId`. */
    ghost predicate Valid()
      reads this
    {
      nextId >= 1 && forall id :: id in active ==> 1 <= id < nextId
    }

    constructor ()
      ensures Valid() && active == map[] && nextId == 1
    {
      active := map[];
      nextId := 1;
    }

    /** `setInterval(callback, delay)`: schedules a new recurring timer and returns its id. */
    method SetInterval(delay: Option<int>) returns (id: TimerId)
      requires Valid()
      modifies this
      ensures Valid()
      ensures id >= 1 && id !in old(active)
      ensures id == old(nextId) && nextId == id + 1
      ensures active == old(active)[id := delay]
    {
      id := nextId;
      active := active[id := delay];
      nextId := nextId + 1;
    }

    /** `clearInterval(id)`: cancels the timer `id`; an unknown or cancelled id is ignored. */
    method ClearInterval(id: TimerId)
      requires Valid()
      modifies this
      ensures Valid()
      ensures active == old(active) - {id} && nextId == old(nextId)
    {
      active := active - {id};
    }
  }
}
