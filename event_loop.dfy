/**
 * The platform timer API (setTimeout / clearTimeout) as the two schedulers
 * see it. Time itself is abstracted away: a queued callback runs when the
 * `Expired` event of its scheduler names its timer id.
 */
module EventLoop {

  /**
   * A setTimeout handle. `WellFormed` keeps every id a scheduler hands out
   * positive, so `if (timer)` is true of each of them.
   */
  type TimerId = nat

  /** One call of a scheduler's target function with one argument list. */
  datatype Call<F, A> = Call(target: F, args: A)

  /**
   * The callbacks one scheduler instance has queued with setTimeout and that
   * have neither run nor been cleared, by id; and the id the next setTimeout
   * hands out.
   */
  datatype Timers<C> = Timers(queue: map<TimerId, C>, nextId: TimerId)

  /** Every queued id is positive and was handed out earlier. */
  ghost predicate WellFormed<C>(t: Timers<C>)
  {
    0 < t.nextId && forall id :: id in t.queue ==> 0 < id < t.nextId
  }

  function NoTimers<C>(): (t: Timers<C>)
    ensures WellFormed(t) && t.queue == map[]
  {
    Timers(map[], 1)
  }

  /** setTimeout(callback, …): queue `callback` under a fresh, truthy id. */
  function SetTimeout<C>(t: Timers<C>, callback: C): (r: (Timers<C>, TimerId))
    ensures WellFormed(t) ==> WellFormed(r.0) && 0 < r.1 && r.1 !in t.queue
    ensures r.0.queue == t.queue[r.1 := callback]
  {
    (Timers(t.queue[t.nextId := callback], t.nextId + 1), t.nextId)
  }

  /**
   * clearTimeout(id): drop the callback queued under `id`, if any; the other
   * timers stay queued. A timer that has already run leaves the queue the
   * same way, so clearing it again does nothing.
   */
  function ClearTimeout<C>(t: Timers<C>, id: TimerId): (r: Timers<C>)
    ensures id !in r.queue
    ensures forall other :: other in t.queue && other != id ==> other in r.queue && r.queue[other] == t.queue[other]
    ensures r.queue.Keys <= t.queue.Keys && r.nextId == t.nextId
    ensures WellFormed(t) ==> WellFormed(r)
  {
    Timers(t.queue - {id}, t.nextId)
  }
}
