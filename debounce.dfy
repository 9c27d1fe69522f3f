/**
 * The debounce hook `useDebounce` (one model for its TypeScript and its
 * JavaScript version, whose logic is the same): every call cancels the
 * pending timer and queues a new one that will call the target with this
 * call's arguments.
 */
module Debounce {
  import opened Wrappers
  import opened EventLoop

  /**
   * The queued callback `() => { fn(...args) }`, with the `fn` and the
   * arguments its closure captured, and the delay it was queued with.
   */
  datatype Pending<F, A> = Pending(fn: F, args: A, delay: nat)

  /**
   * The `fn` and `delay` the current `debouncedFn` closes over, the timer
   * ref, and this instance's queued timers.
   */
  datatype DebounceState<F, A> = DebounceState(
    fn: F,
    delay: nat,
    timerRef: Option<TimerId>,
    timers: Timers<Pending<F, A>>)

  type Outcome<F, A> = (DebounceState<F, A>, Option<Call<F, A>>)

  /** At most one timer is queued, and the ref names it. */
  ghost predicate Inv<F, A>(s: DebounceState<F, A>)
  {
    && WellFormed(s.timers)
    && (s.timerRef.Some? ==> 0 < s.timerRef.value < s.timers.nextId)
    && (forall id :: id in s.timers.queue ==> s.timerRef == Some(id))
  }

  /** The callbacks still waiting to run. */
  ghost function PendingCalls<F, A>(s: DebounceState<F, A>): set<Pending<F, A>>
  {
    s.timers.queue.Values
  }

  /** First render: the ref starts out empty. */
  function Mount<F, A>(fn: F, delay: nat): (s: DebounceState<F, A>)
    ensures Inv(s) && PendingCalls(s) == {}
  {
    DebounceState(fn, delay, None, NoTimers())
  }

  /** A call `debouncedFn(...args)`: clear the timer the ref names, then queue a new one. */
  function DebouncedFn<F, A>(s: DebounceState<F, A>, args: A): (t: DebounceState<F, A>)
    ensures Inv(s) ==> Inv(t)
    ensures t.timerRef.Some? && t.timerRef.value in t.timers.queue
    ensures t.timers.queue[t.timerRef.value] == Pending(s.fn, args, s.delay)
    ensures Inv(s) ==> t.timers.queue == map[t.timerRef.value := Pending(s.fn, args, s.delay)]
  {
    var cleared := if s.timerRef.Some? then ClearTimeout(s.timers, s.timerRef.value) else s.timers;
    var armed := SetTimeout(cleared, Pending(s.fn, args, s.delay));
    s.(timerRef := Some(armed.1), timers := armed.0)
  }

  /** Timer `id` expires: its callback calls the target it captured, if it is still queued. */
  function Expire<F, A>(s: DebounceState<F, A>, id: TimerId): (r: Outcome<F, A>)
    ensures Inv(s) ==> Inv(r.0)
    ensures r.1.Some? <==> id in s.timers.queue
    ensures id in s.timers.queue ==> r.1 == Some(Call(s.timers.queue[id].fn, s.timers.queue[id].args))
    ensures id in s.timers.queue ==> id !in r.0.timers.queue && r.0 == s.(timers := ClearTimeout(s.timers, id))
    ensures id !in s.timers.queue ==> r == (s, None)
  {
    if id in s.timers.queue then
      var p := s.timers.queue[id];
      (s.(timers := ClearTimeout(s.timers, id)), Some(Call(p.fn, p.args)))
    else
      (s, None)
  }

  /** A re-render with a new `fn` or `delay`: `debouncedFn` is rebuilt over them. */
  function Rebuild<F, A>(s: DebounceState<F, A>, fn: F, delay: nat): (t: DebounceState<F, A>)
    ensures Inv(s) ==> Inv(t)
    ensures t.fn == fn && t.delay == delay && t.timerRef == s.timerRef && t.timers == s.timers
  {
    s.(fn := fn, delay := delay)
  }

  /** The unmount cleanup: clear the timer the ref names, if it is set. */
  function Cleanup<F, A>(s: DebounceState<F, A>): (t: DebounceState<F, A>)
    ensures Inv(s) ==> Inv(t) && t.timers.queue == map[]
    ensures t == s.(timers := t.timers)
  {
    if s.timerRef.Some? then s.(timers := ClearTimeout(s.timers, s.timerRef.value)) else s
  }

  datatype Event<F, A> =
    | Invoked(args: A)
    | Expired(id: TimerId)
    | Rendered(fn: F, delay: nat)
    | Unmounted

  function Step<F, A>(s: DebounceState<F, A>, e: Event<F, A>): (r: Outcome<F, A>)
    ensures Inv(s) ==> Inv(r.0)
    ensures r.1.Some? ==> e.Expired?
  {
    match e
    case Invoked(args) => (DebouncedFn(s, args), None)
    case Expired(id) => Expire(s, id)
    case Rendered(fn, delay) => (Rebuild(s, fn, delay), None)
    case Unmounted => (Cleanup(s), None)
  }

  /** The final state and every call of the target, in order. */
  function Run<F, A>(s: DebounceState<F, A>, events: seq<Event<F, A>>): (r: (DebounceState<F, A>, seq<Call<F, A>>))
    ensures Inv(s) ==> Inv(r.0)
    ensures |r.1| <= |events|
    decreases |events|
  {
    if events == [] then
      (s, [])
    else
      var first := Step(s, events[0]);
      var rest := Run(first.0, events[1..]);
      (rest.0, first.1.ToSeq() + rest.1)
  }

  /** One call for each argument list, in order. */
  function Invokes<F, A>(xs: seq<A>): (events: seq<Event<F, A>>)
    ensures |events| == |xs|
    ensures forall i :: 0 <= i < |xs| ==> events[i] == Invoked(xs[i])
  {
    if xs == [] then [] else [Invoked(xs[0])] + Invokes(xs[1..])
  }

  lemma {:induction false} RunAppend<F, A>(s: DebounceState<F, A>, xs: seq<Event<F, A>>, ys: seq<Event<F, A>>)
    ensures Run(s, xs + ys) == (Run(Run(s, xs).0, ys).0, Run(s, xs).1 + Run(Run(s, xs).0, ys).1)
    decreases |xs|
  {
    if xs == [] {
      assert xs + ys == ys;
      assert Run(s, xs) == (s, []);
      assert [] + Run(s, ys).1 == Run(s, ys).1;
    } else {
      assert (xs + ys)[0] == xs[0];
      assert (xs + ys)[1..] == xs[1..] + ys;
      var first := Step(s, xs[0]);
      RunAppend(first.0, xs[1..], ys);
      var mid := Run(first.0, xs[1..]);
      var tail := Run(mid.0, ys);
      assert first.1.ToSeq() + (mid.1 + tail.1) == (first.1.ToSeq() + mid.1) + tail.1;
    }
  }

  lemma RunCons<F, A>(s: DebounceState<F, A>, e: Event<F, A>, rest: seq<Event<F, A>>)
    ensures var first := Step(s, e);
      Run(s, [e] + rest) == (Run(first.0, rest).0, first.1.ToSeq() + Run(first.0, rest).1)
  {
    assert ([e] + rest)[0] == e;
    assert ([e] + rest)[1..] == rest;
  }

  lemma RunOne<F, A>(s: DebounceState<F, A>, e: Event<F, A>)
    ensures Run(s, [e]) == (Step(s, e).0, Step(s, e).1.ToSeq())
  {
    RunCons(s, e, []);
    assert [e] + [] == [e];
    assert Step(s, e).1.ToSeq() + [] == Step(s, e).1.ToSeq();
  }

  /**
   * A call only schedules: the timer queued before is cancelled, and exactly
   * one timer, under a fresh id, now waits to call the current `fn` with
   * these arguments.
   */
  lemma InvokeReplacesPending<F, A>(s: DebounceState<F, A>, args: A)
    requires Inv(s)
    ensures var t := DebouncedFn(s, args);
      && t.timerRef.Some? && t.timerRef.value !in s.timers.queue
      && t.timers.queue == map[t.timerRef.value := Pending(s.fn, args, s.delay)]
      && PendingCalls(t) == {Pending(s.fn, args, s.delay)}
  {
    var t := DebouncedFn(s, args);
    assert t.timers.queue.Values == {Pending(s.fn, args, s.delay)} by {
      assert t.timers.queue[t.timerRef.value] == Pending(s.fn, args, s.delay);
    }
  }

  /** Calls and re-renders alone never call the target. */
  lemma {:induction false} NoCallWithoutExpiry<F, A>(s: DebounceState<F, A>, events: seq<Event<F, A>>)
    requires forall i :: 0 <= i < |events| ==> !events[i].Expired?
    ensures Run(s, events).1 == []
    decreases |events|
  {
    if events != [] {
      assert forall i :: 0 <= i < |events[1..]| ==> events[1..][i] == events[i + 1];
      NoCallWithoutExpiry(Step(s, events[0]).0, events[1..]);
    }
  }

  /**
   * A burst of calls leaves exactly one timer, the one the last call queued
   * under the id it was handed, waiting to call with the last arguments.
   */
  lemma {:induction false} BurstLeavesLastPending<F, A>(s: DebounceState<F, A>, xs: seq<A>)
    requires Inv(s) && xs != []
    ensures var n := s.timers.nextId;
      var w := Run(s, Invokes(xs)).0;
      && Run(s, Invokes(xs)).1 == []
      && w.timerRef == Some(n + |xs| - 1)
      && w.timers == Timers(map[n + |xs| - 1 := Pending(s.fn, Last(xs), s.delay)], n + |xs|)
      && w.fn == s.fn && w.delay == s.delay
    decreases |xs|
  {
    var first := DebouncedFn(s, xs[0]);
    assert Invokes<F, A>(xs) == [Invoked(xs[0])] + Invokes(xs[1..]);
    RunAppend(s, [Invoked(xs[0])], Invokes(xs[1..]));
    if xs[1..] == [] {
      assert Invokes<F, A>(xs[1..]) == [];
    } else {
      BurstLeavesLastPending(first, xs[1..]);
      assert Last(xs[1..]) == Last(xs);
    }
  }

  /**
   * A burst of calls with no expiry between them, then the expiry of the
   * timer the last one queued: the target is called exactly once, with the
   * last arguments; expiry of any other id calls nothing.
   */
  lemma BurstCallsOnceWithLast<F, A>(s: DebounceState<F, A>, xs: seq<A>, id: TimerId)
    requires Inv(s) && xs != []
    ensures var last := s.timers.nextId + |xs| - 1;
      var r := Run(s, Invokes(xs) + [Expired(id)]);
      r.1 == (if id == last then [Call(s.fn, Last(xs))] else [])
  {
    BurstLeavesLastPending(s, xs);
    RunAppend(s, Invokes(xs), [Expired(id)]);
    RunOne(Run(s, Invokes(xs)).0, Expired(id));
  }

  /**
   * Once the last timer of a burst has fired, nothing but a new call can
   * make the target run again: the burst gives exactly one call, whatever
   * expiries, re-renders and unmounts follow.
   */
  lemma BurstFiresOnlyOnce<F, A>(s: DebounceState<F, A>, xs: seq<A>, rest: seq<Event<F, A>>)
    requires Inv(s) && xs != []
    requires forall i :: 0 <= i < |rest| ==> !rest[i].Invoked?
    ensures var last := s.timers.nextId + |xs| - 1;
      Run(s, Invokes(xs) + [Expired(last)] + rest).1 == [Call(s.fn, Last(xs))]
  {
    var burst := BurstFires(s, xs);
    ThenQuiet(s, burst, rest);
  }

  /** Events other than calls, after everything queued has run or been cleared, add no call. */
  lemma ThenQuiet<F, A>(s: DebounceState<F, A>, before: seq<Event<F, A>>, rest: seq<Event<F, A>>)
    requires Run(s, before).0.timers.queue == map[]
    requires forall i :: 0 <= i < |rest| ==> !rest[i].Invoked?
    ensures Run(s, before + rest).1 == Run(s, before).1
  {
    var fired := Run(s, before);
    RunAppend(s, before, rest);
    QuietStaysQuiet(fired.0, rest);
    assert fired.1 + [] == fired.1;
  }

  /** A burst and the expiry of its last timer: one call, and nothing left queued. */
  lemma BurstFires<F, A>(s: DebounceState<F, A>, xs: seq<A>) returns (burst: seq<Event<F, A>>)
    requires Inv(s) && xs != []
    ensures burst == Invokes(xs) + [Expired(s.timers.nextId + |xs| - 1)]
    ensures Run(s, burst).1 == [Call(s.fn, Last(xs))] && Run(s, burst).0.timers.queue == map[]
  {
    var last := s.timers.nextId + |xs| - 1;
    burst := Invokes(xs) + [Expired(last)];
    BurstLeavesLastPending(s, xs);
    var w := Run(s, Invokes(xs));
    RunAppend(s, Invokes(xs), [Expired(last)]);
    RunOne(w.0, Expired(last));
    var e := Expire(w.0, last);
    assert e.0.timers.queue.Keys == {} by {
      assert e.0.timers.queue.Keys <= w.0.timers.queue.Keys;
      assert last !in e.0.timers.queue;
    }
    assert e.1 == Some(Call(s.fn, Last(xs)));
    assert Run(s, burst) == (e.0, [] + [Call(s.fn, Last(xs))]);
  }

  /** Each call followed by the expiry of the timer it queued. */
  function Spaced<F, A>(xs: seq<A>, id: TimerId): (events: seq<Event<F, A>>)
    ensures |events| == 2 * |xs|
    decreases |xs|
  {
    if xs == [] then [] else [Invoked(xs[0]), Expired(id)] + Spaced(xs[1..], id + 1)
  }

  /** The target called once with each argument list, in order. */
  function CallsWith<F, A>(fn: F, xs: seq<A>): (calls: seq<Call<F, A>>)
    ensures |calls| == |xs|
    ensures forall i :: 0 <= i < |xs| ==> calls[i] == Call(fn, xs[i])
    decreases |xs|
  {
    if xs == [] then [] else [Call(fn, xs[0])] + CallsWith(fn, xs[1..])
  }

  /** Calls spaced out so that each one's timer expires before the next: one target call per call. */
  lemma {:induction false} SpacedCallsEachFire<F, A>(s: DebounceState<F, A>, xs: seq<A>)
    requires Inv(s)
    ensures Run(s, Spaced(xs, s.timers.nextId)).1 == CallsWith(s.fn, xs)
    decreases |xs|
  {
    if xs != [] {
      var n := s.timers.nextId;
      var a := DebouncedFn(s, xs[0]);
      var b := Expire(a, n);
      var pair: seq<Event<F, A>> := [Invoked(xs[0]), Expired(n)];
      RunCons(s, Invoked(xs[0]), [Expired(n)]);
      RunOne(a, Expired(n));
      assert [Invoked(xs[0])] + [Expired(n)] == pair;
      assert a.timerRef == Some(n);
      assert b.1 == Some(Call(s.fn, xs[0]));
      assert Step(s, Invoked(xs[0])) == (a, None);
      assert Run(a, [Expired(n)]) == (b.0, [Call(s.fn, xs[0])]);
      assert [] + [Call(s.fn, xs[0])] == [Call(s.fn, xs[0])];
      assert Run(s, pair) == (b.0, [Call(s.fn, xs[0])]);
      RunAppend(s, pair, Spaced(xs[1..], n + 1));
      SpacedCallsEachFire(b.0, xs[1..]);
    }
  }

  /**
   * The target called at expiry is the `fn` captured when the call was
   * made, even if a re-render has replaced `fn` since.
   */
  lemma CallsCapturedTarget<F, A>(s: DebounceState<F, A>, x: A, g: F, d: nat)
    requires Inv(s)
    ensures Run(s, [Invoked(x), Rendered(g, d), Expired(s.timers.nextId)]).1 == [Call(s.fn, x)]
  {
    var n := s.timers.nextId;
    var a := DebouncedFn(s, x);
    var b := Rebuild(a, g, d);
    RunCons(s, Invoked(x), [Rendered(g, d), Expired(n)]);
    var events: seq<Event<F, A>> := [Invoked(x), Rendered(g, d), Expired(n)];
    assert [Invoked(x)] + [Rendered(g, d), Expired(n)] == events;
    RunCons(a, Rendered(g, d), [Expired(n)]);
    var later: seq<Event<F, A>> := [Rendered(g, d), Expired(n)];
    assert [Rendered(g, d)] + [Expired(n)] == later;
    RunOne(b, Expired(n));
  }

  /** After the unmount cleanup nothing is queued, so no expiry calls the target. */
  lemma {:induction false} UnmountSilences<F, A>(s: DebounceState<F, A>, events: seq<Event<F, A>>)
    requires Inv(s)
    requires forall i :: 0 <= i < |events| ==> !events[i].Invoked?
    ensures Cleanup(s).timers.queue == map[]
    ensures Run(Cleanup(s), events).1 == []
  {
    QuietStaysQuiet(Cleanup(s), events);
  }

  lemma {:induction false} QuietStaysQuiet<F, A>(s: DebounceState<F, A>, events: seq<Event<F, A>>)
    requires s.timers.queue == map[]
    requires forall i :: 0 <= i < |events| ==> !events[i].Invoked?
    ensures Run(s, events).1 == []
    decreases |events|
  {
    if events != [] {
      assert forall i :: 0 <= i < |events[1..]| ==> events[1..][i] == events[i + 1];
      QuietStaysQuiet(Step(s, events[0]).0, events[1..]);
    }
  }

  /** One `useDebounce` instance. */
  class Debouncer<F, A> {
    var fn: F
    var delay: nat
    var timerRef: Option<TimerId>
    var timers: Timers<Pending<F, A>>
    /** Every call of the target so far, in order. */
    ghost var calls: seq<Call<F, A>>

    function Model(): DebounceState<F, A>
      reads this
    {
      DebounceState(fn, delay, timerRef, timers)
    }

    ghost predicate Valid()
      reads this
    {
      Inv(Model())
    }

    constructor (fn: F, delay: nat)
      ensures Valid() && Model() == Mount(fn, delay) && calls == []
    {
      this.fn, this.delay := fn, delay;
      timerRef := None;
      timers := NoTimers();
      calls := [];
    }

    method Invoke(args: A)
      requires Valid()
      modifies this
      ensures Valid()
      ensures Model() == DebouncedFn(old(Model()), args)
      ensures calls == old(calls)
    {
      if timerRef.Some? {
        timers := ClearTimeout(timers, timerRef.value);
      }
      var armed := SetTimeout(timers, Pending(fn, args, delay));
      timers, timerRef := armed.0, Some(armed.1);
    }

    /** The platform runs the callback of timer `id`, if it is still queued. */
    method Tick(id: TimerId)
      requires Valid()
      modifies this
      ensures Valid()
      ensures Model() == Expire(old(Model()), id).0
      ensures calls == old(calls) + Expire(old(Model()), id).1.ToSeq()
    {
      if id in timers.queue {
        var p := timers.queue[id];
        timers := ClearTimeout(timers, id);
        calls := calls + [Call(p.fn, p.args)];
      }
    }

    method Render(fn: F, delay: nat)
      requires Valid()
      modifies this
      ensures Valid()
      ensures Model() == Rebuild(old(Model()), fn, delay)
      ensures calls == old(calls)
    {
      this.fn, this.delay := fn, delay;
    }

    method Unmount()
      requires Valid()
      modifies this
      ensures Valid()
      ensures Model() == Cleanup(old(Model()))
      ensures calls == old(calls)
    {
      if timerRef.Some? {
        timers := ClearTimeout(timers, timerRef.value);
      }
    }
  }
}
