/**
 * The throttle hook `useThrottle`: a two-state machine (idle, or a window
 * open) driven by calls of the throttled function and by expiry of the
 * window timer, which re-arms itself while calls keep arriving.
 */
module Throttle {
  import opened Wrappers
  import opened EventLoop

  /** The `options` object; a property may be missing. */
  datatype Options = Options(leading: Option<bool>, trailing: Option<bool>)

  /** The default parameter value `{ leading: true, trailing: true }`. */
  const DefaultOptions: Options := Options(Some(true), Some(true))

  /** `flag !== false`: only an explicit `false` turns an edge off. */
  predicate Enabled(flag: Option<bool>)
  {
    flag != Some(false)
  }

  /** The `options` argument, or the default when it is omitted. */
  function OptionsOrDefault(options: Option<Options>): (o: Options)
    ensures options.Some? ==> o == options.value
    ensures options.None? ==> Enabled(o.leading) && Enabled(o.trailing)
  {
    options.GetOr(DefaultOptions)
  }

  /** A queued `timerFunc`, with the `delay` its closure captured. */
  datatype Scheduled = Scheduled(delay: nat)

  /**
   * The hook's refs (`fnRef`, `optionsRef`, `shouldWaitRef`,
   * `waitingArgsRef`, `timerRef`), the `delay` of the current
   * `throttledFn`, and this instance's queued timers.
   */
  datatype ThrottleState<F, A> = ThrottleState(
    fnRef: F,
    optionsRef: Options,
    delay: nat,
    shouldWait: bool,
    waitingArgs: Option<A>,
    timerRef: Option<TimerId>,
    timers: Timers<Scheduled>)

  /** The new state, and the call of the target made on the way, if any. */
  type Outcome<F, A> = (ThrottleState<F, A>, Option<Call<F, A>>)

  /**
   * At most one timer is queued and `timerRef` names it; an idle instance
   * has nothing buffered and nothing queued.
   */
  ghost predicate Inv<F, A>(s: ThrottleState<F, A>)
  {
    && WellFormed(s.timers)
    && (s.timerRef.Some? ==> 0 < s.timerRef.value < s.timers.nextId)
    && (forall id :: id in s.timers.queue ==> s.timerRef == Some(id))
    && (!s.shouldWait ==> s.waitingArgs.None? && s.timers.queue == map[])
  }

  /** First render: the refs start out as `false`, `null`, `null`. */
  function Mount<F, A>(fn: F, delay: nat, options: Option<Options>): (s: ThrottleState<F, A>)
    ensures Inv(s) && !s.shouldWait
    ensures s.optionsRef == (if options.Some? then options.value else DefaultOptions)
  {
    ThrottleState(fn, OptionsOrDefault(options), delay, false, None, None, NoTimers())
  }

  /** A call `throttledFn(...args)`. */
  function ThrottledFn<F, A>(s: ThrottleState<F, A>, args: A): (r: Outcome<F, A>)
    ensures Inv(s) ==> Inv(r.0)
    ensures r.0.shouldWait
  {
    if s.shouldWait then
      (s.(waitingArgs := Some(args)), None)
    else
      var leading := Enabled(s.optionsRef.leading);
      var armed := SetTimeout(s.timers, Scheduled(s.delay));
      (s.(waitingArgs := if leading then s.waitingArgs else Some(args),
          shouldWait := true,
          timerRef := Some(armed.1),
          timers := armed.0),
       if leading then Some(Call(s.fnRef, args)) else None)
  }

  /**
   * The body of `timerFunc`, run once its timer has left the queue: with
   * nothing buffered the window closes; otherwise the trailing call is made,
   * unless `trailing` is `false`, the buffer is emptied and a new timer with
   * the same delay keeps the window open.
   */
  function TimerFunc<F, A>(s: ThrottleState<F, A>, delay: nat): (r: Outcome<F, A>)
    ensures r.0.waitingArgs.None?
    ensures r.0.fnRef == s.fnRef && r.0.optionsRef == s.optionsRef && r.0.delay == s.delay
    ensures r.1.Some? <==> s.waitingArgs.Some? && Enabled(s.optionsRef.trailing)
    ensures r.1.Some? ==> r.1.value == Call(s.fnRef, s.waitingArgs.value)
    ensures s.waitingArgs.None? ==> !r.0.shouldWait && r.0.timerRef == s.timerRef && r.0.timers == s.timers
    ensures s.waitingArgs.Some? ==>
      && r.0.shouldWait == s.shouldWait
      && r.0.timerRef == Some(s.timers.nextId)
      && r.0.timers == Timers(s.timers.queue[s.timers.nextId := Scheduled(delay)], s.timers.nextId + 1)
  {
    if s.waitingArgs.None? then
      (s.(shouldWait := false), None)
    else
      var armed := SetTimeout(s.timers, Scheduled(delay));
      (s.(waitingArgs := None, timerRef := Some(armed.1), timers := armed.0),
       if Enabled(s.optionsRef.trailing) then Some(Call(s.fnRef, s.waitingArgs.value)) else None)
  }

  /** Timer `id` expires: its `timerFunc` runs, if it is still queued. */
  function Expire<F, A>(s: ThrottleState<F, A>, id: TimerId): (r: Outcome<F, A>)
    ensures Inv(s) ==> Inv(r.0)
  {
    if id in s.timers.queue then
      TimerFunc(s.(timers := ClearTimeout(s.timers, id)), s.timers.queue[id].delay)
    else
      (s, None)
  }

  /**
   * A re-render with new hook arguments: `throttledFn` is rebuilt over the
   * new `delay`, and the effect copies `fn` and `options` into the refs.
   */
  function Refresh<F, A>(s: ThrottleState<F, A>, fn: F, delay: nat, options: Option<Options>): (t: ThrottleState<F, A>)
    ensures Inv(s) ==> Inv(t)
    ensures t.fnRef == fn && t.delay == delay && t.optionsRef == OptionsOrDefault(options)
    ensures t.shouldWait == s.shouldWait && t.waitingArgs == s.waitingArgs && t.timers == s.timers && t.timerRef == s.timerRef
  {
    s.(fnRef := fn, optionsRef := OptionsOrDefault(options), delay := delay)
  }

  /** The unmount cleanup: clear the timer `timerRef` names, if it is set. */
  function Cleanup<F, A>(s: ThrottleState<F, A>): (t: ThrottleState<F, A>)
    ensures Inv(s) ==> Inv(t) && t.timers.queue == map[]
    ensures t == s.(timers := t.timers)
  {
    if s.timerRef.Some? then s.(timers := ClearTimeout(s.timers, s.timerRef.value)) else s
  }

  /** What can happen to one instance. */
  datatype Event<F, A> =
    | Invoked(args: A)
    | Expired(id: TimerId)
    | Rendered(fn: F, delay: nat, options: Option<Options>)
    | Unmounted

  function Step<F, A>(s: ThrottleState<F, A>, e: Event<F, A>): (r: Outcome<F, A>)
    ensures Inv(s) ==> Inv(r.0)
  {
    match e
    case Invoked(args) => ThrottledFn(s, args)
    case Expired(id) => Expire(s, id)
    case Rendered(fn, delay, options) => (Refresh(s, fn, delay, options), None)
    case Unmounted => (Cleanup(s), None)
  }

  /** The final state and every call of the target, in order. */
  function Run<F, A>(s: ThrottleState<F, A>, events: seq<Event<F, A>>): (r: (ThrottleState<F, A>, seq<Call<F, A>>))
    ensures Inv(s) ==> Inv(r.0)
    ensures |r.1| <= |events|
    decreases |events|
  {
    if events == [] then
      (s, [])
    else
      var first := Step(s, events[0]);
      var rest := Run(first.0, events[1..]);
      (rest.0, first.1.ToSeq() + rest.1)
  }

  function Invokes<F, A>(xs: seq<A>): (events: seq<Event<F, A>>)
  {
    if xs == [] then [] else [Invoked(xs[0])] + Invokes(xs[1..])
  }

  lemma {:induction false} RunAppend<F, A>(s: ThrottleState<F, A>, xs: seq<Event<F, A>>, ys: seq<Event<F, A>>)
    ensures Run(s, xs + ys) == (Run(Run(s, xs).0, ys).0, Run(s, xs).1 + Run(Run(s, xs).0, ys).1)
    decreases |xs|
  {
    if xs == [] {
      assert xs + ys == ys;
      assert Run(s, xs) == (s, []);
      assert [] + Run(s, ys).1 == Run(s, ys).1;
    } else {
      assert (xs + ys)[0] == xs[0];
      assert (xs + ys)[1..] == xs[1..] + ys;
      var first := Step(s, xs[0]);
      RunAppend(first.0, xs[1..], ys);
      var mid := Run(first.0, xs[1..]);
      var tail := Run(mid.0, ys);
      assert first.1.ToSeq() + (mid.1 + tail.1) == (first.1.ToSeq() + mid.1) + tail.1;
    }
  }

  /** A call while the window is open only overwrites the one buffered argument list. */
  lemma InvokeDuringWindow<F, A>(s: ThrottleState<F, A>, args: A)
    requires s.shouldWait
    ensures ThrottledFn(s, args).1 == None
    ensures ThrottledFn(s, args).0 == s.(waitingArgs := Some(args))
  {
  }

  /**
   * A call while idle calls the target at once unless `leading` is `false`,
   * in which case it buffers the arguments; either way it opens the window
   * and leaves exactly one timer queued.
   */
  lemma InvokeWhenIdle<F, A>(s: ThrottleState<F, A>, args: A)
    requires Inv(s) && !s.shouldWait
    ensures var r := ThrottledFn(s, args);
      && r.1 == (if Enabled(s.optionsRef.leading) then Some(Call(s.fnRef, args)) else None)
      && r.0.waitingArgs == (if Enabled(s.optionsRef.leading) then None else Some(args))
      && r.0.shouldWait && r.0.timerRef.Some?
      && r.0.timers.queue == map[r.0.timerRef.value := Scheduled(s.delay)]
  {
  }

  /** Expiry with nothing buffered closes the window and calls nothing. */
  lemma ExpireWithEmptyBuffer<F, A>(s: ThrottleState<F, A>, id: TimerId)
    requires Inv(s) && id in s.timers.queue && s.waitingArgs.None?
    ensures var r := Expire(s, id);
      r.1 == None && !r.0.shouldWait && r.0.timers.queue == map[]
  {
  }

  /**
   * Expiry with buffered arguments calls the target with them unless
   * `trailing` is `false`; either way it empties the buffer and re-arms the
   * window with a fresh timer of the same delay.
   */
  lemma ExpireWithBuffer<F, A>(s: ThrottleState<F, A>, id: TimerId)
    requires Inv(s) && id in s.timers.queue && s.waitingArgs.Some?
    ensures var r := Expire(s, id);
      && r.1 == (if Enabled(s.optionsRef.trailing) then Some(Call(s.fnRef, s.waitingArgs.value)) else None)
      && r.0.waitingArgs.None? && r.0.shouldWait
      && r.0.timerRef.Some? && r.0.timerRef.value != id
      && r.0.timers.queue == map[r.0.timerRef.value := s.timers.queue[id]]
  {
  }

  /** A timer that was cleared, or has run, produces no call when named again. */
  lemma ExpireStale<F, A>(s: ThrottleState<F, A>, id: TimerId)
    requires id !in s.timers.queue
    ensures Expire(s, id) == (s, None)
  {
  }

  predicate BothDisabled(options: Options)
  {
    !Enabled(options.leading) && !Enabled(options.trailing)
  }

  /**
   * With `leading` and `trailing` both `false`, and every re-render keeping
   * them so, the target is never called.
   */
  lemma {:induction false} NeverCalledWhenBothDisabled<F, A>(s: ThrottleState<F, A>, events: seq<Event<F, A>>)
    requires BothDisabled(s.optionsRef)
    requires forall i :: 0 <= i < |events| && events[i].Rendered? ==> BothDisabled(OptionsOrDefault(events[i].options))
    ensures Run(s, events).1 == []
    decreases |events|
  {
    if events != [] {
      NeverCalledWhenBothDisabled(Step(s, events[0]).0, events[1..]);
    }
  }

  predicate NoExpiry<F, A>(events: seq<Event<F, A>>)
  {
    forall i :: 0 <= i < |events| ==> !events[i].Expired?
  }

  /**
   * Between two timer expiries at most one call happens (the leading one),
   * and none if the window was already open; each expiry itself makes at
   * most one call (the trailing one), by the type of `Step`.
   */
  lemma {:induction false} AtMostOneCallPerWindow<F, A>(s: ThrottleState<F, A>, events: seq<Event<F, A>>)
    requires Inv(s) && NoExpiry(events)
    ensures |Run(s, events).1| <= 1
    ensures s.shouldWait ==> Run(s, events).1 == []
    ensures s.shouldWait ==> Run(s, events).0.shouldWait
    decreases |events|
  {
    if events != [] {
      var first := Step(s, events[0]);
      assert NoExpiry(events[1..]) by {
        forall i | 0 <= i < |events[1..]| ensures !events[1..][i].Expired? {
          assert events[1..][i] == events[i + 1];
        }
      }
      AtMostOneCallPerWindow(first.0, events[1..]);
      assert first.1.Some? ==> first.0.shouldWait;
      assert s.shouldWait ==> first.1.None? && first.0.shouldWait;
    }
  }

  /** Once the window is open and no timer is queued, nothing more is ever called. */
  predicate Silenced<F, A>(s: ThrottleState<F, A>)
  {
    s.shouldWait && s.timers.queue == map[]
  }

  lemma {:induction false} SilencedStaysSilent<F, A>(s: ThrottleState<F, A>, events: seq<Event<F, A>>)
    requires Silenced(s)
    ensures Run(s, events).1 == [] && Silenced(Run(s, events).0)
    decreases |events|
  {
    if events != [] {
      SilencedStaysSilent(Step(s, events[0]).0, events[1..]);
    }
  }

  /**
   * Unmounting while a window is open cancels its timer: whatever happens
   * afterwards, the pending window produces no call.
   */
  lemma UnmountSilencesOpenWindow<F, A>(s: ThrottleState<F, A>, events: seq<Event<F, A>>)
    requires Inv(s) && s.shouldWait
    ensures Cleanup(s).timers.queue == map[]
    ensures Run(Cleanup(s), events).1 == []
  {
    SilencedStaysSilent(Cleanup(s), events);
  }

  /** Further calls inside an open window only move the buffer to the latest arguments. */
  lemma {:induction false} InvokesDuringWindow<F, A>(s: ThrottleState<F, A>, xs: seq<A>)
    requires s.shouldWait
    ensures Run(s, Invokes(xs)) == (s.(waitingArgs := if xs == [] then s.waitingArgs else Some(Last(xs))), [])
    decreases |xs|
  {
    if xs != [] {
      InvokesDuringWindow(s.(waitingArgs := Some(xs[0])), xs[1..]);
    }
  }

  /**
   * A burst of calls from idle opens one window with one timer: the first
   * call is made at once if `leading` is on, and the buffer ends up holding
   * the last arguments unless the first call was the only one and was made.
   */
  lemma BurstOpensWindow<F, A>(s: ThrottleState<F, A>, xs: seq<A>)
    requires Inv(s) && !s.shouldWait && xs != []
    ensures var n := s.timers.nextId;
      var w := Run(s, Invokes(xs));
      var leading := Enabled(s.optionsRef.leading);
      && w.1 == (if leading then [Call(s.fnRef, xs[0])] else [])
      && w.0.waitingArgs == (if |xs| > 1 || !leading then Some(Last(xs)) else None)
      && w.0.shouldWait && w.0.timerRef == Some(n) && w.0.timers == Timers(map[n := Scheduled(s.delay)], n + 1)
      && w.0.fnRef == s.fnRef && w.0.optionsRef == s.optionsRef
  {
    var first := ThrottledFn(s, xs[0]);
    assert Invokes<F, A>(xs) == [Invoked(xs[0])] + Invokes(xs[1..]);
    RunAppend(s, [Invoked(xs[0])], Invokes(xs[1..]));
    InvokesDuringWindow(first.0, xs[1..]);
    assert xs[1..] != [] ==> Last(xs[1..]) == Last(xs);
  }

  /**
   * The window of a burst closes after at most two expiries: the first makes
   * the trailing call, if arguments are buffered and `trailing` is on, and
   * re-arms; the second finds the buffer empty and returns to idle.
   */
  lemma WindowCloses<F, A>(w: ThrottleState<F, A>, n: TimerId, d: nat)
    requires Inv(w) && w.shouldWait && w.timerRef == Some(n) && w.timers == Timers(map[n := Scheduled(d)], n + 1)
    ensures var r := Run(w, [Expired(n), Expired(n + 1)]);
      && r.1 == (if w.waitingArgs.Some? && Enabled(w.optionsRef.trailing) then [Call(w.fnRef, w.waitingArgs.value)] else [])
      && !r.0.shouldWait && r.0.timers.queue == map[]
  {
    var e1 := Expire(w, n);
    var e2 := Expire(e1.0, n + 1);
    var tail: seq<Event<F, A>> := [Expired(n), Expired(n + 1)];
    assert tail[1..] == [Expired(n + 1)];
    var last: seq<Event<F, A>> := [Expired(n + 1)];
    assert last[1..] == [];
    assert Run(e1.0, last) == (e2.0, e2.1.ToSeq() + []);
    assert Run(w, tail) == (e2.0, e1.1.ToSeq() + e2.1.ToSeq());
    if w.waitingArgs.Some? {
      ExpireWithBuffer(w, n);
      assert e1.0.timerRef == Some(n + 1);
      ExpireWithEmptyBuffer(e1.0, n + 1);
    } else {
      ExpireWithEmptyBuffer(w, n);
      ExpireStale(e1.0, n + 1);
    }
  }

  /**
   * A burst of calls from idle, then the window's timer and the re-armed one
   * expire: the target is called with the first arguments if `leading` is on,
   * and with the last arguments if `trailing` is on and they were buffered
   * (the burst had a second call, or `leading` is off); the instance ends idle.
   */
  lemma BurstThenQuiet<F, A>(s: ThrottleState<F, A>, xs: seq<A>)
    requires Inv(s) && !s.shouldWait && xs != []
    ensures var n := s.timers.nextId;
      var r := Run(s, Invokes(xs) + [Expired(n), Expired(n + 1)]);
      var leading := Enabled(s.optionsRef.leading);
      var buffered := |xs| > 1 || !leading;
      && r.1 == (if leading then [Call(s.fnRef, xs[0])] else [])
              + (if buffered && Enabled(s.optionsRef.trailing) then [Call(s.fnRef, Last(xs))] else [])
      && !r.0.shouldWait && r.0.timers.queue == map[]
  {
    var n := s.timers.nextId;
    BurstOpensWindow(s, xs);
    var w := Run(s, Invokes(xs));
    RunAppend(s, Invokes(xs), [Expired(n), Expired(n + 1)]);
    WindowCloses(w.0, n, s.delay);
  }

  /** An isolated call with both edges on calls the target exactly once. */
  lemma IsolatedCallCalledOnce<F, A>(fn: F, delay: nat, x: A)
    ensures var r := Run(Mount(fn, delay, None), [Invoked(x), Expired(1), Expired(2)]);
      r.1 == [Call(fn, x)] && !r.0.shouldWait
  {
    var s: ThrottleState<F, A> := Mount(fn, delay, None);
    assert Invokes<F, A>([x]) == [Invoked(x)];
    BurstThenQuiet(s, [x]);
  }

  /**
   * Calls at the start of one window with both edges on: the first is made
   * at once, the last when the window closes, the middle one is dropped.
   */
  lemma BurstCallsFirstAndLast<F, A>(fn: F, delay: nat, x0: A, x1: A, x2: A)
    ensures var r := Run(Mount(fn, delay, None), [Invoked(x0), Invoked(x1), Invoked(x2), Expired(1), Expired(2)]);
      r.1 == [Call(fn, x0), Call(fn, x2)] && !r.0.shouldWait
  {
    var s: ThrottleState<F, A> := Mount(fn, delay, None);
    assert [x0, x1, x2][1..] == [x1, x2] && [x1, x2][1..] == [x2] && [x2][1..] == [];
    assert Invokes<F, A>([x2]) == [Invoked(x2)];
    assert Invokes<F, A>([x1, x2]) == [Invoked(x1), Invoked(x2)];
    assert Invokes<F, A>([x0, x1, x2]) == [Invoked(x0), Invoked(x1), Invoked(x2)];
    var events: seq<Event<F, A>> := [Invoked(x0), Invoked(x1), Invoked(x2), Expired(1), Expired(2)];
    assert events == Invokes([x0, x1, x2]) + [Expired(1), Expired(2)];
    BurstThenQuiet(s, [x0, x1, x2]);
    assert Last([x0, x1, x2]) == x2;
  }

  /** With `leading: false`, the first call of a window is only buffered and fires at its close. */
  lemma TrailingOnlyDefersCall<F, A>(fn: F, delay: nat, x0: A, x1: A)
    ensures var options := Some(Options(Some(false), Some(true)));
      var r := Run(Mount(fn, delay, options), [Invoked(x0), Invoked(x1), Expired(1), Expired(2)]);
      r.1 == [Call(fn, x1)] && !r.0.shouldWait
  {
    var s: ThrottleState<F, A> := Mount(fn, delay, Some(Options(Some(false), Some(true))));
    assert [x0, x1][1..] == [x1] && [x1][1..] == [];
    assert Invokes<F, A>([x1]) == [Invoked(x1)];
    assert Invokes<F, A>([x0, x1]) == [Invoked(x0), Invoked(x1)];
    BurstThenQuiet(s, [x0, x1]);
  }

  /** One `useThrottle` instance, its refs as fields. */
  class Throttler<F, A> {
    var fnRef: F
    var optionsRef: Options
    var delay: nat
    var shouldWait: bool
    var waitingArgs: Option<A>
    var timerRef: Option<TimerId>
    var timers: Timers<Scheduled>
    /** Every call of the target so far, in order. */
    ghost var calls: seq<Call<F, A>>

    function Model(): ThrottleState<F, A>
      reads this
    {
      ThrottleState(fnRef, optionsRef, delay, shouldWait, waitingArgs, timerRef, timers)
    }

    ghost predicate Valid()
      reads this
    {
      Inv(Model())
    }

    constructor (fn: F, delay: nat, options: Option<Options>)
      ensures Valid() && Model() == Mount(fn, delay, options) && calls == []
    {
      fnRef := fn;
      optionsRef := OptionsOrDefault(options);
      this.delay := delay;
      shouldWait := false;
      waitingArgs := None;
      timerRef := None;
      timers := NoTimers();
      calls := [];
    }

    method Invoke(args: A)
      requires Valid()
      modifies this
      ensures Valid()
      ensures Model() == ThrottledFn(old(Model()), args).0
      ensures calls == old(calls) + ThrottledFn(old(Model()), args).1.ToSeq()
    {
      if shouldWait {
        waitingArgs := Some(args);
        return;
      }
      if Enabled(optionsRef.leading) {
        calls := calls + [Call(fnRef, args)];
      } else {
        waitingArgs := Some(args);
      }
      shouldWait := true;
      var armed := SetTimeout(timers, Scheduled(delay));
      timers, timerRef := armed.0, Some(armed.1);
    }

    /** The platform runs the callback of timer `id`, if it is still queued. */
    method Tick(id: TimerId)
      requires Valid()
      modifies this
      ensures Valid()
      ensures Model() == Expire(old(Model()), id).0
      ensures calls == old(calls) + Expire(old(Model()), id).1.ToSeq()
    {
      if id !in timers.queue {
        return;
      }
      var d := timers.queue[id].delay;
      timers := ClearTimeout(timers, id);
      if waitingArgs.None? {
        shouldWait := false;
      } else {
        if Enabled(optionsRef.trailing) {
          calls := calls + [Call(fnRef, waitingArgs.value)];
        }
        waitingArgs := None;
        var armed := SetTimeout(timers, Scheduled(d));
        timers, timerRef := armed.0, Some(armed.1);
      }
    }

    method Render(fn: F, delay: nat, options: Option<Options>)
      requires Valid()
      modifies this
      ensures Valid()
      ensures Model() == Refresh(old(Model()), fn, delay, options)
      ensures calls == old(calls)
    {
      fnRef, optionsRef := fn, OptionsOrDefault(options);
      this.delay := delay;
    }

    method Unmount()
      requires Valid()
      modifies this
      ensures Valid()
      ensures Model() == Cleanup(old(Model()))
      ensures calls == old(calls)
    {
      if timerRef.Some? {
        timers := ClearTimeout(timers, timerRef.value);
      }
    }
  }
}
