# Debounce, throttle and reducer combination, modelled in Dafny

This project models the three pieces of logic in a React Native demo app:

- the throttle hook `useThrottle` (`hooks/use-throtelling.js`);
- the debounce hook `useDebounce`, in its TypeScript and JavaScript versions (`hooks/use-debounce.ts`, `hooks/use-debounce.js`);
- the reducer combinator `combineReducer` with the `counterReducer` and `todoReducer` slice reducers and the `rootReducer` built from them (`components/UseReducerPage.tsx`).

The two hooks are timer-driven. Time is abstracted away.

- `EventLoop` (`event_loop.dfy`) models the platform's `setTimeout`/`clearTimeout`. It is a queue of callbacks keyed by timer id. Ids are positive, so the source's `if (timerRef.current)` tests are true of them.
- Expiry is an explicit event, `Expired(id)`: the callback queued under `id` runs, if it is still queued. Naming a cleared timer, or one that has already run, does nothing.
- Each hook is modelled twice. The first is a pure state machine: a state datatype, one function per operation, an `Event` type and `Run`, which folds a sequence of events and collects every call of the target. The second is a class whose fields are the hook's refs. Its methods `Invoke`, `Tick`, `Render` and `Unmount` update those fields step by step and add each target call to a ghost `calls` log. Their `ensures` clauses tie the new fields and log to the pure functions.
- `Render` models a re-render with new hook arguments. It rebuilds the `useCallback` closure and refreshes the refs, as one atomic step.

The two debounce files have the same logic (`.ts` lines 18-42 are `.js` lines 4-24), so one module, `Debounce`, models both. The table cites each file at the lines a member models.

The reducer combinator is value-level. States and actions are datatypes. The slice reducers are functions. `combination`'s loop over the reducer keys is the method `Combination`, proved against the function `Combined`. Each slice reducer's previous slice is an `Option`: `state?.[key]` is absent when the whole state is `undefined`.

In the debounce hook, `debouncedFn` is rebuilt whenever `fn` changes (`use-debounce.ts:39`), and the timer callback keeps the `fn` that was current at the call (`use-debounce.ts:36`). A re-render between a call and its expiry therefore does not change the target. `Debounce.CallsCapturedTarget` states this. The throttle does use the latest function, through `fnRef` (`use-throtelling.js:22,43,55`).

## Model

| member | source | states |
|---|---|---|
| `EventLoop.NoTimers` | hooks/use-throtelling.js:16 | a fresh instance has no timer queued |
| `EventLoop.SetTimeout` | hooks/use-throtelling.js:62 | queues the callback under a fresh, positive id that no queued timer has; the other timers stay queued |
| `EventLoop.ClearTimeout` | hooks/use-debounce.ts:31-33 | the cleared id is no longer queued; every other queued timer is kept unchanged |
| `Throttle.Mount` | hooks/use-throtelling.js:13-18 | refs start idle with nothing buffered or queued; a missing options object becomes `{leading: true, trailing: true}` |
| `Throttle.ThrottledFn` | hooks/use-throtelling.js:35-65 | after any call the window is open, and the invariant (at most one timer, named by `timerRef`; idle means empty buffer and no timer) is kept |
| `Throttle.TimerFunc` | hooks/use-throtelling.js:50-60 | the buffer is always emptied; with nothing buffered the window closes and no timer is added; otherwise the trailing call is made with the buffered arguments exactly when `trailing !== false`, and one fresh timer with the captured delay is queued; the behaviour on a real expiry is stated by `ExpireWithBuffer` and `ExpireWithEmptyBuffer` |
| `Throttle.Expire` | hooks/use-throtelling.js:50-60 | expiry of a timer, whether re-armed or not, keeps the invariant |
| `Throttle.Refresh` | hooks/use-throtelling.js:21-24 | the ref refresh installs the new `fn`, `delay` and options and leaves window, buffer, `timerRef` and timers alone |
| `Throttle.Cleanup` | hooks/use-throtelling.js:27-33 | unmount leaves no timer queued and changes nothing but the timer queue |
| `Throttle.Step` | hooks/use-throtelling.js:35-65 | every event keeps the invariant |
| `Throttle.Run` | hooks/use-throtelling.js:35-65 | any event sequence keeps the invariant and makes at most one target call per event |
| `Throttle.InvokeDuringWindow` | hooks/use-throtelling.js:37-40 | a call while the window is open makes no call and only overwrites the buffer with its arguments |
| `Throttle.InvokeWhenIdle` | hooks/use-throtelling.js:42-48 | a call while idle calls the target with exactly its arguments unless `leading === false`, in which case it buffers them; it opens the window with exactly one timer queued |
| `Throttle.ExpireWithEmptyBuffer` | hooks/use-throtelling.js:50-53 | expiry with nothing buffered closes the window, calls nothing and leaves no timer |
| `Throttle.ExpireWithBuffer` | hooks/use-throtelling.js:54-59 | expiry with buffered arguments calls the target with them unless `trailing === false`, clears the buffer and re-arms one fresh timer with the same delay |
| `Throttle.ExpireStale` | hooks/use-throtelling.js:29-31 | a cleared or already-run timer produces no call and no change |
| `Throttle.NeverCalledWhenBothDisabled` | hooks/use-throtelling.js:42-56 | with `leading` and `trailing` both `false`, and kept so by every re-render, no event sequence calls the target |
| `Throttle.AtMostOneCallPerWindow` | hooks/use-throtelling.js:37-48 | between expiries at most one call is made, and none if the window was already open; the window stays open |
| `Throttle.SilencedStaysSilent` | hooks/use-throtelling.js:37-40 | an open window with no timer queued never calls the target again, whatever happens |
| `Throttle.UnmountSilencesOpenWindow` | hooks/use-throtelling.js:27-33 | unmounting while a window is open cancels its timer, and no later event makes a call |
| `Throttle.InvokesDuringWindow` | hooks/use-throtelling.js:37-40 | any number of calls inside an open window make no call; only the last arguments survive in the one-slot buffer |
| `Throttle.BurstOpensWindow` | hooks/use-throtelling.js:37-62 | a burst from idle makes the leading call with the first arguments (if enabled), queues one timer, and buffers the last arguments unless the only call was already made |
| `Throttle.WindowCloses` | hooks/use-throtelling.js:50-60 | after a burst, two expiries make the trailing call with the buffered arguments (if any and enabled) and return to idle with no timer |
| `Throttle.BurstThenQuiet` | hooks/use-throtelling.js:35-65 | a burst followed by quiet gives a leading call with the first arguments and a trailing call with the last ones, each as its flag and the burst allow, then idle |
| `Throttle.IsolatedCallCalledOnce` | hooks/use-throtelling.js:42-53 | with default options an isolated call calls the target exactly once, and the instance ends idle |
| `Throttle.BurstCallsFirstAndLast` | hooks/use-throtelling.js:37-58 | three calls in one window with default options give exactly the calls with the first and the third arguments |
| `Throttle.TrailingOnlyDefersCall` | hooks/use-throtelling.js:42-58 | with `leading: false`, two calls give one call, with the second arguments, when the window closes |
| `Throttle.Throttler.constructor` | hooks/use-throtelling.js:14-18 | the refs as first rendered, with an empty call log |
| `Throttle.Throttler.Invoke` | hooks/use-throtelling.js:35-63 | the fields and the call log move exactly as `ThrottledFn` says |
| `Throttle.Throttler.Tick` | hooks/use-throtelling.js:50-60 | the fields and the call log move exactly as `Expire` says |
| `Throttle.Throttler.Render` | hooks/use-throtelling.js:21-24 | the refs take the new `fn` and options; no call is made |
| `Throttle.Throttler.Unmount` | hooks/use-throtelling.js:27-33 | the timer named by `timerRef` is cleared; no call is made |
| `Debounce.Mount` | hooks/use-debounce.ts:18 | a fresh instance has no pending call |
| `Debounce.DebouncedFn` | hooks/use-debounce.ts:29-40 | after a call the ref names a queued timer holding the current `fn` and these arguments, and it is the only timer queued |
| `Debounce.Expire` | hooks/use-debounce.ts:35-37 | expiry calls the target exactly when the timer is still queued, with the `fn` and arguments that timer captured; the timer that ran leaves the queue, so it cannot run again, and `fn`, `delay` and the ref are unchanged; an id that is not queued changes nothing and calls nothing |
| `Debounce.Rebuild` | hooks/use-debounce.js:22 | a re-render replaces `fn` and `delay` and leaves the ref and the queued timer alone |
| `Debounce.Cleanup` | hooks/use-debounce.js:6-12 | unmount leaves no timer queued and changes nothing else |
| `Debounce.Step` | hooks/use-debounce.ts:29-40 | every event keeps the invariant, and only an expiry calls the target |
| `Debounce.Run` | hooks/use-debounce.ts:29-40 | any event sequence keeps the invariant and makes at most one call per event |
| `Debounce.InvokeReplacesPending` | hooks/use-debounce.js:14-22 | a call cancels the timer queued before and leaves exactly one pending call, under a fresh id, with its own arguments |
| `Debounce.NoCallWithoutExpiry` | hooks/use-debounce.ts:35-37 | calls, re-renders and unmounts never call the target synchronously |
| `Debounce.BurstLeavesLastPending` | hooks/use-debounce.js:14-22 | a burst of calls makes no call and leaves exactly one timer, queued by the last call, holding the last arguments |
| `Debounce.BurstCallsOnceWithLast` | hooks/use-debounce.ts:31-37 | a burst followed by the expiry of the last timer calls the target exactly once, with the last arguments; the expiry of any other id calls nothing |
| `Debounce.BurstFiresOnlyOnce` | hooks/use-debounce.ts:29-37 | a burst, the expiry of its last timer, and then any events other than calls give exactly one call of the target, with the last arguments |
| `Debounce.SpacedCallsEachFire` | hooks/use-debounce.js:19-21 | when each call's timer expires before the next call, the target is called once per call, in order, with each call's arguments |
| `Debounce.CallsCapturedTarget` | hooks/use-debounce.ts:36-39 | the target called at expiry is the `fn` of the call that queued the timer, even after a re-render with another `fn` |
| `Debounce.UnmountSilences` | hooks/use-debounce.ts:21-27 | after the unmount cleanup no timer is queued, and no later expiry calls the target |
| `Debounce.QuietStaysQuiet` | hooks/use-debounce.js:6-12 | with nothing queued, events other than calls never call the target |
| `Debounce.Debouncer.constructor` | hooks/use-debounce.js:3-4 | a fresh ref with no pending call and an empty call log |
| `Debounce.Debouncer.Invoke` | hooks/use-debounce.ts:30-37 | the fields move as `DebouncedFn` says, and no call is logged |
| `Debounce.Debouncer.Tick` | hooks/use-debounce.js:19-21 | the fields and the call log move exactly as `Expire` says |
| `Debounce.Debouncer.Render` | hooks/use-debounce.ts:39 | the rebuilt callback closes over the new `fn` and `delay`; no call is made |
| `Debounce.Debouncer.Unmount` | hooks/use-debounce.ts:21-27 | the timer the ref names is cleared; no call is made |
| `Reducers.CounterReducer` | components/UseReducerPage.tsx:47-61 | the counter reducer; INC adds one, DEC subtracts one, RESET gives 0 and every other action keeps the count, absent read as 0, as `CounterSteps` states |
| `Reducers.TodoReducer` | components/UseReducerPage.tsx:63-73 | the todo reducer; ADD_TODO appends its payload to the list, absent read as empty, and every other action keeps the list, as `TodoSteps` states |
| `Reducers.RootReducer` | components/UseReducerPage.tsx:75-78 | the combined root reducer; from no state it gives the initial state, as `RootFromNothing` states, and each action changes only its own slice, as `ActionsStayInTheirSlice` states |
| `Reducers.Combination` | components/UseReducerPage.tsx:27-43 | the loop over the keys gives a fully populated new state whose every key holds that slice reducer applied to its previous slice and the action, for any key order |
| `Reducers.RunRootReducer` | components/UseReducerPage.tsx:75-78 | the root reducer's count is `counterReducer` on the old count and its todo list is `todoReducer` on the old list |
| `Reducers.SliceIndependence` | components/UseReducerPage.tsx:34-40 | the `count` result depends only on the previous count and the action, the `todo` result only on the previous list and the action |
| `Reducers.CounterSteps` | components/UseReducerPage.tsx:47-60 | for an absent or present count, INC adds one, DEC subtracts one, RESET gives 0, and every other action keeps the count, absent read as 0 |
| `Reducers.TodoSteps` | components/UseReducerPage.tsx:63-72 | ADD_TODO gives one more item, with the earlier items as prefix and the payload last; every other action keeps the list, absent read as empty |
| `Reducers.IncThenDecRestores` | components/UseReducerPage.tsx:52-57 | INC followed by DEC gives back the original count |
| `Reducers.RootFromNothing` | components/UseReducerPage.tsx:29-78 | from no state, an unrecognised action gives `{count: 0, todo: []}` and INC gives `{count: 1, todo: []}` |
| `Reducers.ActionsStayInTheirSlice` | components/UseReducerPage.tsx:58-71 | ADD_TODO keeps the count and appends its payload; the counter actions keep the todo list |
| `Reducers.DispatchAppendsPayloads` | components/UseReducerPage.tsx:68-71 | after any sequence of dispatched actions the todo list is the old list followed by every ADD_TODO payload, in order |
| `Reducers.CountOnlyMovesOnCounterActions` | components/UseReducerPage.tsx:58-59 | a sequence of dispatched actions with no counter action leaves the count unchanged |

## Left out

- Wall-clock time: delays are carried with each queued timer but never interpreted. Expiry is an explicit event, and the model does not require timers to expire in delay order. A negative `delay`, which the platform clamps to 0, is not modelled: delays are natural numbers.
- The platform timer ids are shared by every timer in the app. Here each instance numbers its own timers from 1. Ids only matter for clearing an instance's own timers, so this changes nothing the model states.
- React hook machinery: `useRef`, `useCallback` memoisation and `useEffect` scheduling. `Render` applies the rebuilt callback and the ref refresh in one step, although the effect actually runs after the commit. A caller that keeps an older `debouncedFn` from before a re-render, and calls it, is not modelled.
- Throttle.Options: each flag is a missing or boolean property. The source's `!== false` also enables an edge for other values such as `0` or `""`, which the model does not represent.
- Exceptions thrown by the target. The model has no exceptions, so these source behaviours are not captured:
  - A fault inside a timer callback stops that callback at the platform's boundary.
  - A throttle target that throws at the leading call (`use-throtelling.js:43`) leaves `shouldWaitRef` false and arms no timer.
  - A throttle target that throws at the trailing call (`use-throtelling.js:55`) leaves the window open and the buffer full, with no timer, for good. `Throttle.Silenced` has the same shape, an open window with no timer, but the model reaches it only through the unmount cleanup.
- Re-entrant calls: a throttle target that calls the throttled function back before `shouldWaitRef` is set (`use-throtelling.js:43-48`) makes the source arm a second timer. Each model operation is one atomic step, so this is not captured.
- A caller that keeps an older `throttledFn` from before a re-render, and so its older `delay` (`use-throtelling.js:64`), is not modelled. `Render` replaces the delay for every later call.
- Reducers: `count` is a JavaScript number, a double. The model uses unbounded integers, so it does not capture the loss of precision beyond 2^53.
- Reducers: actions are a datatype. An action whose type tag is none of the four declared ones is the `Unlisted` variant. Objects whose `type` matches a declared tag but whose shape differs (for example, `ADD_TODO` without a payload) are not modelled.
- Reducers: the input state is a value, so "the input is not modified" holds by construction. Object aliasing and in-place mutation are not modelled.
- `useReducer` is not modelled. The function `Dispatch` folds the root reducer over a sequence of actions, as a reference for what a sequence of `dispatch` calls computes.
- components/AbortControllerPage.tsx: a demo of racing asynchronous requests with random delays, dates and abort signals; mostly UI.
- components/DebounceThrotellingPage.tsx and the page components' rendering: UI wiring that only calls the hooks.
