/**
 * The reducer page's state management: a combinator that builds the root
 * reducer from one reducer per key of the root state, and the two slice
 * reducers for the counter and the todo list.
 */
module Reducers {
  import opened Wrappers

  /**
   * The actions: `INC`, `RESET`, `DEC` for the counter and
   * `ADD_TODO` with its payload for the todo list. `Unlisted` stands for an
   * action whose type tag is none of these four: the declared union excludes
   * it, but the switch statements' `default` branches accept it at run time.
   */
  datatype Action = Inc | Reset | Dec | AddTodo(payload: string) | Unlisted(kind: string)

  predicate IsCounterAction(a: Action)
  {
    a.Inc? || a.Reset? || a.Dec?
  }

  datatype RootState = RootState(count: int, todo: seq<string>)

  /** The keys of the root state. */
  datatype Key = Count | Todo

  /** A slice reducer: its previous slice (absent on the first call) and an action give the next slice. */
  type Reducer<!S> = (Option<S>, Action) -> S

  /** The object handed to the combinator: one reducer for each key. */
  datatype ReducerMap = ReducerMap(count: Reducer<int>, todo: Reducer<seq<string>>)

  /** A state object under construction: `{} as RootState`, then filled in key by key. */
  datatype PartialState = PartialState(count: Option<int>, todo: Option<seq<string>>)

  /** An absent count counts as 0. */
  function CounterReducer(state: Option<int>, action: Action): (count: int)
  {
    match action
    case Inc => state.GetOr(0) + 1
    case Reset => 0
    case Dec => state.GetOr(0) - 1
    case _ => state.GetOr(0)
  }

  /** An absent list counts as empty; the new item goes on a copy. */
  function TodoReducer(state: Option<seq<string>>, action: Action): (items: seq<string>)
  {
    match action
    case AddTodo(p) => state.GetOr([]) + [p]
    case _ => state.GetOr([])
  }

  /** `state?.count` and `state?.todo`: absent when the whole state is. */
  function PrevCount(state: Option<RootState>): (count: Option<int>)
    ensures count.Some? <==> state.Some?
  {
    if state.Some? then Some(state.value.count) else None
  }

  function PrevTodo(state: Option<RootState>): (items: Option<seq<string>>)
    ensures items.Some? <==> state.Some?
  {
    if state.Some? then Some(state.value.todo) else None
  }

  /** What the combined reducer returns: each key holds its own reducer's result on its own slice. */
  function Combined(reducers: ReducerMap, state: Option<RootState>, action: Action): (next: RootState)
  {
    RootState(reducers.count(PrevCount(state), action), reducers.todo(PrevTodo(state), action))
  }

  /**
   * `combination`: loop over the reducer keys, in the order they were
   * declared, writing each slice reducer's result into a fresh state
   * object. With every key listed, the result is the same for every order.
   */
  method Combination(reducers: ReducerMap, reducerKeys: seq<Key>, state: Option<RootState>, action: Action)
    returns (nextState: RootState)
    requires Count in reducerKeys && Todo in reducerKeys
    ensures nextState == Combined(reducers, state, action)
  {
    var partial := PartialState(None, None);
    for i := 0 to |reducerKeys|
      invariant partial.count == if Count in reducerKeys[..i] then Some(reducers.count(PrevCount(state), action)) else None
      invariant partial.todo == if Todo in reducerKeys[..i] then Some(reducers.todo(PrevTodo(state), action)) else None
    {
      assert reducerKeys[..i + 1] == reducerKeys[..i] + [reducerKeys[i]];
      match reducerKeys[i]
      case Count =>
        partial := partial.(count := Some(reducers.count(PrevCount(state), action)));
      case Todo =>
        partial := partial.(todo := Some(reducers.todo(PrevTodo(state), action)));
    }
    assert reducerKeys[..|reducerKeys|] == reducerKeys;
    nextState := RootState(partial.count.value, partial.todo.value);
  }

  /** `combineReducer({ count: counterReducer, todo: todoReducer })`. */
  const RootReducers: ReducerMap := ReducerMap(CounterReducer, TodoReducer)

  /** The keys of that object literal, in insertion order. */
  const RootReducerKeys: seq<Key> := [Count, Todo]

  /** `rootReducer`: the combined counter and todo reducers. */
  function RootReducer(state: Option<RootState>, action: Action): (next: RootState)
  {
    Combined(RootReducers, state, action)
  }

  /** The `rootReducer` instance: `combination` run over the literal's keys. */
  method RunRootReducer(state: Option<RootState>, action: Action) returns (nextState: RootState)
    ensures nextState == RootState(CounterReducer(PrevCount(state), action), TodoReducer(PrevTodo(state), action))
  {
    nextState := Combination(RootReducers, RootReducerKeys, state, action);
  }

  /** Each key's result depends only on that key's previous slice and the action. */
  lemma SliceIndependence(reducers: ReducerMap, s1: Option<RootState>, s2: Option<RootState>, action: Action)
    ensures PrevCount(s1) == PrevCount(s2) ==> Combined(reducers, s1, action).count == Combined(reducers, s2, action).count
    ensures PrevTodo(s1) == PrevTodo(s2) ==> Combined(reducers, s1, action).todo == Combined(reducers, s2, action).todo
  {
  }

  /** The counter: INC adds one, DEC subtracts one, RESET gives 0, anything else keeps the count. */
  lemma CounterSteps(prev: Option<int>, action: Action)
    ensures var n := if prev.Some? then prev.value else 0;
      CounterReducer(prev, action) == (if action.Inc? then n + 1 else if action.Dec? then n - 1 else if action.Reset? then 0 else n)
  {
  }

  /** The todo list: ADD_TODO appends its payload and keeps the earlier items; anything else keeps the list. */
  lemma TodoSteps(prev: Option<seq<string>>, action: Action)
    ensures var items := if prev.Some? then prev.value else [];
      var r := TodoReducer(prev, action);
      && (action.AddTodo? ==> |r| == |items| + 1 && r[..|items|] == items && r[|items|] == action.payload)
      && (!action.AddTodo? ==> r == items)
  {
  }

  /** INC then DEC gives back the count, with an absent one read as 0. */
  lemma IncThenDecRestores(prev: Option<int>)
    ensures CounterReducer(Some(CounterReducer(prev, Inc)), Dec) == prev.GetOr(0)
  {
  }

  /** From no state at all: an unlisted action gives the initial state, INC gives count 1. */
  lemma RootFromNothing(kind: string)
    ensures RootReducer(None, Unlisted(kind)) == RootState(0, [])
    ensures RootReducer(None, Inc) == RootState(1, [])
  {
  }

  /** ADD_TODO leaves the count alone; the counter actions leave the list alone. */
  lemma ActionsStayInTheirSlice(s: RootState, action: Action)
    ensures action.AddTodo? ==> RootReducer(Some(s), action) == RootState(s.count, s.todo + [action.payload])
    ensures IsCounterAction(action) ==> RootReducer(Some(s), action).todo == s.todo
  {
  }

  /** Dispatching actions one after another, starting from `state`. */
  function Dispatch(state: RootState, actions: seq<Action>): (final: RootState)
    decreases |actions|
  {
    if actions == [] then state else Dispatch(RootReducer(Some(state), actions[0]), actions[1..])
  }

  /** The payloads of the ADD_TODO actions, in order. */
  function Payloads(actions: seq<Action>): (payloads: seq<string>)
    ensures |payloads| <= |actions|
    decreases |actions|
  {
    if actions == [] then []
    else (if actions[0].AddTodo? then [actions[0].payload] else []) + Payloads(actions[1..])
  }

  /** After any actions the list is the old one followed by every ADD_TODO payload, in order. */
  lemma {:induction false} DispatchAppendsPayloads(state: RootState, actions: seq<Action>)
    ensures Dispatch(state, actions).todo == state.todo + Payloads(actions)
    decreases |actions|
  {
    if actions == [] {
      assert state.todo + [] == state.todo;
    } else {
      var next := RootReducer(Some(state), actions[0]);
      DispatchAppendsPayloads(next, actions[1..]);
      var first := if actions[0].AddTodo? then [actions[0].payload] else [];
      assert next.todo == state.todo + first;
      assert (state.todo + first) + Payloads(actions[1..]) == state.todo + (first + Payloads(actions[1..]));
    }
  }

  /** Actions that are not counter actions never change the count. */
  lemma {:induction false} CountOnlyMovesOnCounterActions(state: RootState, actions: seq<Action>)
    requires forall i :: 0 <= i < |actions| ==> !IsCounterAction(actions[i])
    ensures Dispatch(state, actions).count == state.count
    decreases |actions|
  {
    if actions != [] {
      assert forall i :: 0 <= i < |actions[1..]| ==> actions[1..][i] == actions[i + 1];
      CountOnlyMovesOnCounterActions(RootReducer(Some(state), actions[0]), actions[1..]);
    }
  }
}
