/** The context store of one orchestration run: the current goal, an ordered
    task list, an append-only history log and a variable dictionary
    (src/core/context_tracker.py). */
module ContextTracking {
  import opened Common
  import opened PyValue

  /** One history record, `{"event": ..., "detail": ...}`. The detail is
      whatever the caller passed; it is a string except where a stage result
      is logged directly. */
  datatype Event = Event(event: string, detail: Value)

  /** The four fields of the context dictionary, as a value. */
  datatype ContextState = ContextState(
    goal: Option<string>,
    tasks: seq<string>,
    history: seq<Event>,
    variables: Entries)
  {
    /** The dictionary `get_context()` hands out, keys in insertion order. */
    function ToValue(): (v: Value)
      ensures v.Dict? && Keys(v.entries) == ["current_goal", "task_list", "history", "variables"]
    {
      Dict([("current_goal", if goal.Some? then Str(goal.value) else Null),
            ("task_list", StrList(tasks)),
            ("history", List(seq(|history|, i requires 0 <= i < |history| => EventValue(history[i])))),
            ("variables", Dict(variables))])
    }

    /** The state after `log_event(e, d)`. */
    function WithEvent(e: string, d: Value): ContextState {
      this.(history := history + [Event(e, d)])
    }

    /** The state after `update_variable(k, v)`. */
    function WithVariable(k: string, v: Value): ContextState {
      this.(variables := Put(variables, k, v)).WithEvent("Variable updated", VariableDetail(k, v))
    }
  }

  function EventValue(e: Event): Value {
    Dict([("event", Str(e.event)), ("detail", e.detail)])
  }

  /** The detail `update_variable` logs: `f"{key} = {value}"`. */
  function VariableDetail(k: string, v: Value): Value {
    Str(k + " = " + Render(v))
  }

  /** The state `__init__` and `reset` establish. */
  function Initial(): ContextState {
    ContextState(None, [], [], [])
  }

  /** A dictionary handed to `load_context`; `None` marks a missing key
      (for the goal, a missing key and a stored null are the same). */
  datatype SavedData = SavedData(
    goal: Option<string>,
    tasks: Option<seq<string>>,
    history: Option<seq<Event>>,
    variables: Option<Entries>)

  function OrElse<T>(o: Option<T>, default: T): T {
    if o.Some? then o.value else default
  }

  /** The state `load_context(data)` leaves: each field replaced, missing keys
      defaulting to None / [] / [] / {}. */
  function Loaded(data: SavedData): ContextState {
    ContextState(data.goal, OrElse(data.tasks, []), OrElse(data.history, []), OrElse(data.variables, []))
  }

  /** What `get_context()` returns, as `load_context` would read it back. */
  function Snapshot(s: ContextState): SavedData {
    SavedData(s.goal, Some(s.tasks), Some(s.history), Some(s.variables))
  }

  // ---------------------------------------------------------------------
  // list.remove

  /** Index of the first occurrence of `x`. */
  function IndexOf<T(==)>(xs: seq<T>, x: T): (i: nat)
    requires x in xs
    ensures i < |xs| && xs[i] == x && x !in xs[..i]
  {
    if xs[0] == x then 0
    else
      assert x in xs[1..];
      var j := IndexOf(xs[1..], x);
      assert xs[..j + 1] == [xs[0]] + xs[1..][..j];
      j + 1
  }

  /** `xs.remove(x)` when `x in xs`; the list unchanged otherwise. */
  function RemoveFirst<T(==)>(xs: seq<T>, x: T): seq<T> {
    if xs == [] then []
    else if xs[0] == x then xs[1..]
    else [xs[0]] + RemoveFirst(xs[1..], x)
  }

  lemma {:induction false} RemoveFirstSplits<T>(xs: seq<T>, x: T)
    requires x in xs
    ensures RemoveFirst(xs, x) == xs[..IndexOf(xs, x)] + xs[IndexOf(xs, x) + 1..]
  {
    if xs[0] != x {
      var tail := xs[1..];
      assert x in tail;
      RemoveFirstSplits(tail, x);
      var i := IndexOf(tail, x);
      assert IndexOf(xs, x) == i + 1;
      assert xs[..i + 1] == [xs[0]] + tail[..i];
      assert xs[i + 2..] == tail[i + 1..];
    }
  }

  /** Dropping one position loses one copy of its element. */
  lemma {:induction false} MultisetDropAt<T>(xs: seq<T>, i: nat)
    requires i < |xs|
    ensures multiset(xs[..i] + xs[i + 1..]) == multiset(xs) - multiset{xs[i]}
  {
    var before, after := xs[..i], xs[i + 1..];
    assert xs == before + [xs[i]] + after;
    assert multiset(xs) == multiset(before) + multiset{xs[i]} + multiset(after);
    assert multiset(before + after) == multiset(before) + multiset(after);
  }

  /** `remove` deletes exactly the first occurrence and keeps the order of the rest. */
  lemma {:induction false} RemoveFirstDeletesFirstOccurrence<T>(xs: seq<T>, x: T)
    requires x in xs
    ensures RemoveFirst(xs, x) == xs[..IndexOf(xs, x)] + xs[IndexOf(xs, x) + 1..]
    ensures multiset(RemoveFirst(xs, x)) == multiset(xs) - multiset{x}
  {
    var i := IndexOf(xs, x);
    var r := RemoveFirst(xs, x);
    RemoveFirstSplits(xs, x);
    assert r == xs[..i] + xs[i + 1..];
    MultisetDropAt(xs, i);
    assert multiset(r) == multiset(xs) - multiset{xs[i]};
  }

  /** A context tracker, mutated in place by every method but `get_variable`
      and `get_context`. Every mutator other than `load_context` and `reset`
      appends exactly one history record (`complete_task` only when the task
      is present). */
  class ContextTracker {
    var goal: Option<string>
    var tasks: seq<string>
    var history: seq<Event>
    var variables: Entries

    function State(): ContextState
      reads this
    {
      ContextState(goal, tasks, history, variables)
    }

    /** `__init__`: no goal, no tasks, no history, no variables. */
    constructor ()
      ensures State() == Initial()
    {
      goal, tasks, history, variables := None, [], [], [];
    }

    /** `set_goal` */
    method SetGoal(g: string)
      modifies this
      ensures goal == Some(g)
      ensures history == old(history) + [Event("Goal set", Str(g))]
      ensures tasks == old(tasks) && variables == old(variables)
    {
      goal := Some(g);
      LogEvent("Goal set", Str(g));
    }

    /** `load_context`: all four fields replaced wholesale, no history record added. */
    method LoadContext(data: SavedData)
      modifies this
      ensures goal == data.goal
      ensures tasks == (if data.tasks.Some? then data.tasks.value else [])
      ensures history == (if data.history.Some? then data.history.value else [])
      ensures variables == (if data.variables.Some? then data.variables.value else [])
    {
      goal := data.goal;
      tasks := OrElse(data.tasks, []);
      history := OrElse(data.history, []);
      variables := OrElse(data.variables, []);
    }

    /** `add_task`: the task goes to the end of the list. */
    method AddTask(t: string)
      modifies this
      ensures tasks == old(tasks) + [t]
      ensures history == old(history) + [Event("Task added", Str(t))]
      ensures goal == old(goal) && variables == old(variables)
    {
      tasks := tasks + [t];
      LogEvent("Task added", Str(t));
    }

    /** `complete_task`: removes the first occurrence and logs; an absent task is ignored silently. */
    method CompleteTask(t: string)
      modifies this
      ensures t in old(tasks) ==>
        var i := IndexOf(old(tasks), t);
        tasks == old(tasks)[..i] + old(tasks)[i + 1..] &&
        history == old(history) + [Event("Task completed", Str(t))]
      ensures t !in old(tasks) ==> tasks == old(tasks) && history == old(history)
      ensures goal == old(goal) && variables == old(variables)
    {
      if t in tasks {
        RemoveFirstDeletesFirstOccurrence(tasks, t);
        tasks := RemoveFirst(tasks, t);
        LogEvent("Task completed", Str(t));
      }
    }

    /** `update_variable`: the key now maps to the value, every other key keeps
        its value, and one record is logged even when the key is overwritten. */
    method UpdateVariable(k: string, v: Value)
      modifies this
      ensures variables == Put(old(variables), k, v)
      ensures Get(variables, k) == Some(v)
      ensures forall other :: other != k ==> Get(variables, other) == Get(old(variables), other)
      ensures history == old(history) + [Event("Variable updated", VariableDetail(k, v))]
      ensures goal == old(goal) && tasks == old(tasks)
    {
      PutGet(variables, k, v);
      forall other | other != k ensures Get(Put(variables, k, v), other) == Get(variables, other) {
        PutGetOther(variables, k, other, v);
      }
      variables := Put(variables, k, v);
      LogEvent("Variable updated", VariableDetail(k, v));
    }

    /** `get_variable`: the stored value, or None when the key is absent. */
    method GetVariable(k: string) returns (v: Value)
      ensures k in Keys(variables) ==> Get(variables, k) == Some(v)
      ensures k !in Keys(variables) ==> v == Null
    {
      v := GetOr(variables, k, Null);
    }

    /** `get_context` */
    method GetContext() returns (c: ContextState)
      ensures c == State()
    {
      c := ContextState(goal, tasks, history, variables);
    }

    /** `log_event`: one record at the end; earlier records untouched. */
    method LogEvent(e: string, d: Value)
      modifies this
      ensures history == old(history) + [Event(e, d)]
      ensures goal == old(goal) && tasks == old(tasks) && variables == old(variables)
    {
      history := history + [Event(e, d)];
    }

    /** `reset`: back to the initial state. */
    method Reset()
      modifies this
      ensures State() == Initial()
    {
      goal, tasks, history, variables := None, [], [], [];
    }
  }
}
