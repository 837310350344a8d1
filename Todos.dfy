/**
 * Model of the `useTodos` hook: the list loaded once from storage, the
 * three handlers that turn a call into one action for the reducer, and the
 * two counts derived from the list.
 */
module Todos {
  import opened Wrappers

  type TodoId = int

  /**
   * One todo item. The handlers pass items and ids through untyped; their callers decide
   * an item's shape, and the hook itself reads only `done`.
   */
  datatype Todo = Todo(id: TodoId, description: string, done: bool)

  // ---------------------------------------------------------------------
  // Loading
  // ---------------------------------------------------------------------

  /**
   * `JSON.parse(localStorage.getItem('todos')) || []`. `parsed` is what the
   * parse produced: `None` for null (nothing stored) or any other falsy value.
   */
  function InitFrom(parsed: Option<seq<Todo>>): (r: seq<Todo>)
    ensures parsed.None? ==> r == []
    ensures parsed.Some? ==> r == parsed.value
  {
    match parsed
    case None => []
    case Some(todos) => todos
  }

  // ---------------------------------------------------------------------
  // Actions
  // ---------------------------------------------------------------------

  const ADD_TODO := "[TODO] Add Todo"
  const REMOVE_TODO := "[TODO] Remove Todo"
  const TOGGLE_TODO := "[TODO] Toggle Todo"

  /** The `payload` of an action: a whole todo, or an id. */
  datatype Payload = TodoPayload(todo: Todo) | IdPayload(id: TodoId)

  /** `{type, payload}` as dispatched to the reducer. */
  datatype Action = Action(tag: string, payload: Payload)

  /** A call of one of the three handlers, with its argument. */
  datatype HandlerCall =
    | NewTodo(todo: Todo)
    | DeleteTodo(id: TodoId)
    | ToggleTodo(id: TodoId)

  /** The action a handler builds from its argument. */
  function BuildAction(c: HandlerCall): (a: Action)
    ensures c.NewTodo? ==> a.tag == ADD_TODO && a.payload == TodoPayload(c.todo)
    ensures c.DeleteTodo? ==> a.tag == REMOVE_TODO && a.payload == IdPayload(c.id)
    ensures c.ToggleTodo? ==> a.tag == TOGGLE_TODO && a.payload == IdPayload(c.id)
  {
    match c
    case NewTodo(todo) => Action(ADD_TODO, TodoPayload(todo))
    case DeleteTodo(id) => Action(REMOVE_TODO, IdPayload(id))
    case ToggleTodo(id) => Action(TOGGLE_TODO, IdPayload(id))
  }

  /** Which handler call an action stands for, read from its tag and payload. */
  function CallOf(a: Action): Option<HandlerCall> {
    if a.tag == ADD_TODO && a.payload.TodoPayload? then Some(NewTodo(a.payload.todo))
    else if a.tag == REMOVE_TODO && a.payload.IdPayload? then Some(DeleteTodo(a.payload.id))
    else if a.tag == TOGGLE_TODO && a.payload.IdPayload? then Some(ToggleTodo(a.payload.id))
    else None
  }

  /** The three tags are pairwise different strings. */
  lemma TagsDistinct()
    ensures ADD_TODO != REMOVE_TODO && ADD_TODO != TOGGLE_TODO && REMOVE_TODO != TOGGLE_TODO
  {
  }

  /**
   * An action loses nothing of the call that built it: reading it back gives
   * that call, and only actions built by a handler read back as a call.
   */
  lemma ActionRoundTrip(c: HandlerCall, a: Action)
    ensures CallOf(BuildAction(c)) == Some(c)
    ensures CallOf(a) == Some(c) ==> a == BuildAction(c)
  {
  }

  /** Different calls give different actions. */
  lemma BuildActionInjective(c1: HandlerCall, c2: HandlerCall)
    ensures BuildAction(c1) == BuildAction(c2) <==> c1 == c2
  {
  }

  // ---------------------------------------------------------------------
  // Counts
  // ---------------------------------------------------------------------

  /** `todos.filter(todo => !todo.done)`. */
  function PendingTodos(todos: seq<Todo>): (r: seq<Todo>)
    ensures |r| <= |todos|
    ensures forall t :: t in r <==> t in todos && !t.done
    decreases |todos|
  {
    if todos == [] then []
    else if !todos[0].done then [todos[0]] + PendingTodos(todos[1..])
    else PendingTodos(todos[1..])
  }

  /** `pewndingTodosCount`: the length of the filtered list. */
  function PendingCount(todos: seq<Todo>): (n: nat)
    ensures n <= |todos|
  {
    |PendingTodos(todos)|
  }

  /** Filtering a concatenation filters each part. */
  lemma {:induction false} PendingTodosAppend(a: seq<Todo>, b: seq<Todo>)
    ensures PendingTodos(a + b) == PendingTodos(a) + PendingTodos(b)
    decreases |a|
  {
    if a == [] {
      assert a + b == b;
    } else {
      assert (a + b)[0] == a[0];
      assert (a + b)[1..] == a[1..] + b;
      PendingTodosAppend(a[1..], b);
    }
  }

  /** The pending count of a concatenation is the sum of the parts' counts. */
  lemma {:induction false} PendingCountAppend(a: seq<Todo>, b: seq<Todo>)
    ensures PendingCount(a + b) == PendingCount(a) + PendingCount(b)
  {
    PendingTodosAppend(a, b);
  }

  /** Nothing is pending exactly when every item is done. */
  lemma {:induction false} NoPendingIffAllDone(todos: seq<Todo>)
    ensures PendingCount(todos) == 0 <==> forall i :: 0 <= i < |todos| ==> todos[i].done
  {
    if PendingCount(todos) == 0 {
      forall i | 0 <= i < |todos| ensures todos[i].done {
        assert todos[i] in todos;
      }
    } else {
      var t := PendingTodos(todos)[0];
      assert t in PendingTodos(todos);
      var i :| 0 <= i < |todos| && todos[i] == t;
    }
  }

  /** The indices of the items of `todos` that are not done. */
  function NotDoneIndices(todos: seq<Todo>): set<nat> {
    set i: nat | i < |todos| && !todos[i].done
  }

  /** Every element of `s` plus one. */
  function Shift(s: set<nat>): set<nat> {
    set i | i in s :: i + 1
  }

  /** Adding one to every element keeps the size of a set of naturals. */
  lemma {:induction false} ShiftedCardinality(s: set<nat>)
    ensures |Shift(s)| == |s|
    decreases |s|
  {
    var shifted := Shift(s);
    if s == {} {
      assert shifted == {};
    } else {
      var x :| x in s;
      var rest := s - {x};
      var restShifted := Shift(rest);
      ShiftedCardinality(rest);
      forall j | j in shifted ensures j in restShifted + {x + 1} {
        var i :| i in s && j == i + 1;
        if i != x { assert i in rest; }
      }
      forall j | j in restShifted + {x + 1} ensures j in shifted {
        if j != x + 1 {
          var i :| i in rest && j == i + 1;
        }
      }
      assert shifted == restShifted + {x + 1};
      assert x + 1 !in restShifted;
      assert |shifted| == |restShifted| + 1;
      assert s == rest + {x} && |s| == |rest| + 1;
    }
  }

  /** Shifting every index of the tail by one gives the indices beyond the head. */
  lemma {:induction false} NotDoneIndicesShift(todos: seq<Todo>)
    requires todos != []
    ensures NotDoneIndices(todos) == (if todos[0].done then {} else {0}) + Shift(NotDoneIndices(todos[1..]))
    ensures |Shift(NotDoneIndices(todos[1..]))| == |NotDoneIndices(todos[1..])|
  {
    var tail := NotDoneIndices(todos[1..]);
    var shifted := Shift(tail);
    forall j: nat | j in NotDoneIndices(todos) && j != 0 ensures j in shifted {
      assert todos[1..][j - 1] == todos[j];
      assert j - 1 in tail;
    }
    forall j | j in shifted ensures j in NotDoneIndices(todos) {
      var i :| i in tail && j == i + 1;
      assert todos[1..][i] == todos[j];
    }
    ShiftedCardinality(tail);
  }

  /** `pewndingTodosCount` is the number of items whose `done` is false. */
  lemma {:induction false} PendingCountIsNotDoneCount(todos: seq<Todo>)
    ensures PendingCount(todos) == |NotDoneIndices(todos)|
    decreases |todos|
  {
    if todos == [] {
      assert NotDoneIndices(todos) == {};
    } else {
      PendingCountIsNotDoneCount(todos[1..]);
      NotDoneIndicesShift(todos);
      var shifted := Shift(NotDoneIndices(todos[1..]));
      assert 0 !in shifted;
    }
  }

  /** Everything is pending exactly when no item is done. */
  lemma {:induction false} AllPendingIffNoneDone(todos: seq<Todo>)
    ensures PendingCount(todos) == |todos| <==> forall i :: 0 <= i < |todos| ==> !todos[i].done
    decreases |todos|
  {
    if todos != [] {
      AllPendingIffNoneDone(todos[1..]);
      if todos[0].done {
        assert PendingCount(todos) == PendingCount(todos[1..]) <= |todos| - 1;
      } else {
        assert PendingCount(todos) == 1 + PendingCount(todos[1..]);
        assert forall i :: 1 <= i < |todos| ==> todos[i] == todos[1..][i - 1];
      }
    }
  }

  /**
   * The hook's result record; `pewndingTodosCount` keeps the source's spelling of the key.
   * The three handlers the source also returns are the methods of `TodosHook`.
   */
  datatype HookResult = HookResult(todos: seq<Todo>, todosCount: nat, pewndingTodosCount: nat)

  /** What the hook returns for the list `todos`. */
  function ResultFor(todos: seq<Todo>): (r: HookResult)
    ensures r.todos == todos
    ensures r.todosCount == |todos|
    ensures r.pewndingTodosCount == PendingCount(todos)
    ensures 0 <= r.pewndingTodosCount <= r.todosCount
  {
    HookResult(todos, |todos|, PendingCount(todos))
  }

  // ---------------------------------------------------------------------
  // The hook itself
  // ---------------------------------------------------------------------

  /**
   * One render of `useTodos`. `todos` is the list the reducer holds as of this
   * render; the reducer is not part of this model, so dispatching only appends
   * to `actions`, the queue of actions handed to it.
   */
  class TodosHook {
    var todos: seq<Todo>
    var actions: seq<Action>

    /** First render: the list comes from storage through `init`. */
    constructor (parsed: Option<seq<Todo>>)
      ensures todos == InitFrom(parsed)
      ensures parsed.None? ==> todos == []
      ensures actions == []
    {
      todos := InitFrom(parsed);
      actions := [];
    }

    /** `handleNewTodo(todo)`: dispatches one Add action carrying `todo`. */
    method HandleNewTodo(todo: Todo)
      modifies this`actions
      ensures actions == old(actions) + [BuildAction(NewTodo(todo))]
      ensures actions[|actions| - 1] == Action(ADD_TODO, TodoPayload(todo))
    {
      actions := actions + [BuildAction(NewTodo(todo))];
    }

    /** `handleDeleteTodo(id)`: dispatches one Remove action carrying `id`. */
    method HandleDeleteTodo(id: TodoId)
      modifies this`actions
      ensures actions == old(actions) + [BuildAction(DeleteTodo(id))]
      ensures actions[|actions| - 1] == Action(REMOVE_TODO, IdPayload(id))
    {
      actions := actions + [BuildAction(DeleteTodo(id))];
    }

    /** `handleToggleTodo(id)`: dispatches one Toggle action carrying `id`. */
    method HandleToggleTodo(id: TodoId)
      modifies this`actions
      ensures actions == old(actions) + [BuildAction(ToggleTodo(id))]
      ensures actions[|actions| - 1] == Action(TOGGLE_TODO, IdPayload(id))
    {
      actions := actions + [BuildAction(ToggleTodo(id))];
    }

    /** The record returned to the component for this render. */
    function Returned(): (r: HookResult)
      reads this
      ensures r.todos == todos && r.todosCount == |todos|
      ensures r.pewndingTodosCount == PendingCount(todos) <= |todos|
    {
      ResultFor(todos)
    }
  }
}
