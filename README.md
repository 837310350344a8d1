# custom-hooks: `useForm` and `useTodos` in Dafny

This project models the two hooks of the repository that hold state.

- `useForm(initialForm = {})` keeps one map from field name to text. `onInputChange` replaces
  the map with a copy in which only the changed field has its new value. `onResetForm` puts
  back the `initialForm` passed in the current render; the model takes that to be the
  argument the hook was created with. The hook returns an object that spreads
  every field to the top level and then adds its own members `formState`, `onInputChange`
  and `onResetForm`. Those three therefore overwrite fields with the same names.
  This is module `Form` in `Form.dfy`. The class `FormHook` holds the state cell. `SetField`
  and `HookObject` are the two spread operations. `Step`/`Replay` give the meaning of a run
  of calls, so properties of several calls in a row are lemmas.
- `useTodos()` loads the list once, through `init`, from the stored value. `init` falls back
  to `[]` when that value is null or falsy. Each of the three handlers dispatches one
  `{type, payload}` action with a fixed tag. The hook derives `todosCount` and
  `pewndingTodosCount` from the list. This is module `Todos` in `Todos.dfy`. The class
  `TodosHook` holds the list as of the current render and an append-only log of the actions
  that were dispatched.

`Wrappers.dfy` defines the `Option` type, for a value that may be absent. For `Form.InitialForm`, `None`
means the argument was omitted or `undefined`. For `Todos.InitFrom`, `None` means the parse gave
null or another falsy value.

The reducer `todoReducer` (imported at `useTodos/useTodos.js:2`) is not part of this model.
So the model gives actions no meaning on the list: a dispatch only records that the action
was emitted. In React a handler does not change the `todos` of the render it was called in,
so `TodosHook`'s handlers leave `todos` as it is.

`useForm` keeps no validation state: it has no rules, error messages or validity flag.

## Model

| member | source | states |
|---|---|---|
| `Form.InitialForm` | useForm/useForm.js:4 | when no argument is passed the initial form is the empty map; otherwise it is the argument |
| `Form.SetField` | useForm/useForm.js:11-16 | after the spread update the changed name maps to the new value, the key set is the old keys plus that name, and every other key keeps its old value |
| `Form.SetFieldTwice` | useForm/useForm.js:11-16 | two updates of the same field equal one update with the second value |
| `Form.SetFieldSameValue` | useForm/useForm.js:12-15 | writing back a field's current value leaves the state equal to what it was |
| `Form.HookObject` | useForm/useForm.js:23-28 | the returned object has the fields' keys plus the three own members; each field not named like an own member maps to its value; `formState`, `onInputChange`, `onResetForm` are the hook's own members even when a field has that name |
| `Form.HookObjectFields` | useForm/useForm.js:23-28 | a non-reserved key is a field at the top level exactly when it is in the state; a reserved key is never a field there; every field is still reachable through `formState` |
| `Form.Step` | useForm/useForm.js:9-21 | a reset yields the initial form; an input change sets that field, adds only its key and keeps every other key's value |
| `Form.ReplayAppend` | useForm/useForm.js:9-21 | running two runs of calls one after the other equals running their concatenation |
| `Form.ResetAfterAnything` | useForm/useForm.js:19-21 | whatever calls came before, a reset leaves the state equal to the initial form |
| `Form.ResetIdempotent` | useForm/useForm.js:19-21 | two resets in a row give the same state as one |
| `Form.SameFieldTwiceInRun` | useForm/useForm.js:11-16 | after any run, two changes of one field in a row equal a single change to the second value, and all other fields are as before both |
| `Form.InputChangesOnlyAddKeys` | useForm/useForm.js:12-15 | with no reset, the keys after a run are the starting keys plus the changed names, and untouched fields keep their values |
| `Form.FormHook.constructor` | useForm/useForm.js:4-6 | the state starts equal to `initialForm`, which is the empty map when no argument is given |
| `Form.FormHook.OnInputChange` | useForm/useForm.js:9-17 | the field `name` now holds `value`, the key set gains only `name`, all other keys keep their values |
| `Form.FormHook.OnResetForm` | useForm/useForm.js:19-21 | the state becomes the initial form again |
| `Form.FormHook.Returned` | useForm/useForm.js:23-28 | the returned object is `HookObject` of the current state, so own members shadow same-named fields; the `formState` member is the current state; every non-reserved field appears at the top level with its current value |
| `Todos.InitFrom` | useTodos/useTodos.js:4-7 | a null or falsy parse result gives the empty list; a parsed list is returned unchanged |
| `Todos.BuildAction` | useTodos/useTodos.js:18-44 | the add handler's action has tag `[TODO] Add Todo` and the todo as payload; delete and toggle have tags `[TODO] Remove Todo` and `[TODO] Toggle Todo` with the id as payload |
| `Todos.TagsDistinct` | useTodos/useTodos.js:18-44 | the three action tags are pairwise different |
| `Todos.ActionRoundTrip` | useTodos/useTodos.js:18-44 | reading an action back gives exactly the handler call that built it, and only built actions read back as that call |
| `Todos.BuildActionInjective` | useTodos/useTodos.js:18-44 | two handler calls build the same action exactly when they are the same call |
| `Todos.PendingTodos` | useTodos/useTodos.js:48 | the filter keeps exactly the items that are not done and is no longer than the list |
| `Todos.PendingCount` | useTodos/useTodos.js:48 | the pending count never exceeds the length of the list |
| `Todos.PendingTodosAppend` | useTodos/useTodos.js:48 | filtering a concatenation equals concatenating the filtered parts |
| `Todos.PendingCountAppend` | useTodos/useTodos.js:48 | the pending count of a concatenation is the sum of the two parts' counts |
| `Todos.NoPendingIffAllDone` | useTodos/useTodos.js:48 | the pending count is zero exactly when every item is done |
| `Todos.PendingCountIsNotDoneCount` | useTodos/useTodos.js:48 | the pending count equals the number of positions in the list whose item is not done |
| `Todos.AllPendingIffNoneDone` | useTodos/useTodos.js:48 | the pending count equals the length exactly when no item is done |
| `Todos.ResultFor` | useTodos/useTodos.js:46-57 | the returned record holds the list, `todosCount` equal to its length, and the pending count, with `0 <= pending <= todosCount` |
| `Todos.TodosHook.constructor` | useTodos/useTodos.js:4-11 | the list starts as `init`'s result: empty when nothing usable is stored; no action has been dispatched |
| `Todos.TodosHook.HandleNewTodo` | useTodos/useTodos.js:18-25 | exactly one action is appended to the dispatch log, with tag `[TODO] Add Todo` and the todo unchanged as payload |
| `Todos.TodosHook.HandleDeleteTodo` | useTodos/useTodos.js:27-34 | exactly one action is appended, with tag `[TODO] Remove Todo` and payload `id` |
| `Todos.TodosHook.HandleToggleTodo` | useTodos/useTodos.js:36-44 | exactly one action is appended, with tag `[TODO] Toggle Todo` and payload `id` |
| `Todos.TodosHook.Returned` | useTodos/useTodos.js:46-57 | `todosCount` is the current list's length and `pewndingTodosCount` its pending count, never above the length |

## Left out

- `todoReducer`: its file is not part of this model. Dispatch is modelled as appending to the `actions` log. The model does not say what add, remove or toggle do to the list.
- `Form.InitialForm`: an explicit `null` or another non-object argument is not modelled. In the source `useForm(null)` makes `initialForm` and `formState` null, and `onResetForm` puts null back. The model only covers an omitted or `undefined` argument, which gives `{}`, and a map argument.
- `localStorage` and JSON: `getItem`, `setItem`, `JSON.parse` and `JSON.stringify` are browser and library calls. `InitFrom` takes the parse result as its input.
- `Todos.InitFrom`: a parse result that is truthy but not a list is not modelled. Malformed stored text makes `JSON.parse` throw, and that is not modelled either.
- Write-through persistence: the `useEffect` that stores the list after the first render and after each change of the list is effect scheduling in React, not sequential logic.
- `console.log(id)` in `handleToggleTodo`: it only writes debug output.
- React internals: `useState`, `useReducer`, re-rendering and batching. In the source `onInputChange` spreads the `formState` captured when the component rendered. Two calls in one render would therefore lose the first. The model assumes that each call sees the latest state. `onResetForm` restores the argument of the render it came from; the model fixes `initialForm` at creation, i.e. assumes every render passes equal contents.
- The DOM event: `onInputChange` takes `(name, value)` directly instead of destructuring `{target}`.
- `Todos.Todo`: the hook itself reads only `done`. The handlers pass `todo` and `id` through without looking at their type; the model narrows the payloads to `Todo` and an `int` id. The shape of an item is decided by whoever calls `handleNewTodo`; `id` and `description` stand for it.
- `Todos.HookResult`: the returned object also holds `handleNewTodo`, `handleDeleteTodo` and `handleToggleTodo`; the record leaves them out and the model has them as methods of `TodosHook`.
