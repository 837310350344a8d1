/**
 * Model of the `useForm` hook: a single state cell holding the form's
 * field values, replaced by `onInputChange` and `onResetForm`, and the
 * object the hook returns to the component.
 */
module Form {
  import opened Wrappers

  /** Field name -> current text of that field. */
  type FormState = map<string, string>

  /** Names of the hook's own members in the returned object. */
  const FORM_STATE := "formState"
  const ON_INPUT_CHANGE := "onInputChange"
  const ON_RESET_FORM := "onResetForm"
  const OwnMembers: set<string> := {FORM_STATE, ON_INPUT_CHANGE, ON_RESET_FORM}

  /**
   * The initial form when the caller passes `initialForm`, or `{}` when it is
   * omitted or `undefined` (`None`); an explicit `null` is not modelled.
   */
  function InitialForm(arg: Option<FormState>): (r: FormState)
    ensures arg.None? ==> r == map[]
    ensures arg.Some? ==> r == arg.value
  {
    match arg
    case None => map[]
    case Some(f) => f
  }

  /** `{...s, [name]: value}`: the state after one input change. */
  function SetField(s: FormState, name: string, value: string): (r: FormState)
    ensures name in r && r[name] == value
    ensures r.Keys == s.Keys + {name}
    ensures forall k :: k in s && k != name ==> r[k] == s[k]
  {
    s[name := value]
  }

  /** Changing the same field twice keeps the second value and nothing else of the first change. */
  lemma SetFieldTwice(s: FormState, name: string, v1: string, v2: string)
    ensures SetField(SetField(s, name, v1), name, v2) == SetField(s, name, v2)
  {
  }

  /** Setting a field to the value it already has changes nothing. */
  lemma SetFieldSameValue(s: FormState, name: string)
    requires name in s
    ensures SetField(s, name, s[name]) == s
  {
  }

  // ---------------------------------------------------------------------
  // The object returned by the hook
  // ---------------------------------------------------------------------

  /** A value stored under one key of the returned object. */
  datatype Member =
    | Field(text: string)           // a field value copied by `...formState`
    | StateMember(state: FormState) // the `formState` member itself
    | InputChangeMember             // the `onInputChange` handler
    | ResetMember                   // the `onResetForm` handler

  /**
   * `{...formState, formState, onInputChange, onResetForm}`: the spread
   * comes first, so the three own members overwrite any field of the same name.
   */
  function HookObject(s: FormState): (r: map<string, Member>)
    ensures r.Keys == s.Keys + OwnMembers
    ensures forall k :: k in s && k !in OwnMembers ==> r[k] == Field(s[k])
    ensures r[FORM_STATE] == StateMember(s)
    ensures r[ON_INPUT_CHANGE] == InputChangeMember
    ensures r[ON_RESET_FORM] == ResetMember
  {
    var spread := map k | k in s :: Field(s[k]);
    spread + map[FORM_STATE := StateMember(s), ON_INPUT_CHANGE := InputChangeMember, ON_RESET_FORM := ResetMember]
  }

  /**
   * A field shows up at the top level of the returned object exactly when it is
   * not named like an own member; a field named like one is hidden there but
   * still reachable through `formState`.
   */
  lemma HookObjectFields(s: FormState, k: string)
    ensures k !in OwnMembers ==> (k in HookObject(s) && HookObject(s)[k].Field? <==> k in s)
    ensures k in s && k !in OwnMembers ==> HookObject(s)[k].text == s[k]
    ensures k in OwnMembers ==> !HookObject(s)[k].Field?
    ensures k in s ==> k in HookObject(s)[FORM_STATE].state && HookObject(s)[FORM_STATE].state[k] == s[k]
  {
  }

  // ---------------------------------------------------------------------
  // Sequences of calls
  // ---------------------------------------------------------------------

  /** A call a component can make on the hook. */
  datatype FormEvent =
    | InputChange(name: string, value: string)
    | ResetForm

  /** The state after one call, given the form the hook started from. */
  function Step(initial: FormState, s: FormState, e: FormEvent): (r: FormState)
    ensures e.ResetForm? ==> r == initial
    ensures e.InputChange? ==> r.Keys == s.Keys + {e.name} && r[e.name] == e.value
    ensures e.InputChange? ==> forall k :: k in s && k != e.name ==> r[k] == s[k]
  {
    match e
    case InputChange(name, value) => SetField(s, name, value)
    case ResetForm => initial
  }

  /** The state after a run of calls, each seeing the latest state. */
  function Replay(initial: FormState, s: FormState, es: seq<FormEvent>): FormState
    decreases |es|
  {
    if es == [] then s else Replay(initial, Step(initial, s, es[0]), es[1..])
  }

  /** Running `a` and then `b` is running `a + b`. */
  lemma {:induction false} ReplayAppend(initial: FormState, s: FormState, a: seq<FormEvent>, b: seq<FormEvent>)
    ensures Replay(initial, s, a + b) == Replay(initial, Replay(initial, s, a), b)
    decreases |a|
  {
    if a == [] {
      assert a + b == b;
    } else {
      assert (a + b)[1..] == a[1..] + b;
      ReplayAppend(initial, Step(initial, s, a[0]), a[1..], b);
    }
  }

  /** Whatever calls came before, a reset puts back the initial form. */
  lemma {:induction false} ResetAfterAnything(initial: FormState, s: FormState, es: seq<FormEvent>)
    ensures Replay(initial, s, es + [ResetForm]) == initial
  {
    ReplayAppend(initial, s, es, [ResetForm]);
  }

  /** Resetting twice gives the same state as resetting once. */
  lemma {:induction false} ResetIdempotent(initial: FormState, s: FormState, es: seq<FormEvent>)
    ensures Replay(initial, s, es + [ResetForm, ResetForm]) == Replay(initial, s, es + [ResetForm])
  {
    assert es + [ResetForm, ResetForm] == (es + [ResetForm]) + [ResetForm];
    ResetAfterAnything(initial, s, es + [ResetForm]);
    ResetAfterAnything(initial, s, es);
  }

  /** Two changes of the same field in a row: the second value wins, the rest is as before both. */
  lemma {:induction false} SameFieldTwiceInRun(initial: FormState, s: FormState, es: seq<FormEvent>, name: string, v1: string, v2: string)
    ensures Replay(initial, s, es + [InputChange(name, v1), InputChange(name, v2)])
         == SetField(Replay(initial, s, es), name, v2)
  {
    ReplayAppend(initial, s, es, [InputChange(name, v1), InputChange(name, v2)]);
    var before := Replay(initial, s, es);
    var two := [InputChange(name, v1), InputChange(name, v2)];
    assert two[1..] == [InputChange(name, v2)];
    assert [InputChange(name, v2)][1..] == [];
    calc {
      Replay(initial, before, two);
      Replay(initial, SetField(before, name, v1), [InputChange(name, v2)]);
      Replay(initial, SetField(SetField(before, name, v1), name, v2), []);
      { SetFieldTwice(before, name, v1, v2); }
      SetField(before, name, v2);
    }
  }

  /** True when no call in `es` is a reset. */
  predicate NoReset(es: seq<FormEvent>) {
    forall i :: 0 <= i < |es| ==> es[i].InputChange?
  }

  /** The field names touched by the input changes in `es`. */
  function ChangedNames(es: seq<FormEvent>): set<string>
    decreases |es|
  {
    if es == [] then {}
    else (if es[0].InputChange? then {es[0].name} else {}) + ChangedNames(es[1..])
  }

  /**
   * Input changes only ever add keys: without a reset, the key set after a
   * run is the starting keys plus every name changed, and an untouched field
   * keeps its value.
   */
  lemma {:induction false} InputChangesOnlyAddKeys(initial: FormState, s: FormState, es: seq<FormEvent>)
    requires NoReset(es)
    ensures Replay(initial, s, es).Keys == s.Keys + ChangedNames(es)
    ensures forall k :: k in s && k !in ChangedNames(es) ==> Replay(initial, s, es)[k] == s[k]
    decreases |es|
  {
    if es != [] {
      assert NoReset(es[1..]) by {
        forall i | 0 <= i < |es[1..]| ensures es[1..][i].InputChange? {
          assert es[1..][i] == es[i + 1];
        }
      }
      InputChangesOnlyAddKeys(initial, Step(initial, s, es[0]), es[1..]);
    }
  }

  // ---------------------------------------------------------------------
  // The hook itself
  // ---------------------------------------------------------------------

  /** One `useForm(initialForm)` instance; each call sees the latest state. */
  class FormHook {
    /**
     * The `initialForm` argument, kept for `onResetForm`. The source's reset restores the
     * argument of the render it came from; here every render is taken to pass this one.
     */
    const initialForm: FormState
    /** The `formState` cell. */
    var formState: FormState

    /** `useForm(initialForm = {})`: the state starts as the initial form. */
    constructor (arg: Option<FormState>)
      ensures initialForm == InitialForm(arg)
      ensures arg.None? ==> formState == map[]
      ensures formState == initialForm
    {
      initialForm := InitialForm(arg);
      formState := InitialForm(arg);
    }

    /** `onInputChange` for the event target `{name, value}`. */
    method OnInputChange(name: string, value: string)
      modifies this
      ensures formState == Step(initialForm, old(formState), InputChange(name, value))
      ensures name in formState && formState[name] == value
      ensures formState.Keys == old(formState).Keys + {name}
      ensures forall k :: k in old(formState) && k != name ==> formState[k] == old(formState)[k]
    {
      formState := SetField(formState, name, value);
    }

    /** `onResetForm`: the state becomes the initial form again. */
    method OnResetForm()
      modifies this
      ensures formState == Step(initialForm, old(formState), ResetForm)
      ensures formState == initialForm
    {
      formState := initialForm;
    }

    /** What the hook returns to the component in the current state. */
    function Returned(): (r: map<string, Member>)
      reads this
      ensures r == HookObject(formState)
      ensures FORM_STATE in r && r[FORM_STATE] == StateMember(formState)
      ensures forall k :: k in formState && k !in OwnMembers ==> k in r && r[k] == Field(formState[k])
    {
      HookObject(formState)
    }
  }
}
