/** `_SmartyparseCallback` and the callback setters of `_ParsableBase`.
    A callback is a function plus a `modify` flag. The functions the
    caller registers are modelled as total functions on values; the four
    closures that `link_length` installs read or write the state of the
    composite that owns them, so they are named here and interpreted by
    the Field and the composite. */
module Callbacks {
  import opened Values

  datatype Action =
    | NoOp                          // `NOOP`: ignores its argument, returns None
    | Transform(f: Value -> Value)  // a caller-supplied function
    | SetLinkedLength(data: string) // `postunpack_len`: data field's length := the decoded value
    | Ignore(data: string)          // `postunpack_dat`: does nothing
    | ClearOwnLength(data: string)  // `prepack_dat`: `del` the data field's length
    | LinkedLength(data: string)    // `prepack_len`: returns the data field's length

  /** `modifying` is the source's `modify` flag. */
  datatype Callback = Callback(action: Action, modifying: bool)

  /** The four slots of a parsable, in pipeline order. */
  datatype Slots = Slots(preunpack: Callback, postunpack: Callback, prepack: Callback, postpack: Callback)

  datatype Stage = PreUnpack | PostUnpack | PrePack | PostPack

  const Unset := Callback(NoOp, false)
  const NoSlots := Slots(Unset, Unset, Unset, Unset)

  /** What the callback's function returns when called on `arg`;
      `linked` is the value `prepack_len` reads (the data field's length). */
  function Returned(a: Action, arg: Value, linked: Value): Value
  {
    match a
    case Transform(f) => f(arg)
    case LinkedLength(_) => linked
    case _ => NoneV
  }

  /** `__call__`: with modify the function's return modifying the argument,
      otherwise the argument passes through whatever the function returns. */
  function Call(cb: Callback, arg: Value, linked: Value): (r: Value)
    ensures !cb.modifying ==> r == arg
    ensures cb.modifying ==> r == Returned(cb.action, arg, linked)
  {
    if cb.modifying then Returned(cb.action, arg, linked) else arg
  }

  /** `__bool__`: false only for the unset slot. */
  predicate IsSet(cb: Callback)
  {
    !(cb.action.NoOp? && !cb.modifying)
  }

  /** The slot setters (`callback_preunpack = func`, ...): a new function
      keeps the slot's previous modify flag. */
  function SetFunc(cb: Callback, a: Action): (r: Callback)
    ensures r.action == a && r.modifying == cb.modifying
  {
    Callback(a, cb.modifying)
  }

  /** The slot deleters: back to the unset callback. */
  function Deleted(cb: Callback): (r: Callback)
    ensures !IsSet(r)
  {
    Unset
  }

  function StageOf(callOn: string): (r: Result<Stage>)
    ensures r.Ok? <==> callOn in {"preunpack", "postunpack", "prepack", "postpack"}
    ensures r.Err? ==> r.error == ValueError
  {
    if callOn == "preunpack" then Ok(PreUnpack)
    else if callOn == "postunpack" then Ok(PostUnpack)
    else if callOn == "prepack" then Ok(PrePack)
    else if callOn == "postpack" then Ok(PostPack)
    else Err(ValueError)
  }

  function Slot(s: Slots, stage: Stage): Callback
  {
    match stage
    case PreUnpack => s.preunpack
    case PostUnpack => s.postunpack
    case PrePack => s.prepack
    case PostPack => s.postpack
  }

  function WithSlot(s: Slots, stage: Stage, cb: Callback): Slots
  {
    match stage
    case PreUnpack => s.(preunpack := cb)
    case PostUnpack => s.(postunpack := cb)
    case PrePack => s.(prepack := cb)
    case PostPack => s.(postpack := cb)
  }

  /** `register_callback(call_on, func, modify)`: an unknown stage is a
      ValueError; otherwise exactly that slot becomes (func, modify). */
  function Register(s: Slots, callOn: string, a: Action, modifying: bool): (r: Result<Slots>)
    ensures r.Ok? <==> callOn in {"preunpack", "postunpack", "prepack", "postpack"}
    ensures r.Err? ==> r.error == ValueError
    ensures r.Ok? ==> Slot(r.value, StageOf(callOn).value) == Callback(a, modifying)
    ensures r.Ok? ==> forall st :: st != StageOf(callOn).value ==> Slot(r.value, st) == Slot(s, st)
  {
    var stage :- StageOf(callOn);
    // the setter keeps the old flag, then register_callback overwrites it
    var kept := SetFunc(Slot(s, stage), a);
    Ok(WithSlot(s, stage, kept.(modifying := modifying)))
  }

  /** An observing callback is the identity; a replacing one is its function. */
  lemma ObserveOrReplace(f: Value -> Value, arg: Value, linked: Value)
    ensures Call(Callback(Transform(f), false), arg, linked) == arg
    ensures Call(Callback(Transform(f), true), arg, linked) == f(arg)
  {
  }

  /** Reassigning a slot's function and then calling it uses the old flag. */
  lemma SetFuncKeepsMode(cb: Callback, f: Value -> Value, arg: Value, linked: Value)
    ensures Call(SetFunc(cb, Transform(f)), arg, linked) == if cb.modifying then f(arg) else arg
  {
  }
}
