/** The callback registry `eventCallbacks`: one slot per event kind, written only by the
    six `onX` registration methods. This module states what one registration does to
    the registry; `Session.Yousign` applies it to its field. */
module Registry {
  import opened Values
  import opened Events
  import opened Errors

  /** The identity of a host-supplied JavaScript function. */
  datatype Callback = Callback(id: nat)

  /** The argument of a registration call: a function, or any other value. */
  datatype Argument = Function(callback: Callback) | NonFunction

  /** One optional handler per event kind; a missing key is an unregistered event. */
  type Callbacks = map<EventKind, Callback>

  /** The registry after a registration call, and what the call threw. */
  datatype Registration = Registration(callbacks: Callbacks, thrown: Option<SdkError>)

  /** `onX(fn)` for the event kind `kind`: a non-function is refused before anything
      is stored; a function replaces whatever was registered for `kind`. */
  function Register(reg: Callbacks, kind: EventKind, fn: Argument): (r: Registration)
    ensures r.thrown.Some? <==> fn.NonFunction?
    ensures r.thrown.Some? ==> r.thrown.value == InvalidCallbackFunction(Name(kind)) && r.callbacks == reg
    ensures r.thrown.None? ==> kind in r.callbacks && r.callbacks[kind] == fn.callback
    ensures r.callbacks.Keys == if fn.Function? then reg.Keys + {kind} else reg.Keys
    ensures forall other :: other != kind && other in reg ==> r.callbacks[other] == reg[other]
  {
    if fn.NonFunction? then Registration(reg, Some(InvalidCallbackFunction(Name(kind))))
    else Registration(reg[kind := fn.callback], None)
  }

  /** Last write wins: registering twice for one kind is the same as registering only
      the second value, whether or not the first was accepted. */
  lemma LastWriteWins(reg: Callbacks, kind: EventKind, first: Argument, second: Callback)
    ensures Register(Register(reg, kind, first).callbacks, kind, Function(second))
         == Register(reg, kind, Function(second))
  {
  }

  /** Registrations for different kinds do not interfere: their order is irrelevant. */
  lemma DistinctKindsCommute(reg: Callbacks, a: EventKind, b: EventKind, fa: Callback, fb: Callback)
    requires a != b
    ensures Register(Register(reg, a, Function(fa)).callbacks, b, Function(fb)).callbacks
         == Register(Register(reg, b, Function(fb)).callbacks, a, Function(fa)).callbacks
  {
  }
}
