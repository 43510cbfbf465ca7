/**
 * Context registration on a connect or listen dispatcher: each context name is a single-owner
 * lease. Registering a name that is live fails loudly; dropping the handle frees the name.
 */
module Dispatch {

  /** The message of the panic on a second registration. */
  const DOUBLE_REGISTER_PANIC: string := "called `register` twice for the same `context`"

  datatype Role = Connector | Listener

  /** The handle `register` hands out; it owns its context name until it is dropped. */
  class ContextHandle {
    const dispatcher: Dispatcher
    const context: string

    constructor (dispatcher: Dispatcher, context: string)
      ensures this.dispatcher == dispatcher && this.context == context
    {
      this.dispatcher := dispatcher;
      this.context := context;
    }
  }

  datatype Registration = Registered(handle: ContextHandle) | Panicked(message: string)

  class Dispatcher {
    const role: Role
    /** Every live context name, with the one handle that holds it. */
    var live: map<string, ContextHandle>

    ghost predicate Valid()
      reads this, live.Values
    {
      forall context | context in live :: live[context].context == context && live[context].dispatcher == this
    }

    constructor (role: Role)
      ensures this.role == role && live == map[] && Valid()
    {
      this.role := role;
      live := map[];
    }

    /** `register`: a fresh handle for a name that is not live; a panic, changing nothing, otherwise. */
    method Register(context: string) returns (r: Registration)
      requires Valid()
      modifies this
      ensures Valid()
      ensures context in old(live) ==> r == Panicked(DOUBLE_REGISTER_PANIC) && live == old(live)
      ensures context !in old(live) ==>
                && r.Registered? && fresh(r.handle)
                && r.handle.context == context && r.handle.dispatcher == this
                && live == old(live)[context := r.handle]
    {
      if context in live {
        return Panicked(DOUBLE_REGISTER_PANIC);
      }
      var handle := new ContextHandle(this, context);
      live := live[context := handle];
      r := Registered(handle);
    }

    /** Dropping the live handle `handle` frees its name and only its name. */
    method Drop(handle: ContextHandle)
      requires Valid()
      requires handle.context in live && live[handle.context] == handle
      modifies this
      ensures Valid()
      ensures live == old(live) - {handle.context}
    {
      live := live - {handle.context};
    }
  }

  /** Registering the same name twice on one fresh dispatcher: the second call panics. */
  method DoubleRegister(role: Role) returns (first: Registration, second: Registration)
    ensures first.Registered? && first.handle.context == "Context 1"
    ensures second == Panicked(DOUBLE_REGISTER_PANIC)
  {
    var dispatcher := new Dispatcher(role);
    first := dispatcher.Register("Context 1");
    second := dispatcher.Register("Context 1");
  }

  /** Registering, dropping the handle and registering the same name again: both succeed. */
  method RegisterAgain(role: Role) returns (first: Registration, second: Registration)
    ensures first.Registered? && first.handle.context == "Context 1"
    ensures second.Registered? && second.handle.context == "Context 1"
    ensures second.handle != first.handle
  {
    var dispatcher := new Dispatcher(role);
    first := dispatcher.Register("Context 1");
    dispatcher.Drop(first.handle);
    second := dispatcher.Register("Context 1");
  }
}
