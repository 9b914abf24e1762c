/**
  * Registration of a selection-change handler. Registering appends the handler
  * to the store's list; cleanup removes every occurrence of it. Both build a
  * new list and write it back, so a list value already handed out never changes.
  */
module OnSelectionChange {
  import opened Wrappers
  import opened Sequences
  import opened Store

  /** The list after registering `onChange`: the old list with `onChange` at its end. */
  function Registered(handlers: seq<HandlerId>, onChange: HandlerId): (r: seq<HandlerId>)
    ensures |r| == |handlers| + 1
    ensures r[..|handlers|] == handlers && r[|handlers|] == onChange
  {
    handlers + [onChange]
  }

  function IsNot(onChange: HandlerId): HandlerId -> bool {
    fn => fn != onChange
  }

  /** The list after cleanup: every handler other than `onChange`, in the old order. */
  function Unregistered(handlers: seq<HandlerId>, onChange: HandlerId): (r: seq<HandlerId>)
    ensures onChange !in r
    ensures forall i :: 0 <= i < |r| ==> r[i] in handlers
    ensures forall i :: 0 <= i < |handlers| && handlers[i] != onChange ==> handlers[i] in r
  {
    Filter(handlers, IsNot(onChange))
  }

  /** Cleanup drops every copy of `onChange` and keeps every copy of every other handler. */
  lemma UnregisteredCounts(handlers: seq<HandlerId>, onChange: HandlerId, h: HandlerId)
    ensures multiset(Unregistered(handlers, onChange))[h] == if h == onChange then 0 else multiset(handlers)[h]
  {
    FilterCount(handlers, IsNot(onChange), h);
  }

  /** Cleanup keeps the relative order of the remaining handlers. */
  lemma UnregisteredKeepsOrder(a: seq<HandlerId>, b: seq<HandlerId>, onChange: HandlerId)
    ensures Unregistered(a + b, onChange) == Unregistered(a, onChange) + Unregistered(b, onChange)
  {
    FilterAppend(a, b, IsNot(onChange));
  }

  /** Cleaning up twice is cleaning up once. */
  lemma UnregisteredIdempotent(handlers: seq<HandlerId>, onChange: HandlerId)
    ensures Unregistered(Unregistered(handlers, onChange), onChange) == Unregistered(handlers, onChange)
  {
    FilterIdempotent(handlers, IsNot(onChange));
  }

  /** Cleanups of two handlers commute. */
  lemma UnregisteredCommutes(handlers: seq<HandlerId>, a: HandlerId, b: HandlerId)
    ensures Unregistered(Unregistered(handlers, a), b) == Unregistered(Unregistered(handlers, b), a)
  {
    FilterCommutes(handlers, IsNot(a), IsNot(b));
  }

  /** Registering a handler that was not present and then cleaning it up restores the list. */
  lemma RegisterThenUnregisterRestores(handlers: seq<HandlerId>, onChange: HandlerId)
    requires onChange !in handlers
    ensures Unregistered(Registered(handlers, onChange), onChange) == handlers
  {
    FilterAppend(handlers, [onChange], IsNot(onChange));
    FilterKeepsAll(handlers, IsNot(onChange));
  }

  /** When the same handler is registered twice, one cleanup removes both registrations. */
  lemma UnregisterRemovesSharedRegistrations(handlers: seq<HandlerId>, onChange: HandlerId)
    requires onChange !in handlers
    ensures Unregistered(Registered(Registered(handlers, onChange), onChange), onChange) == handlers
  {
    var twice := Registered(Registered(handlers, onChange), onChange);
    assert twice == handlers + [onChange, onChange];
    FilterAppend(handlers, [onChange, onChange], IsNot(onChange));
    FilterKeepsAll(handlers, IsNot(onChange));
  }

  /** The effect: append `onChange` to the store's handler list. */
  method Register<T>(store: FlowStore<T>, onChange: HandlerId)
    modifies store`onSelectionChangeHandlers
    ensures store.onSelectionChangeHandlers == Registered(old(store.onSelectionChangeHandlers), onChange)
  {
    var next := store.onSelectionChangeHandlers + [onChange];
    store.onSelectionChangeHandlers := next;
  }

  /** The effect's cleanup: remove every occurrence of `onChange` from the store's current list. */
  method Unregister<T>(store: FlowStore<T>, onChange: HandlerId)
    modifies store`onSelectionChangeHandlers
    ensures store.onSelectionChangeHandlers == Unregistered(old(store.onSelectionChangeHandlers), onChange)
  {
    var next := Filter(store.onSelectionChangeHandlers, IsNot(onChange));
    store.onSelectionChangeHandlers := next;
  }

  /** The hook instance: the store and the handler its effect registered, if any. */
  class SelectionChangeHook<T> {
    const store: FlowStore<T>
    var registered: Option<HandlerId>

    constructor (store: FlowStore<T>)
      ensures this.store == store && registered == None
    {
      this.store := store;
      registered := None;
    }

    /** One render with `onChange`: when it differs from the registered one, clean up the old and register the new. */
    method Render(onChange: HandlerId)
      modifies this, store`onSelectionChangeHandlers
      ensures registered == Some(onChange)
      ensures store.onSelectionChangeHandlers ==
        if old(registered) == Some(onChange) then old(store.onSelectionChangeHandlers)
        else if old(registered).Some? then
          Registered(Unregistered(old(store.onSelectionChangeHandlers), old(registered).value), onChange)
        else Registered(old(store.onSelectionChangeHandlers), onChange)
    {
      if registered != Some(onChange) {
        if registered.Some? {
          Unregister(store, registered.value);
        }
        Register(store, onChange);
        registered := Some(onChange);
      }
    }

    /** Unmounting runs the cleanup of the registered handler. */
    method Unmount()
      modifies this, store`onSelectionChangeHandlers
      ensures registered == None
      ensures store.onSelectionChangeHandlers ==
        if old(registered).Some? then Unregistered(old(store.onSelectionChangeHandlers), old(registered).value)
        else old(store.onSelectionChangeHandlers)
    {
      if registered.Some? {
        Unregister(store, registered.value);
      }
      registered := None;
    }
  }

  /** A component that mounts with a fresh handler and unmounts leaves the store's list as it found it. */
  method MountThenUnmount<T>(store: FlowStore<T>, onChange: HandlerId)
    requires onChange !in store.onSelectionChangeHandlers
    modifies store`onSelectionChangeHandlers
    ensures store.onSelectionChangeHandlers == old(store.onSelectionChangeHandlers)
  {
    var hook := new SelectionChangeHook(store);
    hook.Render(onChange);
    hook.Render(onChange);
    hook.Unmount();
    RegisterThenUnregisterRestores(old(store.onSelectionChangeHandlers), onChange);
  }
}
