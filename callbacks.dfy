/** callbacks.rs: the one-entry `HANDLER` slot through which the native
    callback trampolines reach the event handler of the `poll_events` (or
    `wait_events`) call in progress. */
module Callbacks {
  import opened Ffi
  import opened Windows
  import opened Events

  /** The caller's event handler. Its answer is returned to `call_handler`'s
      caller; what it does besides (the `FnMut` closure's own effects) is
      represented by the `observed` log of the slot. */
  type EventHandler = (WindowId, TimedEvent) -> Option<TimedEvent>

  /** `(HandlerFn, CallbackPtr)`: the type-erased handler and the address of
      the closure it calls. */
  datatype Entry = Entry(handler: EventHandler, callbackPtr: Ptr)

  /** Each dispatch of `ds`, paired with the entry `e` that received it. */
  function Received(e: Entry, ds: seq<Dispatch>): (r: seq<(Entry, Dispatch)>)
    ensures |r| == |ds|
    ensures forall i :: 0 <= i < |ds| ==> r[i] == (e, ds[i])
  {
    seq(|ds|, i requires 0 <= i < |ds| => (e, ds[i]))
  }

  /** Deliveries to one entry split over concatenated dispatch runs. */
  lemma ReceivedAppend(e: Entry, a: seq<Dispatch>, b: seq<Dispatch>)
    ensures Received(e, a + b) == Received(e, a) + Received(e, b)
  {
    var l, r := Received(e, a + b), Received(e, a) + Received(e, b);
    assert |l| == |r|;
    forall i | 0 <= i < |l| ensures l[i] == r[i] {
      if i < |a| {
        assert r[i] == Received(e, a)[i];
      } else {
        assert r[i] == Received(e, b)[i - |a|];
      }
    }
  }

  /** `HANDLER: RefCell<Option<(HandlerFn, CallbackPtr)>>`. `observed` lists
      the dispatches that reached an installed handler, in order, each with
      the entry that received it. */
  class HandlerSlot {
    var entry: Option<Entry>
    ghost var observed: seq<(Entry, Dispatch)>

    /** `RefCell::new(None)`. */
    constructor ()
      ensures entry == None && observed == []
    {
      entry := None;
      observed := [];
    }

    /** `set_handler`: stores the new entry, whatever the slot held before,
        and returns the guard that will clear it. */
    method SetHandler(handler: EventHandler, callbackPtr: Ptr) returns (guard: UnsetHandlerGuard)
      modifies this
      ensures entry == Some(Entry(handler, callbackPtr))
      ensures observed == old(observed)
      ensures fresh(guard) && guard.slot == this
    {
      entry := Some(Entry(handler, callbackPtr));
      guard := new UnsetHandlerGuard(this);
    }

    /** `call_handler`: the installed handler's answer for `(id, ev)`, or the
        event itself, unchanged, when no handler is installed. Reading the
        slot leaves it as it is. */
    function CallHandler(id: WindowId, ev: TimedEvent): (r: Option<TimedEvent>)
      reads this
      ensures entry.None? ==> r == Some(ev)
      ensures entry.Some? ==> r == entry.value.handler(id, ev)
    {
      match entry
      case None => Some(ev)
      case Some(e) => e.handler(id, ev)
    }

    /** One native callback: its trampoline builds the event (or drops it) and
        calls `call_handler`, ignoring the answer. The slot itself is left as
        it was; the installed entry, if any, receives the dispatch. */
    method RunTrampoline(f: Fired)
      modifies this
      ensures entry == old(entry)
      ensures observed == old(observed)
        + (if entry.Some? && Trampoline(f).Some? then [(entry.value, Trampoline(f).value)] else [])
    {
      var d := Trampoline(f);
      if d.Some? {
        var _ := CallHandler(d.value.window, d.value.event);
        if entry.Some? {
          observed := observed + [(entry.value, d.value)];
        }
      }
    }
  }

  /** `UnsetHandlerGuard`: its only behaviour is its `Drop`. */
  class UnsetHandlerGuard {
    const slot: HandlerSlot

    constructor (slot: HandlerSlot)
      ensures this.slot == slot
    {
      this.slot := slot;
    }

    /** `Drop for UnsetHandlerGuard`: empties the slot, whichever entry it
        holds (it does not restore an earlier one). */
    method Drop()
      modifies slot
      ensures slot.entry == None
      ensures slot.observed == old(slot.observed)
    {
      slot.entry := None;
    }
  }

  /** Installing a second handler while a first is installed, then dropping
      the second guard, leaves the slot empty: the outer handler is not
      reinstated, and callbacks arriving afterwards pass through unhandled. */
  method NestedInstall(slot: HandlerSlot, outer: EventHandler, inner: EventHandler,
                       outerPtr: Ptr, innerPtr: Ptr, id: WindowId, ev: TimedEvent)
    returns (outerGuard: UnsetHandlerGuard)
    modifies slot
    ensures outerGuard.slot == slot && slot.entry == None
    ensures slot.CallHandler(id, ev) == Some(ev)
  {
    outerGuard := slot.SetHandler(outer, outerPtr);
    var innerGuard := slot.SetHandler(inner, innerPtr);
    assert slot.entry == Some(Entry(inner, innerPtr));
    innerGuard.Drop();
  }
}
