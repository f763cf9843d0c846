/** window.rs: the integer identity of a native window, and the owned
    `Window` that destroys its handle when dropped. */
module Windows {
  import opened Ffi
  import opened Native
  import opened Termination

  /** `WindowId(usize)`: a native window pointer reinterpreted as an integer. */
  datatype WindowId = WindowId(value: Ptr) {

    /** `window_ptr` (and `window_mut_ptr`, which differs only in mutability):
        the integer cast back to a pointer. */
    function WindowPtr(): Ptr {
      value
    }
  }

  /** `WindowId(ptr as usize)`, as built by `window_id` and by every trampoline. */
  function WindowIdOf(p: Ptr): WindowId {
    WindowId(p)
  }

  /** Both casts are the identity on the address: pointer to id to pointer,
      and id to pointer to id, give back what they started from. */
  lemma WindowIdRoundTrip(p: Ptr, id: WindowId)
    ensures WindowIdOf(p).WindowPtr() == p
    ensures WindowIdOf(id.WindowPtr()) == id
  {
  }

  datatype Ordering = Less | Equal | Greater

  /** The derived `Ord` of `WindowId`: the ordering of the wrapped integer. */
  function Compare(a: WindowId, b: WindowId): (o: Ordering)
    ensures o == Equal <==> a == b
    ensures o == Less <==> a.value < b.value
    ensures o == Greater <==> b.value < a.value
  {
    if a.value < b.value then Less else if a.value == b.value then Equal else Greater
  }

  /** Distinct pointers have distinct ids, and comparing in the other order
      reverses the result. */
  lemma CompareAntisymmetric(a: WindowId, b: WindowId, p: Ptr, q: Ptr)
    ensures Compare(a, b) == Less <==> Compare(b, a) == Greater
    ensures WindowIdOf(p) == WindowIdOf(q) ==> p == q
  {
  }

  /** `glfw3::Window`: the native handle and a share of the `Terminate` token.
      `dropped` records that `Drop` has run, which ownership allows once. */
  class Window {
    const ptr: Ptr
    const terminate: Terminate
    ghost const share: nat
    var dropped: bool

    ghost predicate Valid()
      reads this, terminate, terminate.lock
    {
      terminate.Valid() && (!dropped ==> share in terminate.holders)
    }

    constructor (ptr: Ptr, terminate: Terminate, ghost share: nat)
      requires terminate.Valid() && share in terminate.holders
      ensures this.ptr == ptr && this.terminate == terminate && this.share == share
      ensures !dropped && Valid()
    {
      this.ptr := ptr;
      this.terminate := terminate;
      this.share := share;
      dropped := false;
    }

    /** `window_id`: the handle's address as an integer. */
    function Id(): (id: WindowId)
      ensures id.WindowPtr() == ptr
    {
      WindowIdOf(ptr)
    }

    /** `Drop for Window`: destroys the native window unless the handle is
        null (an error from `glfwDestroyWindow` is only logged, never
        returned), then drops the share of `Terminate`; if that was the last
        share, `glfwTerminate` runs after the destroy. */
    method Drop()
      requires Valid() && !dropped
      modifies this, terminate, terminate.lock, terminate.native
      ensures dropped && terminate.Valid()
      ensures terminate.holders == old(terminate.holders) - {share}
      ensures terminate.strong == old(terminate.strong) - 1
      ensures terminate.native.calls == old(terminate.native.calls)
        + (if ptr != NULL then [Call.DestroyWindow(ptr)] else [])
        + (if terminate.strong == 0 then [Call.Terminate] else [])
      ensures terminate.lock.held <==> terminate.strong > 0
    {
      if ptr != NULL {
        terminate.native.Record(Call.DestroyWindow(ptr));
      }
      terminate.Release(share);
      dropped := true;
    }
  }
}
