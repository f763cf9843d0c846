/** The library's initialisation state: the process-wide `INIT` mutex
    (reduced to a held/free flag) and the `Rc<Terminate>` token shared by
    `Glfw`, every `Window` and every `Monitor` (lib.rs). */
module Termination {
  import opened Native

  /** The `INIT` mutex. `held` is true while some `InitGuard` exists. */
  class InitLock {
    var held: bool

    constructor ()
      ensures !held
    {
      held := false;
    }

    /** `INIT.try_lock()`: takes the lock when it is free. */
    method TryLock() returns (acquired: bool)
      modifies this
      ensures acquired == !old(held)
      ensures held
    {
      acquired := !held;
      held := true;
    }

    /** Dropping the `InitGuard`. */
    method Unlock()
      requires held
      modifies this
      ensures !held
    {
      held := false;
    }
  }

  /** The allocation behind `Rc<Terminate>`. `strong` is the `Rc`'s strong
      count; `holders` names the live `Rc` handles (one per owner), each by a
      distinct number. The token owns the `InitGuard`, so the lock stays held
      while any handle is alive. */
  class Terminate {
    const lock: InitLock
    const native: Library
    var strong: nat
    ghost var holders: set<nat>
    ghost var nextShare: nat

    ghost predicate Valid()
      reads this, lock
    {
      && strong == |holders|
      && (forall s :: s in holders ==> s < nextShare)
      && (strong > 0 ==> lock.held)
    }

    /** `Rc::new(Terminate { _init_guard, .. })`: one handle, numbered 0. */
    constructor (lock: InitLock, native: Library)
      requires lock.held
      ensures Valid()
      ensures this.lock == lock && this.native == native
      ensures strong == 1 && holders == {0}
    {
      this.lock := lock;
      this.native := native;
      strong := 1;
      holders := {0};
      nextShare := 1;
    }

    /** `Rc::clone`: a new handle, distinct from every live one. */
    method Clone() returns (ghost share: nat)
      requires Valid() && strong > 0
      modifies this
      ensures Valid()
      ensures share !in old(holders) && holders == old(holders) + {share}
      ensures strong == old(strong) + 1
    {
      share := nextShare;
      nextShare := nextShare + 1;
      holders := holders + {share};
      strong := strong + 1;
    }

    /** Dropping the handle `share`. When it was the last one, `Terminate`'s
        `Drop` runs `glfwTerminate` (any error it reports is only logged) and
        then the `InitGuard` it owns is dropped, freeing the lock. */
    method Release(ghost share: nat)
      requires Valid() && share in holders
      modifies this, lock, native
      ensures Valid()
      ensures holders == old(holders) - {share}
      ensures strong == old(strong) - 1
      ensures strong == 0 ==> native.calls == old(native.calls) + [Call.Terminate] && !lock.held
      ensures strong > 0 ==> native.calls == old(native.calls) && lock.held
    {
      SizeOfRemove(holders, share);
      holders := holders - {share};
      strong := strong - 1;
      if strong == 0 {
        native.Record(Call.Terminate);
        lock.Unlock();
      }
    }

    /** While any handle is alive, the count is positive and the lock is held. */
    lemma AliveWhileHeld(share: nat)
      requires Valid() && share in holders
      ensures strong > 0 && lock.held
    {
      SizeOfRemove(holders, share);
    }

    /** Dropping one handle while another, `share`, is still alive does not run
        `glfwTerminate` and keeps the lock held. */
    method ReleaseWhileShared(ghost other: nat, ghost share: nat)
      requires Valid() && other in holders && share in holders && other != share
      modifies this, lock, native
      ensures Valid() && share in holders && holders == old(holders) - {other}
      ensures native.calls == old(native.calls) && lock.held
    {
      Release(other);
      AliveWhileHeld(share);
    }
  }

  lemma SizeOfRemove(s: set<nat>, x: nat)
    requires x in s
    ensures |s - {x}| == |s| - 1
  {
  }
}
