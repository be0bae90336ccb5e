/**
 * The intrusive reference counter of `RefCounting` (include/ref-counting.hpp):
 * an object is born holding one reference, `ref` adds one, and `deref`
 * removes one and deletes the object when none is left. Deletion is modelled
 * as the `destroyed` flag; using an object after that is undefined in the
 * source, so every operation requires a live object.
 */
module RefCounted {

  class RefCounting {
    /** `_count`: the references held on the object. */
    var count: nat
    /** Set by `delete this`. */
    var destroyed: bool

    /** An object is destroyed exactly when its last reference is gone. */
    ghost predicate Valid()
      reads this
    {
      destroyed <==> count == 0
    }

    /** A live object: not yet deleted, so it holds at least one reference. */
    ghost predicate Live()
      reads this
    {
      Valid() && !destroyed
    }

    /** A new object holds its creator's reference and is alive. */
    constructor ()
      ensures Live()
      ensures count == 1
    {
      count, destroyed := 1, false;
    }

    /** `ref()`: one more reference; never destroys. */
    method Ref()
      requires Live()
      modifies this
      ensures Live()
      ensures count == old(count) + 1
    {
      count := count + 1;
    }

    /** `ref<T>()`: one `ref()`, then the same object back. */
    method RefAs() returns (r: RefCounting)
      requires Live()
      modifies this
      ensures r == this
      ensures Live()
      ensures count == old(count) + 1
    {
      Ref();
      r := this;
    }

    /** `deref()`: one reference fewer; the object is deleted when it was the last. */
    method Deref()
      requires Live()
      modifies this
      ensures Valid()
      ensures count == old(count) - 1
      ensures destroyed <==> old(count) == 1
    {
      count := count - 1;
      if count == 0 {
        destroyed := true;
      }
    }
  }

  /** `n` calls of `ref<T>()`: each returns the object itself. */
  method RefTimes(o: RefCounting, n: nat)
    requires o.Live()
    modifies o
    ensures o.Live()
    ensures o.count == old(o.count) + n
  {
    var i := 0;
    while i < n
      invariant 0 <= i <= n
      invariant o.Live()
      invariant o.count == old(o.count) + i
    {
      var r := o.RefAs();
      assert r == o;
      i := i + 1;
    }
  }

  /** `n` calls of `deref()` on an object holding more than `n` references leave it alive. */
  method DerefTimes(o: RefCounting, n: nat)
    requires o.Live()
    requires o.count > n
    modifies o
    ensures o.Live()
    ensures o.count == old(o.count) - n
  {
    var i := 0;
    while i < n
      invariant 0 <= i <= n
      invariant o.Live()
      invariant o.count == old(o.count) - i
    {
      o.Deref();
      i := i + 1;
    }
  }

  /**
   * The life of a counted object: created, `n` references taken and given
   * back, it is still alive with its one reference; the final `deref`
   * deletes it.
   */
  method Lifecycle(n: nat) returns (aliveAfterBalanced: bool, countAfterBalanced: nat, destroyedAtEnd: bool)
    ensures aliveAfterBalanced
    ensures countAfterBalanced == 1
    ensures destroyedAtEnd
  {
    var o := new RefCounting();
    RefTimes(o, n);
    DerefTimes(o, n);
    aliveAfterBalanced, countAfterBalanced := !o.destroyed, o.count;
    o.Deref();
    destroyedAtEnd := o.destroyed;
  }
}
