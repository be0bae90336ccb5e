/**
 * The smart pointer `AutoPtr` (include/auto-ptr.hpp): it holds a nullable
 * pointer to a `RefCounting` object and keeps the pointee's count balanced,
 * taking a reference when it starts holding an object and giving it back
 * when it stops. Every operation that gives a reference back requires the
 * held object to be alive, as the source does (a dangling pointer is
 * undefined behaviour there).
 */
module AutoPointer {
  import opened RefCounted

  class AutoPtr {
    /** `_pointer`: the held object, or null. */
    var pointer: RefCounting?

    /** What every operation that may call `deref` on the held object needs of it. */
    ghost predicate HeldLive()
      reads this, pointer
    {
      pointer != null ==> pointer.Live()
    }

    /** The default and the `nullptr` constructors: hold nothing, touch no count. */
    constructor Null()
      ensures pointer == null
    {
      pointer := null;
    }

    /** Construction from a raw pointer: `set`, one reference taken on a non-null pointee. */
    constructor FromPointer(p: RefCounting?)
      requires p != null ==> p.Live()
      modifies p
      ensures pointer == p
      ensures p != null ==> p.Live() && p.count == old(p.count) + 1
    {
      pointer := p;
      new;
      if p != null {
        p.Ref();
      }
    }

    /** The copy constructors: `set(autoPtr._pointer)`. */
    constructor Copy(other: AutoPtr)
      requires other.HeldLive()
      modifies other.pointer
      ensures pointer == other.pointer
      ensures other.pointer != null ==> other.pointer.Live() && other.pointer.count == old(other.pointer.count) + 1
    {
      pointer := other.pointer;
      new;
      if other.pointer != null {
        other.pointer.Ref();
      }
    }

    /** The move constructors: `move0`, the pointer changes hands and no count changes. */
    constructor Move(other: AutoPtr)
      modifies other
      ensures pointer == old(other.pointer)
      ensures other.pointer == null
    {
      pointer := other.pointer;
      new;
      other.pointer := null;
    }

    /** The private `set`: take a reference on a non-null pointee, then hold it. The old pointee is not released. */
    method Set(p: RefCounting?)
      requires p != null ==> p.Live()
      modifies this, p
      ensures pointer == p
      ensures p != null ==> p.Live() && p.count == old(p.count) + 1
    {
      if p != null {
        p.Ref();
      }
      pointer := p;
    }

    /**
     * The private `move0`: take `other`'s pointer and null `other`, without
     * touching a count. Moving from itself leaves the pointer null.
     */
    method Move0(other: AutoPtr)
      modifies this, other
      ensures other.pointer == null
      ensures other != this ==> pointer == old(other.pointer)
    {
      pointer := other.pointer;
      other.pointer := null;
    }

    /** The private `deref`: give back the held object's reference, if any; the pointer itself is kept. */
    method DerefPointee()
      requires HeldLive()
      modifies pointer
      ensures pointer != null ==> pointer.Valid() && pointer.count == old(pointer.count) - 1
      ensures pointer != null ==> (pointer.destroyed <==> old(pointer.count) == 1)
    {
      if pointer != null {
        pointer.Deref();
      }
    }

    /** The destructor: `deref()`. */
    method Destruct()
      requires HeldLive()
      modifies pointer
      ensures pointer != null ==> pointer.Valid() && pointer.count == old(pointer.count) - 1
      ensures pointer != null ==> (pointer.destroyed <==> old(pointer.count) == 1)
    {
      DerefPointee();
    }

    /** `operator=(nullptr)`: a no-op when already null; else give back the reference and hold nothing. */
    method AssignNull()
      requires HeldLive()
      modifies this, pointer
      ensures pointer == null
      ensures old(pointer) != null ==> old(pointer).Valid() && old(pointer).count == old(pointer.count) - 1
      ensures old(pointer) != null ==> (old(pointer).destroyed <==> old(pointer.count) == 1)
    {
      if pointer == null {
        return;
      }
      pointer.Deref();
      pointer := null;
    }

    /**
     * The private `reset`, behind `operator=(RC *)`: a no-op when `p` is the
     * held pointer; otherwise give back the old pointee's reference, then take
     * one on `p` and hold it.
     */
    method Reset(p: RefCounting?)
      requires HeldLive()
      requires p != null ==> p.Live()
      modifies this, pointer, p
      ensures pointer == p
      ensures p == old(pointer) && p != null ==> p.count == old(p.count) && p.Live()
      ensures p != old(pointer) && p != null ==> p.Live() && p.count == old(p.count) + 1
      ensures p != old(pointer) && old(pointer) != null ==>
                old(pointer).Valid() && old(pointer).count == old(pointer.count) - 1 &&
                (old(pointer).destroyed <==> old(pointer.count) == 1)
    {
      if p == pointer {
        return;
      }
      DerefPointee();
      Set(p);
    }

    /** `operator=(AutoPtr const &)`: `reset(autoPtr._pointer)`. */
    method AssignCopy(other: AutoPtr)
      requires HeldLive() && other.HeldLive()
      modifies this, pointer, other.pointer
      ensures pointer == other.pointer
      ensures other.pointer == old(other.pointer)
      ensures pointer == old(pointer) && pointer != null ==> pointer.count == old(other.pointer.count) && pointer.Live()
      ensures pointer != old(pointer) && pointer != null ==> pointer.Live() && pointer.count == old(other.pointer.count) + 1
      ensures pointer != old(pointer) && old(pointer) != null ==>
                old(pointer).Valid() && old(pointer).count == old(pointer.count) - 1 &&
                (old(pointer).destroyed <==> old(pointer.count) == 1)
    {
      Reset(other.pointer);
    }

    /**
     * The private `move`, behind `operator=(AutoPtr &&)`: a no-op when both
     * hold the same pointer (`other` then keeps it too); otherwise give back
     * the old pointee's reference and take `other`'s pointer, nulling `other`.
     */
    method MoveFrom(other: AutoPtr)
      requires HeldLive()
      modifies this, other, pointer
      ensures old(other.pointer) == old(pointer) ==> pointer == old(pointer) && other.pointer == old(other.pointer)
      ensures old(other.pointer) == old(pointer) && pointer != null ==> pointer.count == old(pointer.count) && pointer.Live()
      ensures old(other.pointer) != old(pointer) ==> pointer == old(other.pointer) && other.pointer == null
      ensures old(other.pointer) != old(pointer) && old(pointer) != null ==>
                old(pointer).Valid() && old(pointer).count == old(pointer.count) - 1 &&
                (old(pointer).destroyed <==> old(pointer.count) == 1)
    {
      if other.pointer == pointer {
        return;
      }
      DerefPointee();
      Move0(other);
    }

    /** `swap`: exchange the two pointers; no count changes. */
    method Swap(other: AutoPtr)
      modifies this, other
      ensures pointer == old(other.pointer)
      ensures other.pointer == old(pointer)
    {
      if other.pointer == pointer {
        return;
      }
      var p := pointer;
      pointer := other.pointer;
      other.pointer := p;
    }

    /** `operator==`: the two hold the same pointer. */
    predicate Equals(other: AutoPtr): (r: bool)
      reads this, other
      ensures r <==> pointer == other.pointer
    {
      pointer == other.pointer
    }

    /** `operator!=`: the negation of `operator==`. */
    function NotEquals(other: AutoPtr): (r: bool)
      reads this, other
      ensures r <==> !Equals(other)
    {
      pointer != other.pointer
    }
  }

  /**
   * `NEW`: create an object, hold it in an `AutoPtr` (count 2), then give
   * back the creator's reference; the `AutoPtr` holds the only reference.
   */
  method New() returns (a: AutoPtr)
    ensures fresh(a)
    ensures a.pointer != null && fresh(a.pointer)
    ensures a.pointer.Live() && a.pointer.count == 1
  {
    var rc := new RefCounting();
    a := new AutoPtr.FromPointer(rc);
    rc.Deref();
  }

  /** `NEW` whose result is dropped: the object is created and deleted again. */
  method NewDropped() returns (destroyed: bool)
    ensures destroyed
  {
    var a := New();
    var o := a.pointer;
    a.Destruct();
    destroyed := o.destroyed;
  }

  /**
   * Assigning the pointer an `AutoPtr` already holds is a no-op: it keeps
   * one reference, so the object survives the creator's `deref` and dies
   * when the `AutoPtr` is set to null.
   */
  method AssignSamePointer() returns (heldAfterAssign: bool, aliveAfterCreatorDeref: bool, destroyedAtEnd: bool)
    ensures heldAfterAssign && aliveAfterCreatorDeref && destroyedAtEnd
  {
    var trc := new RefCounting();
    var a := new AutoPtr.FromPointer(trc);
    a.Reset(trc);
    heldAfterAssign := a.pointer == trc && trc.count == 2;
    trc.Deref();
    aliveAfterCreatorDeref := !trc.destroyed;
    a.AssignNull();
    destroyedAtEnd := trc.destroyed;
  }

  /**
   * Move-assignment between two `AutoPtr`s holding the same object is a
   * no-op: the source keeps its pointer and its reference, so the object
   * dies only when both are set to null.
   */
  method MoveSamePointer() returns (sourceKept: bool, aliveAfterFirstNull: bool, destroyedAtEnd: bool)
    ensures sourceKept && aliveAfterFirstNull && destroyedAtEnd
  {
    var trc := new RefCounting();
    var trc1 := new AutoPtr.Null();
    var trc2 := new AutoPtr.Null();
    trc1.Reset(trc);
    trc2.Reset(trc);
    trc1.MoveFrom(trc2);
    sourceKept := trc1.pointer == trc && trc2.pointer == trc && trc.count == 3;
    trc.Deref();
    trc1.AssignNull();
    aliveAfterFirstNull := !trc.destroyed;
    trc2.AssignNull();
    destroyedAtEnd := trc.destroyed;
  }

  /**
   * `swap` of two `AutoPtr`s holding different objects exchanges them
   * without touching a count: each object then dies with the other `AutoPtr`.
   */
  method SwapTwo() returns (swapped: bool, countsKept: bool, firstDiesWithSecond: bool, secondDiesWithFirst: bool)
    ensures swapped && countsKept && firstDiesWithSecond && secondDiesWithFirst
  {
    var o1 := new RefCounting();
    var trc1 := new AutoPtr.FromPointer(o1);
    var o2 := new RefCounting();
    var trc2 := new AutoPtr.FromPointer(o2);
    trc1.Swap(trc2);
    swapped := trc1.pointer == o2 && trc2.pointer == o1;
    countsKept := o1.count == 2 && o2.count == 2;
    o2.Deref();
    o1.Deref();
    trc1.AssignNull();
    secondDiesWithFirst := o2.destroyed && !o1.destroyed;
    trc2.AssignNull();
    firstDiesWithSecond := o1.destroyed;
  }
}
