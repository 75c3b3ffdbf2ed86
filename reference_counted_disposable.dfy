/**
 * `ReferenceCountedDisposable<T>`: strong handles that share one disposable
 * target and dispose it when the last handle is released, and the weak
 * reference that can mint a new strong handle while the target is alive.
 *
 * All handles taken from one another share a boxed reference count. A handle
 * releases its share once, however often it is disposed; the dispose that
 * brings the count to zero disposes the target, and a handle can no longer be
 * added once that has happened. The `default` handle, which wraps nothing, is
 * a `Handle` whose `box` is `null`.
 *
 * The behaviour here is that which the unit tests of the type pin down;
 * locking is not modelled (each operation runs on its own).
 */
module ReferenceCountedDisposables {

  /** The failures the type reports: `ArgumentNullException` and `ObjectDisposedException`. */
  datatype Result<T> = Ok(value: T) | ArgumentNull | ObjectDisposed

  /** The test double: it records that, and how often, it was disposed. */
  class DisposableObject {
    var isDisposed: bool
    var disposeCount: int

    constructor ()
      ensures !isDisposed && disposeCount == 0
    {
      isDisposed := false;
      disposeCount := 0;
    }

    method Dispose()
      modifies this
      ensures isDisposed && disposeCount == old(disposeCount) + 1
    {
      isDisposed := true;
      disposeCount := disposeCount + 1;
    }
  }

  /**
   * The boxed reference count shared by the handles to one target. `holders`
   * is the set of handles whose share is still counted.
   */
  class Box {
    const target: DisposableObject
    var count: int
    ghost var holders: set<Handle>
    /** The target's dispose count and state when it was wrapped. */
    ghost const baseDisposeCount: int
    ghost const baseDisposed: bool

    /**
     * The count is the number of unreleased handles, the target has been
     * disposed by the box exactly when the count has reached zero, and until
     * then it is as it was wrapped.
     */
    ghost predicate Valid()
      reads this, holders, target
    {
      && count == |holders|
      && (forall h :: h in holders ==> h.box == this && !h.released)
      && target.disposeCount == baseDisposeCount + (if count == 0 then 1 else 0)
      && (count == 0 ==> target.isDisposed)
      && (count > 0 ==> target.isDisposed == baseDisposed)
    }

    constructor (target: DisposableObject)
      ensures this.target == target && count == 0 && holders == {}
      ensures baseDisposeCount == target.disposeCount && baseDisposed == target.isDisposed
    {
      this.target := target;
      count := 0;
      holders := {};
      baseDisposeCount := target.disposeCount;
      baseDisposed := target.isDisposed;
    }
  }

  /** One `ReferenceCountedDisposable<T>` value. */
  class Handle {
    const box: Box?
    var released: bool

    constructor (box: Box?)
      ensures this.box == box && !released
    {
      this.box := box;
      released := false;
    }

    /** The handle agrees with its box: it is counted exactly while it is not released. */
    ghost predicate Valid()
      reads this, box, if box != null then {box.target} else {}, if box != null then box.holders else {}
    {
      box != null ==> box.Valid() && (released <==> this !in box.holders)
    }

    /** `IsDefault`: the handle wraps nothing. */
    predicate IsDefault()
      reads this
    {
      box == null
    }

    /** `Target`: the wrapped object, while this handle has not been released. */
    function Target(): (r: Result<DisposableObject>)
      reads this, box
      ensures r.Ok? <==> box != null && !released
      ensures r.Ok? ==> r.value == box.target
      ensures !r.Ok? ==> r == ObjectDisposed
    {
      if box == null || released then ObjectDisposed else Ok(box.target)
    }

    /**
     * `Dispose`: releases this handle's share once; the release that brings
     * the count to zero disposes the target. Later calls do nothing.
     */
    method Dispose()
      requires Valid()
      modifies this, if box != null then {box, box.target} else {}
      ensures Valid()
      ensures box != null ==> released
      ensures box != null ==> box.holders == old(box.holders) - {this}
      ensures box != null && !old(released) ==> box.count == old(box.count) - 1
      ensures box != null && old(released) ==> box.count == old(box.count) && unchanged(box.target)
      ensures box == null ==> released == old(released)
    {
      if box != null && !released {
        released := true;
        box.holders := box.holders - {this};
        box.count := box.count - 1;
        if box.count == 0 {
          box.target.Dispose();
        }
      }
    }

    /**
     * `TryAddReference`: a new handle sharing the target, or the default
     * handle when this one is released, is the default handle, or the count
     * has already reached zero.
     */
    method TryAddReference() returns (h: Handle)
      requires Valid()
      modifies box
      ensures fresh(h) && Valid() && h.Valid()
      ensures box != null && !released ==>
                h.box == box && !h.released && box.holders == old(box.holders) + {h} && box.count == old(box.count) + 1
      ensures box == null || released ==> h.IsDefault() && (box != null ==> unchanged(box))
    {
      if box == null || released || box.count == 0 {
        h := new Handle(null);
      } else {
        h := new Handle(box);
        box.count := box.count + 1;
        box.holders := box.holders + {h};
      }
    }
  }

  /**
   * `new ReferenceCountedDisposable<T>(instance)`: a first handle with a count
   * of one, or `ArgumentNullException` for a `null` instance.
   */
  method New(instance: DisposableObject?) returns (r: Result<Handle>)
    ensures instance == null <==> r == ArgumentNull
    ensures r.Ok? ==> fresh(r.value) && fresh(r.value.box) && r.value.Valid()
    ensures r.Ok? ==> r.value.box.target == instance && r.value.box.count == 1 && r.value.box.holders == {r.value}
    ensures r.Ok? ==> r.value.box.baseDisposeCount == instance.disposeCount && r.value.box.baseDisposed == instance.isDisposed
    ensures r.Ok? || r == ArgumentNull
  {
    if instance == null {
      return ArgumentNull;
    }
    var box := new Box(instance);
    var h := new Handle(box);
    box.count := 1;
    box.holders := {h};
    return Ok(h);
  }

  /** `ReferenceCountedDisposable<T>.WeakReference`: `box` is `null` for a reference that can add nothing. */
  class WeakReference {
    const box: Box?

    constructor (box: Box?)
      ensures this.box == box
    {
      this.box := box;
    }

    /**
     * `TryAddReference`: a new strong handle while the target is still
     * alive (its count has not reached zero), and the default handle
     * otherwise.
     */
    method TryAddReference() returns (h: Handle)
      requires box != null ==> box.Valid()
      modifies box
      ensures fresh(h) && h.Valid()
      ensures box != null ==> box.Valid()
      ensures box != null && old(box.count) > 0 ==>
                h.box == box && !h.released && box.holders == old(box.holders) + {h} && box.count == old(box.count) + 1
      ensures box == null || old(box.count) == 0 ==> h.IsDefault() && (box != null ==> unchanged(box))
    {
      if box == null || box.count == 0 {
        h := new Handle(null);
      } else {
        h := new Handle(box);
        box.count := box.count + 1;
        box.holders := box.holders + {h};
      }
    }
  }

  /**
   * `new WeakReference(in reference)`: `ArgumentNullException` for the
   * default handle. A weak reference taken from a handle that is already
   * released can add nothing.
   */
  method MakeWeak(reference: Handle) returns (r: Result<WeakReference>)
    ensures reference.IsDefault() <==> r == ArgumentNull
    ensures r.Ok? ==> fresh(r.value)
    ensures r.Ok? ==> r.value.box == (if reference.released then null else reference.box)
    ensures r.Ok? || r == ArgumentNull
  {
    if reference.box == null {
      return ArgumentNull;
    }
    var w := new WeakReference(if reference.released then null else reference.box);
    return Ok(w);
  }

  /** The default `WeakReference` value. */
  method DefaultWeakReference() returns (w: WeakReference)
    ensures fresh(w) && w.box == null
  {
    w := new WeakReference(null);
  }

  // The lifecycles the unit tests step through.

  /** Wrapping `null` is refused. */
  method ArgumentValidation() returns (r: Result<Handle>)
    ensures r == ArgumentNull
  {
    r := New(null);
  }

  /**
   * A fresh handle exposes its target, undisposed; disposing that single
   * handle any positive number of times disposes the target exactly once,
   * and `Target` then fails.
   */
  method SingleReferenceDispose(disposeCount: nat)
    returns (target: DisposableObject, reference: Handle, targetBefore: Result<DisposableObject>, targetAfter: Result<DisposableObject>)
    requires disposeCount >= 1
    ensures targetBefore == Ok(target)
    ensures targetAfter == ObjectDisposed
    ensures target.isDisposed && target.disposeCount == 1
  {
    target := new DisposableObject();
    var r := New(target);
    reference := r.value;
    targetBefore := reference.Target();
    assert !target.isDisposed && target.disposeCount == 0;
    var i := 0;
    while i < disposeCount
      invariant 0 <= i <= disposeCount
      invariant reference.Valid() && reference.box.target == target
      invariant reference.box.baseDisposeCount == 0
      invariant i == 0 ==> !reference.released && reference.box.count == 1
      invariant i > 0 ==> reference.released && reference.box.count == 0
    {
      reference.Dispose();
      i := i + 1;
    }
    targetAfter := reference.Target();
  }

  /** A released handle adds no reference. */
  method TryAddReferenceFailsAfterDispose() returns (added: Handle)
    ensures added.IsDefault()
  {
    var target := new DisposableObject();
    var r := New(target);
    var reference := r.value;
    reference.Dispose();
    added := reference.TryAddReference();
  }

  /** A released handle adds no reference even while another handle keeps the target alive. */
  method TryAddReferenceFailsAfterDisposeWhileShared()
    returns (target: DisposableObject, reference2: Handle, added: Handle)
    ensures !reference2.IsDefault() && added.IsDefault()
    ensures reference2.Target() == Ok(target)
    ensures !target.isDisposed
  {
    target := new DisposableObject();
    var r := New(target);
    var reference := r.value;
    reference2 := reference.TryAddReference();
    reference.Dispose();
    added := reference.TryAddReference();
  }

  /** Three handles disposed out of order: the target is disposed on the last dispose only, and once. */
  method OutOfOrderDispose() returns (target: DisposableObject, afterSecond: bool, afterThird: bool)
    ensures !afterSecond && !afterThird
    ensures target.isDisposed && target.disposeCount == 1
  {
    target := new DisposableObject();
    var r := New(target);
    var reference := r.value;
    var reference2 := reference.TryAddReference();
    var reference3 := reference2.TryAddReference();
    reference2.Dispose();
    afterSecond := target.isDisposed;
    reference3.Dispose();
    afterThird := target.isDisposed;
    reference.Dispose();
  }

  /**
   * A weak reference taken from a handle still adds a reference after that
   * handle is released while another handle is alive; the target is
   * disposed when the last strong handle, the one added through the weak
   * reference included, is released.
   */
  method WeakReferenceLifetime()
    returns (target: DisposableObject, addedFromReleased: Handle, reference3: Handle, disposedBeforeLast: bool)
    ensures addedFromReleased.IsDefault() && !reference3.IsDefault()
    ensures !disposedBeforeLast
    ensures target.isDisposed && target.disposeCount == 1
  {
    target := new DisposableObject();
    var r := New(target);
    var reference := r.value;
    var w := MakeWeak(reference);
    var weakReference := w.value;
    var reference2 := reference.TryAddReference();
    reference.Dispose();
    addedFromReleased := reference.TryAddReference();
    assert reference2.Target() == Ok(target) && !target.isDisposed;
    reference3 := weakReference.TryAddReference();
    reference2.Dispose();
    disposedBeforeLast := target.isDisposed;
    reference3.Dispose();
  }

  /** A weak reference cannot be taken from the default handle. */
  method WeakReferenceArgumentValidation() returns (r: Result<WeakReference>)
    ensures r == ArgumentNull
  {
    var d := new Handle(null);
    r := MakeWeak(d);
  }

  /** The default weak reference adds only the default handle. */
  method DefaultWeakReferenceAddsNothing() returns (added: Handle)
    ensures added.IsDefault()
  {
    var w := DefaultWeakReference();
    added := w.TryAddReference();
  }
}
