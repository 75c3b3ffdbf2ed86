/**
 * `AsyncLazyInitializer`: fills a reference slot once, asynchronously, the
 * way `LazyInitializer` does synchronously.
 *
 * A slot is a field reached through an accessor delegate; `null` means not
 * yet initialized. The fast path returns a value that is already there. The
 * slow path awaits the value factory, fails if it produced `null`, and
 * otherwise publishes the value with a compare-and-swap against `null`, so
 * that whichever value reached the slot first is the one every caller sees.
 *
 * Concurrency is modelled by one parameter, `racer`: the value another thread
 * has published into the slot by the time this call's compare-and-swap runs
 * (`None` when no other thread got there first). Awaiting is not modelled:
 * the factory's completed value is a parameter too.
 */
module AsyncLazyInitializers {

  datatype Option<T> = None | Some(value: T)

  /** What awaiting the value factory gives: there is no factory, or it produced a value or `null`. */
  datatype Factory<T> = NullFactory | Produces(result: Option<T>)

  /** The completed `ValueTask<T>`: a value, or the exception it carries. */
  datatype Outcome<T> = Ok(value: T) | NullReference | InvalidOperation

  /** The field an accessor delegate returns a reference to. */
  class Slot<T> {
    var content: Option<T>

    constructor (content: Option<T>)
      ensures this.content == content
    {
      this.content := content;
    }
  }

  /**
   * The slot as found by the compare-and-swap: what is there, unless it was
   * still empty and another thread published its value in the meantime.
   */
  function SlotAtExchange<T>(current: Option<T>, racer: Option<T>): (r: Option<T>)
    ensures current.Some? ==> r == current
    ensures current.None? ==> r == racer
  {
    if current.Some? then current else racer
  }

  /**
   * The reference behaviour of one call on a slot holding `current`: the
   * outcome and what the slot holds afterwards.
   */
  function Initialize<T>(current: Option<T>, factory: Factory<T>, racer: Option<T>): (Outcome<T>, Option<T>)
  {
    if current.Some? then
      (Ok(current.value), current)
    else if factory.NullFactory? then
      (NullReference, current)
    else if factory.result.None? then
      (InvalidOperation, current)
    else
      var seen := SlotAtExchange(current, racer);
      if seen.Some? then (Ok(seen.value), seen)
      else (Ok(factory.result.value), factory.result)
  }

  /** The fast path: an initialized slot is returned as is, whatever the factory would do, and is left unchanged. */
  lemma InitializedSlotIsReturned<T>(v: T, factory: Factory<T>, racer: Option<T>)
    ensures Initialize(Some(v), factory, racer) == (Ok(v), Some(v))
  {
  }

  /** A successful call leaves the slot holding exactly the value it returns. */
  lemma SuccessPublishesResult<T>(current: Option<T>, factory: Factory<T>, racer: Option<T>)
    ensures Initialize(current, factory, racer).0.Ok? ==>
              Initialize(current, factory, racer).1 == Some(Initialize(current, factory, racer).0.value)
  {
  }

  /**
   * The errors: `NullReferenceException` exactly when the slot is empty and
   * there is no factory, `InvalidOperationException` exactly when the slot is
   * empty and the factory produced `null`; a failing call leaves the slot as
   * it was.
   */
  lemma ErrorsAreExactly<T>(current: Option<T>, factory: Factory<T>, racer: Option<T>)
    ensures Initialize(current, factory, racer).0.NullReference? <==> current.None? && factory.NullFactory?
    ensures Initialize(current, factory, racer).0.InvalidOperation? <==> current.None? && factory == Produces(None)
    ensures !Initialize(current, factory, racer).0.Ok? ==> Initialize(current, factory, racer).1 == current
  {
  }

  /**
   * The first value to reach the slot wins: the factory's value is returned
   * only when no other thread published first; otherwise the other thread's
   * value is returned and the factory's value is dropped.
   */
  lemma FirstPublisherWins<T>(factoryValue: T, racer: Option<T>)
    ensures racer.None? ==> Initialize(None, Produces(Some(factoryValue)), racer) == (Ok(factoryValue), Some(factoryValue))
    ensures racer.Some? ==> Initialize(None, Produces(Some(factoryValue)), racer) == (Ok(racer.value), racer)
  {
  }

  /**
   * Initialization happens once: after a successful call, every later call
   * returns the same value and leaves the slot alone, whatever its factory
   * and whatever other threads do.
   */
  lemma InitializationIsIdempotent<T>(current: Option<T>, f1: Factory<T>, r1: Option<T>, f2: Factory<T>, r2: Option<T>)
    requires Initialize(current, f1, r1).0.Ok?
    ensures Initialize(Initialize(current, f1, r1).1, f2, r2) == Initialize(current, f1, r1)
  {
    SuccessPublishesResult(current, f1, r1);
  }

  /**
   * An initialized slot keeps its value; an empty one ends up holding the
   * other thread's value or the factory's, or stays empty.
   */
  lemma SlotOnlyEverHoldsPublishedValues<T>(current: Option<T>, factory: Factory<T>, racer: Option<T>)
    ensures current.Some? ==> Initialize(current, factory, racer).1 == current
    ensures current.None? && Initialize(current, factory, racer).1.Some? ==>
              Initialize(current, factory, racer).1 == racer
              || (factory.Produces? && Initialize(current, factory, racer).1 == factory.result)
  {
  }

  /**
   * `EnsureInitializedCoreAsync`: the slow path. `racer` is applied to the
   * slot just before the compare-and-swap, standing for a concurrent
   * initializer.
   */
  method EnsureInitializedCore<T>(target: Slot<T>, factory: Factory<T>, racer: Option<T>) returns (r: Outcome<T>)
    requires target.content.None?
    modifies target
    ensures (r, target.content) == Initialize(old(target.content), factory, racer)
  {
    if factory.NullFactory? {
      return NullReference;
    }
    var value := factory.result;
    if value.None? {
      return InvalidOperation;
    }
    // Another thread's initializer may complete first.
    if target.content.None? {
      target.content := racer;
    }
    // Interlocked.CompareExchange(ref slot, value, null) ?? value
    var previous := target.content;
    if previous.None? {
      target.content := value;
      r := Ok(value.value);
    } else {
      r := Ok(previous.value);
    }
  }

  /**
   * `EnsureInitializedAsync`: the fast path, then the slow path. A `null`
   * accessor fails with `NullReferenceException` before anything else.
   */
  method EnsureInitialized<T>(target: Slot?<T>, factory: Factory<T>, racer: Option<T>) returns (r: Outcome<T>)
    modifies target
    ensures target == null ==> r == NullReference
    ensures target != null ==> (r, target.content) == Initialize(old(target.content), factory, racer)
  {
    if target == null {
      return NullReference;
    }
    var value := target.content;
    if value.Some? {
      return Ok(value.value);
    }
    r := EnsureInitializedCore(target, factory, racer);
  }

  /**
   * The overload with a state object: the accessor and the factory are both
   * applied to `state`, and it otherwise behaves as `EnsureInitialized`.
   * (The slot the accessor designates exists already: that is all the
   * `allocated` precondition says.)
   */
  method EnsureInitializedWithState<T, S>(accessor: S -> Slot?<T>, factory: S -> Factory<T>, state: S, racer: Option<T>)
    returns (r: Outcome<T>)
    requires allocated(accessor(state))
    modifies accessor(state)
    ensures accessor(state) == null ==> r == NullReference
    ensures accessor(state) != null ==>
              (r, accessor(state).content) == Initialize(old(accessor(state).content), factory(state), racer)
  {
    var target := accessor(state);
    if target == null {
      return NullReference;
    }
    var value := target.content;
    if value.Some? {
      return Ok(value.value);
    }
    r := EnsureInitializedCore(target, factory(state), racer);
  }
}
