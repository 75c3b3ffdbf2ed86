/**
 * `PooledObject<T>`: a release-once wrapper over an object taken from an
 * object pool, and the pool it goes back to.
 *
 * The wrapper is a C# struct, so every copy carries its own `_pooledObject`
 * field: disposing one copy clears that copy only. The pools' own
 * `AllocateAndClear` and `ClearAndFree` are not part of this model beyond
 * what the wrapper relies on: a pool is a multiset of free objects.
 */
module PooledObjects {
  import opened PooledObjectTokens
  import opened PoolableObjects

  /** The use-after-release failure of `Contract.ThrowIfFalse` in the DEBUG build of `Object`. */
  datatype Outcome<T> = Ok(value: T) | UsedAfterRelease

  /** An object pool, seen as the multiset of objects free for allocation. */
  class ObjectPool {
    var free: multiset<PoolableObject>

    constructor ()
      ensures free == multiset{}
    {
      free := multiset{};
    }

    /**
     * `AllocateAndClear`: takes a free object if there is one, and otherwise
     * makes a new one (the pooled collections are not `IPoolableObject`s);
     * either way the object comes back cleared.
     */
    method AllocateAndClear() returns (obj: PoolableObject)
      modifies this, free
      ensures old(free) != multiset{} ==> obj in old(free) && free == old(free) - multiset{obj}
      ensures old(free) == multiset{} ==> fresh(obj) && !obj.isPoolable && free == old(free)
      ensures old(free) == multiset{} ==> obj.token == None && obj.reusable
      ensures obj.contents == []
      ensures forall o :: o in old(free) ==> o.token == old(o.token) && o.reusable == old(o.reusable)
      ensures forall o :: o in old(free) && o != obj ==> o.contents == old(o.contents)
    {
      if free != multiset{} {
        obj :| obj in free;
        free := free - multiset{obj};
      } else {
        obj := new PoolableObject(false, false);
      }
      obj.contents := [];
    }

    /** `ClearAndFree`: clears the object and returns it to the free multiset. */
    method ClearAndFree(obj: PoolableObject)
      modifies this, obj
      ensures free == old(free) + multiset{obj}
      ensures obj.contents == []
      ensures obj.token == old(obj.token) && obj.reusable == old(obj.reusable)
    {
      obj.contents := [];
      free := free + multiset{obj};
    }
  }

  /**
   * The allocator shared by every `Create` factory (for `StringBuilder`,
   * `Stack`, `Queue`, `HashSet`, `Dictionary` and `List`): `AllocateAndClear`
   * with the token `None`.
   */
  method Allocator(pool: ObjectPool) returns (obj: PoolableObject, token: PooledObjectToken)
    modifies pool, pool.free
    ensures token == None
    ensures old(pool.free) != multiset{} ==> obj in old(pool.free) && pool.free == old(pool.free) - multiset{obj}
    ensures old(pool.free) == multiset{} ==> fresh(obj) && pool.free == old(pool.free)
    ensures old(pool.free) == multiset{} ==> obj.token == None && obj.reusable
    ensures obj.contents == []
    ensures forall o :: o in old(pool.free) ==> o.token == old(o.token) && o.reusable == old(o.reusable)
    ensures forall o :: o in old(pool.free) && o != obj ==> o.contents == old(o.contents)
  {
    obj := pool.AllocateAndClear();
    token := None;
  }

  /**
   * The releaser a wrapper was built with. The `Create` factories all pass
   * `ClearAndFreeReleaser`, their shared `Releaser`. The general constructor
   * takes any releaser; `ReleasePoolable` is the one that follows the
   * `IPoolableObject` contract (see `PoolableReleaser`).
   */
  datatype ReleaserKind = ClearAndFreeReleaser | ReleasePoolable

  /** The releaser shared by every `Create` factory: `ClearAndFree`, ignoring the token. */
  method Releaser(pool: ObjectPool, obj: PoolableObject, token: PooledObjectToken)
    modifies pool, obj
    ensures pool.free == old(pool.free) + multiset{obj}
    ensures obj.contents == [] && obj.token == old(obj.token) && obj.reusable == old(obj.reusable)
  {
    pool.ClearAndFree(obj);
  }

  /**
   * A releaser for objects that may implement `IPoolableObject`: an
   * `IPoolableObject` is `Release`d first, and dropped instead of freed when
   * `Release` answers that it must not go back to a pool; every other object
   * is freed. A freed object is cleared, as by `ClearAndFree`.
   */
  method PoolableReleaser(pool: ObjectPool, obj: PoolableObject, token: PooledObjectToken)
    modifies pool, obj
    ensures !obj.isPoolable || old(obj.reusable) ==> pool.free == old(pool.free) + multiset{obj} && obj.contents == []
    ensures obj.isPoolable && !old(obj.reusable) ==> pool.free == old(pool.free) && obj.contents == old(obj.contents)
    ensures obj.token == if obj.isPoolable && obj.supportsTokens then NextToken(old(obj.token)) else old(obj.token)
    ensures obj.reusable == old(obj.reusable)
  {
    var canReturnToPool := true;
    if obj.isPoolable {
      canReturnToPool := obj.Release();
    }
    if canReturnToPool {
      pool.ClearAndFree(obj);
    }
  }

  class PooledObject {
    const releaser: ReleaserKind
    const pool: ObjectPool
    const token: PooledObjectToken
    var pooledObject: PoolableObject?

    /**
     * The constructor with the built-in allocator: it calls the allocator once
     * and keeps the pool, the object and the token.
     */
    constructor Create(pool: ObjectPool)
      modifies pool, pool.free
      ensures releaser == ClearAndFreeReleaser
      ensures this.pool == pool && token == None && pooledObject != null
      ensures old(pool.free) != multiset{} ==> pooledObject in old(pool.free) && pool.free == old(pool.free) - multiset{pooledObject}
      ensures old(pool.free) == multiset{} ==> fresh(pooledObject) && pool.free == old(pool.free)
      ensures old(pool.free) == multiset{} ==> pooledObject.token == None && pooledObject.reusable
      ensures pooledObject.contents == []
      ensures forall o :: o in old(pool.free) ==> o.token == old(o.token) && o.reusable == old(o.reusable)
      ensures forall o :: o in old(pool.free) && o != pooledObject ==> o.contents == old(o.contents)
    {
      var obj, t := Allocator(pool);
      releaser := ClearAndFreeReleaser;
      this.pool := pool;
      token := t;
      pooledObject := obj;
    }

    /**
     * The general constructor, run with an allocator that has already returned
     * `obj` and `token` (for instance one that stamps a poolable object with
     * its current token), and with the given releaser.
     */
    constructor FromAllocation(pool: ObjectPool, obj: PoolableObject?, token: PooledObjectToken, releaser: ReleaserKind)
      ensures this.releaser == releaser && this.pool == pool && this.token == token && pooledObject == obj
    {
      this.releaser := releaser;
      this.pool := pool;
      this.token := token;
      pooledObject := obj;
    }

    /** Copying the struct: the copy shares releaser, pool, token and object but has its own field. */
    method Copy() returns (copy: PooledObject)
      ensures fresh(copy)
      ensures copy.releaser == releaser && copy.pool == pool && copy.token == token && copy.pooledObject == pooledObject
    {
      copy := new PooledObject.FromAllocation(pool, pooledObject, token, releaser);
    }

    /**
     * `Object`: the stored object, or `null` after `Dispose`. In a DEBUG build
     * it fails when the wrapper holds a token other than `None`, the object is
     * an `IPoolableObject`, and the object's current token differs from the
     * stored one: the object was released and possibly handed out again.
     */
    method Object(debugBuild: bool) returns (r: Outcome<PoolableObject?>)
      ensures r.UsedAfterRelease? <==>
                debugBuild && token != None && pooledObject != null && pooledObject.isPoolable
                && Neq(token, pooledObject.Token())
      ensures r.Ok? ==> r.value == pooledObject
    {
      if debugBuild && Neq(token, None) && pooledObject != null && pooledObject.isPoolable {
        if !Eq(token, pooledObject.Token()) {
          return UsedAfterRelease;
        }
      }
      return Ok(pooledObject);
    }

    /**
     * `Dispose`: on a live wrapper, calls the releaser once with the pool, the
     * object and the token, then clears the object; on a cleared one, does
     * nothing.
     */
    method Dispose()
      modifies this, pool, pooledObject
      ensures pooledObject == null
      ensures old(pooledObject) == null ==> unchanged(pool)
      ensures old(pooledObject) != null ==> old(pooledObject).reusable == old(pooledObject.reusable)
      // the built-in releaser: the object goes back cleared, its token untouched
      ensures old(pooledObject) != null && releaser == ClearAndFreeReleaser ==>
                && pool.free == old(pool.free) + multiset{old(pooledObject)}
                && old(pooledObject).contents == [] && old(pooledObject).token == old(pooledObject.token)
      // the `IPoolableObject` releaser: the token moves on, and an unfit object is dropped
      ensures old(pooledObject) != null && releaser == ReleasePoolable ==>
                var obj := old(pooledObject);
                && obj.token == (if obj.isPoolable && obj.supportsTokens then NextToken(old(obj.token)) else old(obj.token))
                && (!obj.isPoolable || old(obj.reusable) ==> pool.free == old(pool.free) + multiset{obj} && obj.contents == [])
                && (obj.isPoolable && !old(obj.reusable) ==> pool.free == old(pool.free) && obj.contents == old(obj.contents))
    {
      if pooledObject != null {
        match releaser {
          case ClearAndFreeReleaser => Releaser(pool, pooledObject, token);
          case ReleasePoolable => PoolableReleaser(pool, pooledObject, token);
        }
        pooledObject := null;
      }
    }
  }

  /** Disposing one wrapper any number of times returns its object to the pool exactly once. */
  method DisposeTwiceReleasesOnce(pool: ObjectPool) returns (obj: PoolableObject)
    modifies pool, pool.free
    ensures old(pool.free) != multiset{} ==> obj in old(pool.free) && pool.free == old(pool.free)
    ensures pool.free == old(pool.free) - multiset{obj} + multiset{obj}
  {
    var w := new PooledObject.Create(pool);
    obj := w.pooledObject;
    w.Dispose();
    var after := pool.free;
    w.Dispose();
    assert pool.free == after;
    var r := w.Object(true);
    assert r == Ok(null);
  }

  /**
   * Copies of the struct each release: disposing two copies of one wrapper
   * puts the same object into the pool twice. This is the misuse the token
   * check of `Object` exists to catch.
   */
  method CopiesReleaseIndependently(pool: ObjectPool) returns (obj: PoolableObject)
    modifies pool, pool.free
    ensures pool.free == old(pool.free) - multiset{obj} + multiset{obj, obj}
  {
    var w := new PooledObject.Create(pool);
    obj := w.pooledObject;
    var c := w.Copy();
    w.Dispose();
    assert c.pooledObject == obj;
    var mid := pool.free;
    c.Dispose();
    assert pool.free == mid + multiset{obj};
    assert w.pooledObject == null && c.pooledObject == null;
  }

  /**
   * A wrapper that captured the token of a token-supporting object detects,
   * in a DEBUG build, that the object has been released behind its back.
   */
  method UseAfterReleaseDetected(pool: ObjectPool)
    returns (obj: PoolableObject, before: Outcome<PoolableObject?>, after: Outcome<PoolableObject?>, releaseBuild: Outcome<PoolableObject?>)
    ensures before == Ok(obj as PoolableObject?)
    ensures after == UsedAfterRelease
    ensures releaseBuild == Ok(obj as PoolableObject?)
  {
    obj := new PoolableObject(true, true);
    obj.Initialize();
    var w := new PooledObject.FromAllocation(pool, obj, obj.Token(), ReleasePoolable);
    before := w.Object(true);
    var _ := obj.Release();
    after := w.Object(true);
    releaseBuild := w.Object(false);
  }

  /**
   * With the `IPoolableObject` releaser, disposing one copy of a wrapper moves
   * the object's token on, so another copy's `Object` detects the use after
   * release in a DEBUG build. An object unfit for reuse is dropped, not freed.
   */
  method ReleasedCopyIsDetected(pool: ObjectPool, fit: bool)
    returns (obj: PoolableObject, stale: Outcome<PoolableObject?>)
    modifies pool
    ensures stale == UsedAfterRelease
    ensures fit ==> pool.free == old(pool.free) + multiset{obj}
    ensures !fit ==> pool.free == old(pool.free)
  {
    obj := new PoolableObject(true, true);
    obj.Initialize();
    obj.reusable := fit;
    var w := new PooledObject.FromAllocation(pool, obj, obj.Token(), ReleasePoolable);
    var c := w.Copy();
    w.Dispose();
    stale := c.Object(true);
  }
}
