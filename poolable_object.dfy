/**
 * The `IPoolableObject` contract, as honoured by one pooled instance.
 *
 * The interface promises that `Initialize` and `Release` change the token of
 * an instance that supports tokens, so a token captured while the instance
 * was in use no longer matches once it has been released, and that `Release`
 * says whether the instance may go back to a pool. The model is an instance
 * that keeps this contract; which token it moves to is fixed by `NextToken`.
 */
module PoolableObjects {
  import opened PooledObjectTokens

  /**
   * The token an instance moves to on `Initialize` and `Release`: the next
   * positive value, starting again at 1 after the largest `int` (or from a
   * negative token), so that it always differs from the current token and is
   * never `None`.
   */
  function NextToken(t: PooledObjectToken): (r: PooledObjectToken)
    ensures r != t && r != None
  {
    if t.value < 0 || t.value == 0x7FFF_FFFF then PooledObjectToken(1) else PooledObjectToken(t.value + 1)
  }

  /**
   * An object that one of the pools hands out. `isPoolable` says whether its
   * type implements `IPoolableObject`; only such an object has a meaningful
   * `token`, and only if it `supportsTokens`. `contents` stands for the state
   * that the pools' `Clear` empties, and `reusable` for the instance's own
   * judgement, at release time, of whether it is fit for reuse.
   */
  class PoolableObject {
    const isPoolable: bool
    const supportsTokens: bool
    var token: PooledObjectToken
    var reusable: bool
    var contents: seq<int>

    constructor (isPoolable: bool, supportsTokens: bool)
      ensures this.isPoolable == isPoolable && this.supportsTokens == supportsTokens
      ensures token == None && reusable && contents == []
    {
      this.isPoolable := isPoolable;
      this.supportsTokens := supportsTokens;
      token := None;
      reusable := true;
      contents := [];
    }

    /** `IPoolableObject.Token`: the token currently assigned to the instance. */
    function Token(): (t: PooledObjectToken)
      reads this
      ensures t == token
    {
      token
    }

    /** `IPoolableObject.Initialize`: prepares the instance for use; changes the token if tokens are supported. */
    method Initialize()
      requires isPoolable
      modifies this
      ensures token == if supportsTokens then NextToken(old(token)) else old(token)
      ensures supportsTokens ==> token != old(token)
      ensures reusable == old(reusable) && contents == old(contents)
    {
      if supportsTokens {
        token := NextToken(token);
      }
    }

    /**
     * `IPoolableObject.Release`: prepares the instance for return to a pool;
     * changes the token if tokens are supported, and answers whether the
     * instance may go back to a pool (`false`: it must be discarded).
     */
    method Release() returns (canReturnToPool: bool)
      requires isPoolable
      modifies this
      ensures canReturnToPool == reusable
      ensures token == if supportsTokens then NextToken(old(token)) else old(token)
      ensures supportsTokens ==> token != old(token)
      ensures reusable == old(reusable) && contents == old(contents)
    {
      if supportsTokens {
        token := NextToken(token);
      }
      canReturnToPool := reusable;
    }
  }

  /** A token captured before `Release` no longer matches the instance afterwards. */
  method CapturedTokenGoesStale(obj: PoolableObject) returns (captured: PooledObjectToken, canReturnToPool: bool)
    requires obj.isPoolable && obj.supportsTokens
    modifies obj
    ensures captured == old(obj.token)
    ensures Neq(captured, obj.Token())
    ensures canReturnToPool == obj.reusable
  {
    captured := obj.Token();
    canReturnToPool := obj.Release();
  }
}
