/**
 * `PooledObjectToken`: a value type wrapping one `int`, stamped on pooled
 * objects so that a use after release can be detected.
 */
module PooledObjectTokens {

  /** A C# `int`. */
  newtype int32 = x: int | -0x8000_0000 <= x < 0x8000_0000

  datatype PooledObjectToken = PooledObjectToken(value: int32)

  /** `PooledObjectToken.None`: the token with value 0. */
  const None: PooledObjectToken := PooledObjectToken(0)

  /**
   * An argument of `Equals(object)`: a boxed token, some object of another
   * type, or `null`.
   */
  datatype Object = BoxedToken(token: PooledObjectToken) | OtherObject(id: nat) | Null

  /** `Equals(PooledObjectToken)`: compares the values, which is exactly token identity. */
  function Equals(a: PooledObjectToken, other: PooledObjectToken): (r: bool)
    ensures r <==> a == other
  {
    a.value == other.value
  }

  /** `operator ==`, which calls `Equals`. */
  function Eq(a: PooledObjectToken, b: PooledObjectToken): (r: bool)
    ensures r <==> a.value == b.value
  {
    Equals(a, b)
  }

  /** `operator !=`, which negates `Equals`. */
  function Neq(a: PooledObjectToken, b: PooledObjectToken): (r: bool)
    ensures r <==> a.value != b.value
  {
    !Equals(a, b)
  }

  /** `Equals(object)`: false for anything that is not a token, value equality otherwise. */
  function EqualsObject(a: PooledObjectToken, obj: Object): (r: bool)
    ensures r <==> obj == BoxedToken(a)
  {
    if !obj.BoxedToken? then false else Equals(a, obj.token)
  }

  /** `GetHashCode`: the value itself. */
  function GetHashCode(a: PooledObjectToken): (h: int32)
    ensures PooledObjectToken(h) == a
  {
    a.value
  }

  /** `!=` is exactly the negation of `==`. */
  lemma NeqIsNotEq(a: PooledObjectToken, b: PooledObjectToken)
    ensures Neq(a, b) == !Eq(a, b)
  {
  }

  /** `==` is an equivalence relation. */
  lemma EqIsEquivalence(a: PooledObjectToken, b: PooledObjectToken, c: PooledObjectToken)
    ensures Eq(a, a)
    ensures Eq(a, b) == Eq(b, a)
    ensures Eq(a, b) && Eq(b, c) ==> Eq(a, c)
  {
  }

  /** Both `Equals` overloads agree for a boxed token, and `==` agrees with them. */
  lemma EqualsOverloadsAgree(a: PooledObjectToken, b: PooledObjectToken)
    ensures EqualsObject(a, BoxedToken(b)) == Equals(a, b) == Eq(a, b)
  {
  }

  /** Equal tokens have equal hash codes, and here the converse holds too. */
  lemma HashCodeAgreesWithEquality(a: PooledObjectToken, b: PooledObjectToken)
    ensures Eq(a, b) <==> GetHashCode(a) == GetHashCode(b)
  {
  }
}
