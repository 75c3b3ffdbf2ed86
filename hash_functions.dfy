/**
 * The 32-bit hash combiners of the expression evaluator's result provider.
 *
 * A C# `int` is a 32-bit two's-complement word. Both combiners run in an
 * `unchecked` context, so their additions and multiplications wrap around
 * modulo 2^32 instead of trapping. The model therefore keeps every C# `int`
 * as a `bv32`, whose `+` and `*` are exactly that wrap-around arithmetic,
 * and reads a word as a signed integer with `Signed` where the source writes
 * a signed constant.
 */
module HashFunctions {

  /** A C# `int`, as its 32-bit pattern. */
  type Int32Word = bv32

  /** A C# `char`: one 16-bit UTF-16 code unit. */
  type Char16 = bv16

  /** The signed value that a C# `int` with this bit pattern denotes. */
  function Signed(w: Int32Word): int
  {
    if w < 0x8000_0000 then w as int else w as int - 0x1_0000_0000
  }

  /** `unchecked((int)2166136261)`: the FNV-1a 32-bit offset basis. */
  const FnvOffsetBias: Int32Word := 2166136261

  /** The FNV-1a 32-bit prime. */
  const FnvPrime: Int32Word := 16777619

  /** `(int)0xA5555529`, the multiplier with which VB anonymous types combine field hashes. */
  const CombineMultiplier: Int32Word := 0xA5555529

  /** The multiplicative inverse of `CombineMultiplier` modulo 2^32. */
  const CombineMultiplierInverse: Int32Word := 0x0C64_1719

  /** The multiplicative inverse of `FnvPrime` modulo 2^32. */
  const FnvPrimeInverse: Int32Word := 0x359C_449B

  /**
   * `Hash.Combine(newKey, currentKey)`: `currentKey * 0xA5555529 + newKey`, wrapping.
   * The bodies below spell the constants as literals (`0xA555_5529` is
   * `CombineMultiplier`, `0x0100_0193` is `FnvPrime`, see `ConstantsAsDeclared`)
   * so that the solver can fold them.
   */
  function Combine(newKey: Int32Word, currentKey: Int32Word): (r: Int32Word)
  {
    currentKey * 0xA555_5529 + newKey
  }

  /** `Hash.CombineFNVHash(hashCode, ch)`: one FNV-1a step, xor then multiply, wrapping. */
  function CombineFnvHash(hashCode: Int32Word, ch: Char16): (r: Int32Word)
    // `ch as bv32` zero-extends, as C# widens a `char` operand of `^` to `int`
  {
    (hashCode ^ (ch as bv32)) * 0x0100_0193
  }

  /** Recovers `currentKey` from a combined hash and the key that was mixed in. */
  function Uncombine(combined: Int32Word, newKey: Int32Word): (currentKey: Int32Word)
  {
    (combined - newKey) * 0x0C64_1719
  }

  /** Recovers the hash before one FNV-1a step from the hash after it and the character. */
  function UncombineFnvHash(combined: Int32Word, ch: Char16): (hashCode: Int32Word)
  {
    (combined * 0x359C_449B) ^ (ch as bv32)
  }

  /** The constants, read as the signed C# values the source declares. */
  lemma ConstantsAsDeclared()
    ensures Signed(FnvOffsetBias) == -2128831035
    ensures Signed(FnvPrime) == 16777619
    ensures Signed(CombineMultiplier) == -1521134295
    ensures FnvPrime == 0x0100_0193 && CombineMultiplier == 0xA555_5529
    ensures CombineMultiplier * CombineMultiplierInverse == 1
    ensures FnvPrime * FnvPrimeInverse == 1
  {
  }

  /** Mixing a key into a current hash loses nothing about the current hash. */
  lemma {:induction false} UncombineCombine(newKey: Int32Word, currentKey: Int32Word)
    ensures Uncombine(Combine(newKey, currentKey), newKey) == currentKey
  {
    assert Combine(newKey, currentKey) == currentKey * 0xA555_5529 + newKey;
    assert Uncombine(currentKey * 0xA555_5529 + newKey, newKey)
        == ((currentKey * 0xA555_5529 + newKey) - newKey) * 0x0C64_1719;
  }

  /** Recovers the key that was mixed in from a combined hash and the current hash. */
  function NewKeyOf(combined: Int32Word, currentKey: Int32Word): (newKey: Int32Word)
  {
    combined - currentKey * 0xA555_5529
  }

  /** The key mixed in can be read back, given the current hash. */
  lemma {:induction false} NewKeyOfCombine(newKey: Int32Word, currentKey: Int32Word)
    ensures NewKeyOf(Combine(newKey, currentKey), currentKey) == newKey
  {
    assert Combine(newKey, currentKey) == currentKey * 0xA555_5529 + newKey;
    assert NewKeyOf(currentKey * 0xA555_5529 + newKey, currentKey)
        == (currentKey * 0xA555_5529 + newKey) - currentKey * 0xA555_5529;
  }

  /** Hence, for a fixed key, distinct current hashes always combine to distinct results. */
  lemma {:induction false} CombineInjectiveInCurrentKey(newKey: Int32Word, c1: Int32Word, c2: Int32Word)
    requires Combine(newKey, c1) == Combine(newKey, c2)
    ensures c1 == c2
  {
    UncombineCombine(newKey, c1);
    UncombineCombine(newKey, c2);
  }

  /** And for a fixed current hash, distinct keys always combine to distinct results. */
  lemma {:induction false} CombineInjectiveInNewKey(n1: Int32Word, n2: Int32Word, currentKey: Int32Word)
    requires Combine(n1, currentKey) == Combine(n2, currentKey)
    ensures n1 == n2
  {
    NewKeyOfCombine(n1, currentKey);
    NewKeyOfCombine(n2, currentKey);
  }

  /** One FNV-1a step loses nothing about the hash before it. */
  lemma {:induction false} UncombineCombineFnvHash(hashCode: Int32Word, ch: Char16)
    ensures UncombineFnvHash(CombineFnvHash(hashCode, ch), ch) == hashCode
  {
    assert CombineFnvHash(hashCode, ch) == (hashCode ^ (ch as bv32)) * 0x0100_0193;
    assert UncombineFnvHash((hashCode ^ (ch as bv32)) * 0x0100_0193, ch)
        == (((hashCode ^ (ch as bv32)) * 0x0100_0193) * 0x359C_449B) ^ (ch as bv32);
  }

  /**
   * One FNV-1a step is injective in the hash for a fixed character, and in the
   * character for a fixed hash: distinct characters always give distinct hashes.
   */
  lemma {:induction false} CombineFnvHashInjective(h1: Int32Word, ch1: Char16, h2: Int32Word, ch2: Char16)
    requires CombineFnvHash(h1, ch1) == CombineFnvHash(h2, ch2)
    ensures ch1 == ch2 ==> h1 == h2
    ensures h1 == h2 ==> ch1 == ch2
  {
    UncombineCombineFnvHash(h1, ch1);
    UncombineCombineFnvHash(h2, ch2);
    if h1 == h2 {
      assert CombineFnvHash(h1, ch1) == (h1 ^ (ch1 as bv32)) * 0x0100_0193;
      assert CombineFnvHash(h2, ch2) == (h2 ^ (ch2 as bv32)) * 0x0100_0193;
      assert ((h1 ^ (ch1 as bv32)) * 0x0100_0193) * 0x359C_449B == h1 ^ (ch1 as bv32);
      assert ((h2 ^ (ch2 as bv32)) * 0x0100_0193) * 0x359C_449B == h2 ^ (ch2 as bv32);
    }
  }
}
