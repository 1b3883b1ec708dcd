/**
 * The 32-bit MurmurHash3 variant the replay datasource uses to key its
 * symbSubsys answers by id list (ks-nav/nav/sql_mock.go): one round per
 * list element, mixing in the element's byte offset, then the usual
 * finaliser. A Go `uint32` is a `bv32`, whose arithmetic wraps around at 2^32.
 */
module Murmur3 {

  const Seed: bv32 := 0x9747b28c
  const C1: bv32 := 0xcc9e2d51
  const C2: bv32 := 0x1b873593
  const M: bv32 := 5
  const N: bv32 := 0xe6546b64

  /** Go's conversion `uint32(v)` of an int: its low 32 bits, two's complement. */
  function Word(v: int): bv32
  {
    LowBits(v % 0x1_0000_0000, 32)
  }

  /** The low `width` bits of n, built one bit at a time. */
  function LowBits(n: nat, width: nat): bv32
    decreases width
  {
    if width == 0 then 0 else (LowBits(n / 2, width - 1) << 1) | (if n % 2 == 1 then 1 else 0)
  }

  lemma {:induction false} LowBitsZero(width: nat)
    ensures LowBits(0, width) == 0
  {
    if width > 0 {
      LowBitsZero(width - 1);
    }
  }

  /** The first half of the loop body: `k` scrambled. */
  function Scramble(k: bv32): bv32
  {
    var k := k * C1;
    var k := (k << 15) | (k >> 17);
    k * C2
  }

  /** The loop body, for the key word k at byte offset `uint32(i*4)`. */
  function Round(hash: bv32, k: bv32, offset: bv32): bv32
  {
    var h := hash ^ Scramble(k);
    var h := (h << 13) | (h >> 19);
    (h * M) + N + offset
  }

  /** The hash after the loop has consumed the first n elements. */
  function HashAfter(arr: seq<int>, n: nat): bv32
    requires n <= |arr|
  {
    if n == 0 then Seed else Round(HashAfter(arr, n - 1), Word(arr[n - 1]), Word((n - 1) * 4))
  }

  /** The statements after the loop, for a list of len elements. */
  function Finalize(hash: bv32, len: int): bv32
  {
    var h := hash ^ Word(len * 4);
    var h := h ^ (h >> 16);
    var h := h * 0x85ebca6b;
    var h := h ^ (h >> 13);
    var h := h * 0xc2b2ae35;
    h ^ (h >> 16)
  }

  /** murmurHash3 of an id list, as a function of the list. */
  function Murmur(arr: seq<int>): bv32
  {
    Finalize(HashAfter(arr, |arr|), |arr|)
  }

  /** `murmurHash3`: one round per element, then the finaliser. */
  method MurmurHash3(arr: seq<int>) returns (hash: bv32)
    ensures hash == Murmur(arr)
  {
    hash := Seed;
    var i := 0;
    while i < |arr|
      invariant 0 <= i <= |arr|
      invariant hash == HashAfter(arr, i)
    {
      hash := Round(hash, Word(arr[i]), Word(i * 4));
      i := i + 1;
    }
    hash := Finalize(hash, |arr|);
  }

  /** The empty list skips the loop: the finaliser applied to `seed ^ 0`. */
  lemma MurmurEmpty()
    ensures Murmur([]) == Finalize(Seed ^ 0, 0)
    ensures Murmur([]) == 0xebb6c228
  {
    LowBitsZero(32);
  }
}
