/**
 * The 32-bit FNV-1 hash that Go's `hash/fnv.New32` computes: start from the
 * offset basis and, for every byte, multiply by the FNV prime modulo 2^32
 * and then xor in the byte.
 */
module Fnv {
  import opened Kube

  const OffsetBasis32: bv32 := 0x811c9dc5
  const Prime32: bv32 := 0x0100_0193

  /** One FNV-1 round: multiply by the prime (wrapping at 2^32), then xor in the byte. */
  function Step(h: bv32, b: byte): bv32 {
    (h * Prime32) ^ (b as bv32)
  }

  /** Feeds `data` into a hasher whose state is `h`. */
  function Fold(h: bv32, data: Bytes): bv32
    decreases |data|
  {
    if data == [] then h else Fold(Step(h, data[0]), data[1..])
  }

  /** `Sum32()` of a fresh hasher after writing `data`, as an unsigned number. */
  function Sum32(data: Bytes): (r: nat)
    ensures r < 0x1_0000_0000
  {
    Fold(OffsetBasis32, data) as nat
  }

  /** Writing `a` then `b` to the hasher leaves the state that writing `a + b` does. */
  lemma {:induction false} FoldConcat(h: bv32, a: Bytes, b: Bytes)
    ensures Fold(h, a + b) == Fold(Fold(h, a), b)
    decreases |a|
  {
    if a == [] {
      assert a + b == b;
    } else {
      assert (a + b)[0] == a[0] && (a + b)[1..] == a[1..] + b;
      FoldConcat(Step(h, a[0]), a[1..], b);
    }
  }

  /** Known answers: the empty input gives the offset basis, and "a" gives 0x050c5d7e. */
  lemma KnownAnswers()
    ensures Sum32([]) == 0x811c9dc5
    ensures Sum32([97]) == 0x050c5d7e
  {
  }
}
