// Generator of identifiers: each request returns the next value of a 64-bit
// counter, which wraps around after 2^64 requests.
module UniqueIds {
  import opened Common

  /** The i-th identifier handed out since the last reset. */
  function IdAt(i: nat): (id: u64)
    ensures i < U64_MODULUS ==> id == i
  {
    i % U64_MODULUS
  }

  class UniqueIdGenerator {
    var generatedNb: u64
    var nextId: u64
    /** Every identifier handed out since the last reset, in order. */
    ghost var issued: seq<u64>

    ghost predicate Valid()
      reads this
    {
      && nextId == IdAt(|issued|)
      && generatedNb == IdAt(|issued|)
      && forall i :: 0 <= i < |issued| ==> issued[i] == IdAt(i)
    }

    /** The private constructor calls reset. */
    constructor ()
      ensures Valid() && issued == []
    {
      generatedNb := 0;
      nextId := 0;
      issued := [];
    }

    /** newId: count one more generation and return the counter before incrementing it. */
    method NewId() returns (id: u64)
      requires Valid()
      modifies this
      ensures Valid()
      ensures id == old(nextId) && issued == old(issued) + [id]
      ensures generatedNb == (old(generatedNb) + 1) % U64_MODULUS
      ensures nextId == (old(nextId) + 1) % U64_MODULUS
    {
      generatedNb := (generatedNb + 1) % U64_MODULUS;
      id := nextId;
      nextId := (nextId + 1) % U64_MODULUS;
      issued := issued + [id];
    }

    /** previousId: `nextId - 1`, the last identifier handed out (all ones before the first). */
    function PreviousId(): (id: u64)
      reads this
      requires Valid()
      ensures |issued| > 0 ==> id == issued[|issued| - 1]
      ensures |issued| % U64_MODULUS == 0 ==> id == U64_MAX
    {
      (nextId + U64_MODULUS - 1) % U64_MODULUS
    }

    /** idNumber: how many identifiers were generated since the last reset, modulo 2^64. */
    function IdNumber(): (n: u64)
      reads this
      requires Valid()
      ensures n == |issued| % U64_MODULUS
      ensures |issued| < U64_MODULUS ==> n == |issued|
    {
      generatedNb
    }

    /** reset: both counters go back to 0. */
    method Reset()
      modifies this
      ensures Valid() && issued == []
      ensures nextId == 0 && generatedNb == 0
    {
      generatedNb := 0;
      nextId := 0;
      issued := [];
    }
  }

  /** Identifiers are unique as long as fewer than 2^64 were requested since the last reset. */
  lemma IssuedAreUnique(issued: seq<u64>)
    requires |issued| <= U64_MODULUS
    requires forall i :: 0 <= i < |issued| ==> issued[i] == IdAt(i)
    ensures forall i, j :: 0 <= i < j < |issued| ==> issued[i] < issued[j]
  {
  }

  /** After 2^64 requests the counter is back at its first value. */
  lemma WrapsAround(issued: seq<u64>)
    requires |issued| > U64_MODULUS
    requires forall i :: 0 <= i < |issued| ==> issued[i] == IdAt(i)
    ensures issued[U64_MODULUS] == issued[0]
  {
  }
}
