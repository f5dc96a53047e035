/** The checksum accumulator the producers and the students update.
    A checksum is modelled as the multiset of the names fed into it: an ideal,
    collision-free digest whose combination is commutative and associative,
    with the empty multiset as its neutral value. */
module Checksums {

  type Checksum = multiset<string>

  /** `Checksum::default()`: the neutral checksum. */
  function Default(): Checksum
  {
    multiset{}
  }

  /** `Checksum::with_sha256(text)`: the checksum of one string. */
  function WithSha256(text: string): Checksum
  {
    multiset{text}
  }

  /** `checksum.update(other)` on a local value. */
  function Combine(c: Checksum, other: Checksum): Checksum
  {
    c + other
  }

  /** Combining checksums is commutative and associative and has `Default()`
      as identity, so the final value does not depend on the order in which
      the threads merge their batches. */
  lemma CombineCommutes(a: Checksum, b: Checksum)
    ensures Combine(a, b) == Combine(b, a)
  {
  }

  lemma CombineAssociates(a: Checksum, b: Checksum, c: Checksum)
    ensures Combine(Combine(a, b), c) == Combine(a, Combine(b, c))
  {
  }

  lemma DefaultIsIdentity(a: Checksum)
    ensures Combine(Default(), a) == a
  {
  }

  /** A checksum shared between threads (`Arc<Mutex<Checksum>>`); `Update` is
      the one locked merge of a batch into it. `merges` counts the locked
      merges so far. */
  class SharedChecksum {
    var value: Checksum
    ghost var merges: nat

    constructor ()
      ensures value == Default() && merges == 0
    {
      value := Default();
      merges := 0;
    }

    method Update(batch: Checksum)
      modifies this
      ensures value == Combine(old(value), batch)
      ensures merges == old(merges) + 1
    {
      value := Combine(value, batch);
      merges := merges + 1;
    }
  }
}
