/** The bcrypt primitive, kept uninterpreted: a hasher is any pair of a
    generating function and a comparing function, and the model only relies
    on the one law that a digest generated from a password matches it. */
module Hashing {
  import opened Types

  /** The three outcomes of bcrypt.CompareHashAndPassword: nil,
      ErrMismatchedHashAndPassword, and any other error (a malformed digest). */
  datatype Comparison = Match | Mismatch | Malformed

  /** generate models bcrypt.GenerateFromPassword, which may fail (None);
      compare models bcrypt.CompareHashAndPassword. */
  datatype Hasher = Hasher(generate: Password -> Option<Digest>, compare: (Digest, Password) -> Comparison)

  /** A digest generated from a password verifies against that password. */
  ghost predicate Sound(h: Hasher)
  {
    forall p :: h.generate(p).Some? ==> h.compare(h.generate(p).value, p) == Match
  }
}
