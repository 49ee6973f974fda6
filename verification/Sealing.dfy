/** A large invariant that is only passed along slows the verifier down when it is unfolded at
    every step. Stating it as `forall key: Key :: Turned(key, x) ==> Body(x)` keeps its content
    out of sight until somebody mentions `Turned(Key, x)`; `Turned` itself says nothing. */
module Sealing {
  datatype Key = Key

  predicate Turned<T>(key: Key, subject: T) { true }
}
