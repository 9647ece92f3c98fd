/** Small shared vocabulary: options, digests and the no-collision hypothesis. */
module Prelude {
  datatype Option<+T> = None | Some(value: T)

  newtype byte = x: int | 0 <= x < 256

  type Bytes = seq<byte>
  type Digest = string

  /** The explicit no-collision hypothesis on a digest function. */
  ghost predicate CollisionFree<T(!new)>(hash: T -> Digest) {
    forall x, y :: hash(x) == hash(y) ==> x == y
  }
}
