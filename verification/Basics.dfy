/** Vocabulary shared by every component: bytes, options, results, and hash
    functions.  The hash is never fixed: every statement holds for an arbitrary
    function value, and where the output width matters it is a hypothesis. */
module Basics {

  newtype byte = b: int | 0 <= b < 256

  type Bytes = seq<byte>

  datatype Option<+T> = None | Some(value: T)

  datatype Result<+T, +E> = Ok(value: T) | Err(error: E)

  type HashFn = Bytes -> Bytes

  /** The digest size of SHA-256 (tmhash.Size). */
  const HASH_SIZE := 32

  ghost predicate FixedWidth(h: HashFn) {
    forall x: Bytes :: |h(x)| == HASH_SIZE
  }

  /** Two distinct strings with one digest.  By counting, *some* collision exists
      for every fixed-width hash, so soundness statements hand out the pair and
      say which computation hashed each half. */
  ghost predicate Collision(h: HashFn, x: Bytes, y: Bytes) {
    x != y && h(x) == h(y)
  }

  function Pow2(e: nat): nat {
    if e == 0 then 1 else 2 * Pow2(e - 1)
  }
}
