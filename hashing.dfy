/** Content hashing (backend/utils/hashing.py). SHA-256 itself is not modelled:
    every caller receives the digest function as a parameter, so the model relies
    on nothing but its being a function (equal texts give equal digests). */
module Hashing {

  /** `hashlib.sha256(text.encode("utf-8")).hexdigest()`, supplied by the caller. */
  type Sha256Hex = string -> string

  /** `hash_string`: the digest used for change detection of lineage. */
  function HashString(sha: Sha256Hex, text: string): string
  {
    sha(text)
  }

  /** What `hash_string` and `hash_procedure` raise when a NULL definition
      reaches them as None: the AttributeError of `None.encode`. */
  const NoneEncodeDetail: string := "'NoneType' object has no attribute 'encode'"
}
