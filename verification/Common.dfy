/** Small wrappers shared by every module. */
module Common {

  datatype Option<+T> = None | Some(value: T)

  /** A C++ or Python call either returns or throws. */
  datatype Result<+T> = Ok(value: T) | Err(reason: string)

  /** File contents. */
  type Blob = seq<int>

  /** A directory tree: every regular file by its path relative to the root. */
  type Tree = map<string, Blob>

  /** SHA-256 as a collision-free function: a digest is determined by the bytes and determines them. */
  datatype Digest = Sha256(content: Blob)

  /** There is always an unused id. */
  lemma {:induction false} FreshId(used: set<nat>) returns (id: nat)
    ensures id !in used && forall q | q in used :: q < id
    decreases |used|
  {
    if used == {} {
      id := 0;
    } else {
      var q :| q in used;
      var other := FreshId(used - {q});
      id := if other > q then other else q + 1;
      assert forall x | x in used :: x == q || x in used - {q};
    }
  }
}
