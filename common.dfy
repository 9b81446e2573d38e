/** Small shared vocabulary: optional values, results with an error side, identifiers. */
module Common {

  datatype Option<T> = None | Some(value: T)

  datatype Result<T, E> = Ok(value: T) | Err(error: E)

  /** Identifiers of tracks, playlists and stored blobs. The player makes them from
      `Date.now() + Math.random()`, which is always positive; only equality is ever used. */
  type Id = n: int | n > 0 witness 1

  /** No element occurs twice (what a JavaScript `Set` guarantees of its members). */
  predicate NoDup<T(==)>(s: seq<T>)
  {
    forall i, j :: 0 <= i < j < |s| ==> s[i] != s[j]
  }
}
