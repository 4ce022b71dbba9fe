/** Shared vocabulary: bytes, keys, results of optional values, and the concatenation of written chunks. */
module Basics {

  newtype byte = x: int | 0 <= x < 256

  type Bytes = seq<byte>

  /** The hash string that names an entry's directory (`key.combined()`). */
  type Key = string

  datatype Option<+T> = None | Some(value: T)

  /** The two byte strings a `CacheMeta` serialises to. Serialising is projection and deserialising is pairing,
      so that deserialising what was serialised gives the same value back, and a torn pair is a different value. */
  datatype CacheMeta = CacheMeta(internal: Bytes, header: Bytes)

  function Min(a: nat, b: nat): nat {
    if a <= b then a else b
  }

  function Max(a: nat, b: nat): nat {
    if a <= b then b else a
  }

  /** The chunks of a body, in the order they were written. */
  function Flatten(chunks: seq<Bytes>): Bytes {
    if chunks == [] then [] else Flatten(chunks[..|chunks| - 1]) + chunks[|chunks| - 1]
  }

  lemma FlattenSnoc(chunks: seq<Bytes>, data: Bytes)
    ensures Flatten(chunks + [data]) == Flatten(chunks) + data
  {
  }

  lemma {:induction false} FlattenCons(chunk: Bytes, chunks: seq<Bytes>)
    ensures Flatten([chunk] + chunks) == chunk + Flatten(chunks)
  {
    var all := [chunk] + chunks;
    if chunks == [] {
      assert all[..|all| - 1] == [];
    } else {
      FlattenCons(chunk, chunks[..|chunks| - 1]);
      assert all[..|all| - 1] == [chunk] + chunks[..|chunks| - 1];
    }
  }
}
