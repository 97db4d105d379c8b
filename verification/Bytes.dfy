/** Byte strings, and lists of chunks of them. */
module Bytes {
  newtype byte = x: int | 0 <= x < 256

  type Chunk = seq<byte>

  function Flatten(chunks: seq<Chunk>): Chunk {
    if chunks == [] then [] else Flatten(chunks[..|chunks| - 1]) + chunks[|chunks| - 1]
  }

  lemma {:induction false} FlattenConcat(a: seq<Chunk>, b: seq<Chunk>)
    ensures Flatten(a + b) == Flatten(a) + Flatten(b)
  {
    if b == [] {
      assert a + b == a;
    } else {
      var b', last := b[..|b| - 1], b[|b| - 1];
      assert (a + b)[..|a + b| - 1] == a + b';
      FlattenConcat(a, b');
      assert Flatten(a) + (Flatten(b') + last) == (Flatten(a) + Flatten(b')) + last;
    }
  }

  lemma FlattenOne(c: Chunk)
    ensures Flatten([c]) == c
  {
    assert [c][..0] == [];
    assert Flatten([]) + c == c;
  }

  /** `s` is the end of `whole`. */
  predicate Suffix(s: Chunk, whole: Chunk) {
    |s| <= |whole| && whole[|whole| - |s|..] == s
  }
}
