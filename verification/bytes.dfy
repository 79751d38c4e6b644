/** Bytes as the file format and the attribute streams see them. */
module Bytes {

  type byte = x: int | 0 <= x < 256

  /** The bytes `s` stand in `c` at offset `i`. */
  ghost predicate At(c: seq<byte>, i: nat, s: seq<byte>) {
    i + |s| <= |c| && c[i..i + |s|] == s
  }

  lemma AtSplit(c: seq<byte>, i: nat, a: seq<byte>, b: seq<byte>)
    ensures At(c, i, a + b) <==> At(c, i, a) && At(c, i + |a|, b)
  {
    if At(c, i, a + b) {
      assert c[i..i + |a|] == c[i..i + |a + b|][..|a|] == a;
      assert c[i + |a|..i + |a| + |b|] == c[i..i + |a + b|][|a|..] == b;
    }
    if At(c, i, a) && At(c, i + |a|, b) {
      assert c[i..i + |a + b|] == c[i..i + |a|] + c[i + |a|..i + |a| + |b|];
    }
  }
}
