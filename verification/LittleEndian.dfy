/** Two's complement little-endian memory images. */
module LittleEndian {

  type Byte = x: int | 0 <= x < 256

  function Pow256(w: nat): (p: nat)
    ensures p > 0
  {
    if w == 0 then 1 else 256 * Pow256(w - 1)
  }

  /** The image of `v` in `w` bytes; a negative `v` gives its two's complement. */
  function Image(v: int, w: nat): (b: seq<Byte>)
    ensures |b| == w
    decreases w
  {
    if w == 0 then [] else [v % 256] + Image(v / 256, w - 1)
  }

  /** The unsigned value of an image. */
  function Unsigned(b: seq<Byte>): nat {
    if b == [] then 0 else b[0] + 256 * Unsigned(b[1..])
  }

  /** The value of an image as a signed integer. */
  function Signed(b: seq<Byte>): int {
    if b != [] && b[|b| - 1] >= 128 then Unsigned(b) - Pow256(|b|) else Unsigned(b)
  }

  lemma {:induction false} UnsignedBounds(b: seq<Byte>)
    ensures Unsigned(b) < Pow256(|b|)
    ensures b != [] ==> (b[|b| - 1] >= 128 <==> 2 * Unsigned(b) >= Pow256(|b|))
  {
    if b != [] {
      UnsignedBounds(b[1..]);
    }
  }

  /** Reading the low bytes of an image gives the image in fewer bytes. */
  lemma {:induction false} ImagePrefix(v: int, wide: nat, w: nat)
    requires w <= wide
    ensures Image(v, wide)[..w] == Image(v, w)
    decreases w
  {
    if w > 0 {
      ImagePrefix(v / 256, wide - 1, w - 1);
      assert Image(v, wide)[..w] == [v % 256] + Image(v / 256, wide - 1)[..w - 1];
    }
  }

  /** Any value congruent to the unsigned value of `b` has image `b`. */
  lemma {:induction false} ImageOfUnsigned(b: seq<Byte>, k: int)
    ensures Image(Unsigned(b) + k * Pow256(|b|), |b|) == b
  {
    if b != [] {
      var rest := k * Pow256(|b| - 1);
      var v := Unsigned(b) + k * Pow256(|b|);
      assert k * Pow256(|b|) == 256 * rest;
      assert v == b[0] + 256 * (Unsigned(b[1..]) + rest);
      assert v % 256 == b[0] && v / 256 == Unsigned(b[1..]) + rest;
      ImageOfUnsigned(b[1..], k);
    }
  }

  /** Storing what was loaded, in at least as many bytes, keeps the low bytes; this holds for sign
      extension and for zero extension. */
  lemma {:induction false} LoadThenStore(b: seq<Byte>, wide: nat)
    requires |b| <= wide
    ensures Image(Unsigned(b), wide)[..|b|] == b
    ensures Image(Signed(b), wide)[..|b|] == b
  {
    ImageOfUnsigned(b, 0);
    ImageOfUnsigned(b, -1);
    ImagePrefix(Unsigned(b), wide, |b|);
    ImagePrefix(Signed(b), wide, |b|);
  }
}
