/** Texture addressing of the shader: the nearest texel of texture
    coordinates (s, t), with the texture repeated in both directions. */
module Shading {
  import opened CNumeric
  import opened Vectors

  /** A texture of width by height texels, three bytes each, row by row. */
  datatype Texture = Texture(width: int, height: int, data: seq<byte>)

  predicate ValidTexture(tex: Texture) {
    tex.width > 0 && tex.height > 0 && |tex.data| == 3 * (tex.width * tex.height)
  }

  /** `floor(n * c + .5)`: the integer nearest to n * c, halves rounding up. */
  function Nearest(n: int, c: real): (u: int)
    ensures u as real - 0.5 <= n as real * c < u as real + 0.5
  {
    (n as real * c + 0.5).Floor
  }

  /** The column of the nearest texel. */
  function NearestU(width: int, s: real): int {
    Nearest(width, s)
  }

  /** The row of the nearest texel; t runs bottom to top, rows top to bottom. */
  function NearestV(height: int, t: real): int {
    Nearest(height, 1.0 - t)
  }

  /** Moving the coordinate by one moves the nearest texel by n. */
  lemma NearestShift(n: int, c: real, k: int)
    ensures Nearest(n, c + k as real) == Nearest(n, c) + n * k
  {
    assert n as real * (c + k as real) + 0.5 == (n as real * c + 0.5) + (n * k) as real;
  }

  // ---------------------------------------------------------------------
  // The lookup as written

  /** The repeat step as written: C's `%` keeps the sign of a negative
      value, and the correction `if (u < 0) width - u;` computes a value
      and discards it, so a negative value stays negative. */
  function WrapAsWritten(a: int, n: int): (r: int)
    requires n > 0
    ensures a >= 0 ==> 0 <= r < n && r == a % n
    ensures a < 0 ==> -n < r <= 0
  {
    CRem(a, n)
  }

  /** The byte index `3 * (v * width + u)` of the texel as written. */
  function TexelIndexAsWritten(tex: Texture, s: real, t: real): int
    requires ValidTexture(tex)
  {
    var u := WrapAsWritten(NearestU(tex.width, s), tex.width);
    var v := WrapAsWritten(NearestV(tex.height, t), tex.height);
    3 * (v * tex.width + u)
  }

  /** texture_lookup as written, for the inputs where its reads stay inside
      the texture data. */
  function TextureLookupAsWritten(tex: Texture, s: real, t: real): (pixel: Vec3)
    requires ValidTexture(tex)
    requires 0 <= TexelIndexAsWritten(tex, s, t) && TexelIndexAsWritten(tex, s, t) + 2 < |tex.data|
    ensures 0.0 <= pixel.x <= 255.0 && 0.0 <= pixel.y <= 255.0 && 0.0 <= pixel.z <= 255.0
  {
    var i := TexelIndexAsWritten(tex, s, t);
    Vec3(tex.data[i] as real, tex.data[i + 1] as real, tex.data[i + 2] as real)
  }

  /** A 4 by 4 texture. */
  function Checker(): Texture {
    Texture(4, 4, seq(48, i => (i % 256) as byte))
  }

  /** At s = 0.5, t = 1.25 the row is floor(4 * -0.25 + .5) = -1, which
      the repeat step leaves at -1: the byte index is negative and the read
      falls before the texture data. */
  lemma NegativeRowReadsBeforeData()
    ensures ValidTexture(Checker())
    ensures NearestV(4, 1.25) == -1 && WrapAsWritten(-1, 4) == -1
    ensures TexelIndexAsWritten(Checker(), 0.5, 1.25) < 0
  {
    assert NearestU(4, 0.5) == 2;
    assert NearestV(4, 1.25) == -1;
  }

  /** At s = -0.25, t = 0.5 the column is floor(4 * -0.25 + .5) = -1: the
      index 3 * (2 * 4 - 1) = 21 is inside the data, so the lookup silently
      reads texel (3, 1) instead of the repeated texel (3, 2) at index 33. */
  lemma NegativeColumnReadsWrongTexel()
    ensures ValidTexture(Checker())
    ensures TexelIndexAsWritten(Checker(), -0.25, 0.5) == 21
    ensures TexelIndex(Checker(), -0.25, 0.5) == 33
    ensures TextureLookupAsWritten(Checker(), -0.25, 0.5) != TextureLookup(Checker(), -0.25, 0.5)
  {
    assert NearestU(4, -0.25) == -1;
    assert NearestV(4, 0.5) == 2;
    assert Wrap(-1, 4) == 3;
    assert Checker().data[21] == 21 && Checker().data[33] == 33;
  }

  /** For non-negative texel coordinates the lookup as written is the
      intended one. */
  lemma AsWrittenAgreesWhenNonnegative(tex: Texture, s: real, t: real)
    requires ValidTexture(tex)
    requires NearestU(tex.width, s) >= 0 && NearestV(tex.height, t) >= 0
    ensures TexelIndexAsWritten(tex, s, t) == TexelIndex(tex, s, t)
    ensures 0 <= TexelIndexAsWritten(tex, s, t) && TexelIndexAsWritten(tex, s, t) + 2 < |tex.data|
    ensures TextureLookupAsWritten(tex, s, t) == TextureLookup(tex, s, t)
  {
  }

  // ---------------------------------------------------------------------
  // The lookup as intended

  /** The intended repeat step: C's `%`, then `n + r` for a negative
      remainder r. The result is the residue of a modulo n. */
  function Wrap(a: int, n: int): (r: int)
    requires n > 0
    ensures 0 <= r < n
    ensures r == a % n
  {
    var r := CRem(a, n);
    if r < 0 then ModAddMultiple(r, n, 1); n + r else r
  }

  /** The byte index of the nearest texel of the repeated texture. */
  function TexelIndex(tex: Texture, s: real, t: real): (i: int)
    requires ValidTexture(tex)
    ensures 0 <= i && i + 2 < |tex.data| && i % 3 == 0
  {
    var u := Wrap(NearestU(tex.width, s), tex.width);
    var v := Wrap(NearestV(tex.height, t), tex.height);
    TexelInRange(tex.width, tex.height, u, v);
    3 * (v * tex.width + u)
  }

  lemma TexelInRange(width: int, height: int, u: int, v: int)
    requires 0 <= u < width && 0 <= v < height
    ensures 0 <= v * width + u < width * height
  {
    MulLeq(width, v + 1, height);
    assert width * (v + 1) == v * width + width;
  }

  /** The texel's three channels, as floats. */
  function TextureLookup(tex: Texture, s: real, t: real): (pixel: Vec3)
    requires ValidTexture(tex)
    ensures 0.0 <= pixel.x <= 255.0 && 0.0 <= pixel.y <= 255.0 && 0.0 <= pixel.z <= 255.0
  {
    var i := TexelIndex(tex, s, t);
    Vec3(tex.data[i] as real, tex.data[i + 1] as real, tex.data[i + 2] as real)
  }

  /** The texture repeats: moving s or t by a whole number of periods gives
      the same texel. */
  lemma {:induction false} TextureRepeats(tex: Texture, s: real, t: real, k: int)
    requires ValidTexture(tex)
    ensures TexelIndex(tex, s + k as real, t) == TexelIndex(tex, s, t)
    ensures TexelIndex(tex, s, t + k as real) == TexelIndex(tex, s, t)
    ensures TextureLookup(tex, s + k as real, t) == TextureLookup(tex, s, t)
    ensures TextureLookup(tex, s, t + k as real) == TextureLookup(tex, s, t)
  {
    NearestShift(tex.width, s, k);
    ModAddMultiple(NearestU(tex.width, s), tex.width, k);
    assert 1.0 - (t + k as real) == (1.0 - t) + (-k) as real;
    NearestShift(tex.height, 1.0 - t, -k);
    ModAddMultiple(NearestV(tex.height, t), tex.height, -k);
  }

  /** The lookup as written repeats too while the texel coordinates stay
      non-negative: s moved on by one and t moved back by one read the same
      bytes, which lie inside the data. */
  lemma AsWrittenRepeatsWhenNonnegative(tex: Texture, s: real, t: real)
    requires ValidTexture(tex)
    requires NearestU(tex.width, s) >= 0 && NearestV(tex.height, t) >= 0
    ensures TexelIndexAsWritten(tex, s + 1.0, t) == TexelIndexAsWritten(tex, s, t)
    ensures TexelIndexAsWritten(tex, s, t - 1.0) == TexelIndexAsWritten(tex, s, t)
  {
    NearestShift(tex.width, s, 1);
    assert 1.0 - (t - 1.0) == (1.0 - t) + 1 as real;
    NearestShift(tex.height, 1.0 - t, 1);
    AsWrittenAgreesWhenNonnegative(tex, s, t);
    AsWrittenAgreesWhenNonnegative(tex, s + 1.0, t);
    AsWrittenAgreesWhenNonnegative(tex, s, t - 1.0);
    TextureRepeats(tex, s, t, 1);
    TextureRepeats(tex, s, t, -1);
    assert t + (-1) as real == t - 1.0;
  }
}
