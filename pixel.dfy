/**
 * Utils::ConvertToRGBA: a colour becomes one 32-bit word, red in the
 * low byte, then green, blue and alpha.
 *
 * Bytes and words are integers in range. Shifting a byte left by 8k bits
 * is multiplying it by 2^(8k), and the OR of bytes that sit in disjoint
 * lanes is their sum, so the packing is written arithmetically; reading a
 * lane back (`(w >> 8k) & 0xFF`) is division and remainder.
 */
module Pixel {
  import opened Geometry

  type Byte = x: int | 0 <= x < 0x100
  type Word = x: int | 0 <= x < 0x1_0000_0000

  /**
   * `(uint8_t)(c * 255.0f)` is defined only when the product, truncated
   * toward zero, fits a byte.
   */
  predicate ByteConvertible(c: real) { -1.0 < c * 255.0 < 256.0 }

  /** One channel as a byte: `c * 255` truncated toward zero. */
  function ToByte(c: real): (b: Byte)
    requires ByteConvertible(c)
    ensures 0.0 <= c ==> b as real <= c * 255.0 < b as real + 1.0
    ensures c <= 0.0 ==> b == 0
    ensures c == 1.0 ==> b == 255
  {
    var x := c * 255.0;
    if x < 0.0 then 0 else x.Floor
  }

  /** `w & 0xFF` */
  function Red(w: Word): Byte { w % 0x100 }
  /** `(w >> 8) & 0xFF` */
  function Green(w: Word): Byte { w / 0x100 % 0x100 }
  /** `(w >> 16) & 0xFF` */
  function Blue(w: Word): Byte { w / 0x1_0000 % 0x100 }
  /** `w >> 24` */
  function Alpha(w: Word): Byte { w / 0x100_0000 }

  /** `(a << 24) | (b << 16) | (g << 8) | r` */
  function Pack(r: Byte, g: Byte, b: Byte, a: Byte): Word
  {
    a * 0x100_0000 + b * 0x1_0000 + g * 0x100 + r
  }

  /** (hi << 8) | lo, read back: the low byte is lo and the rest is hi. */
  lemma SplitLowByte(hi: nat, lo: Byte)
    ensures (hi * 0x100 + lo) % 0x100 == lo && (hi * 0x100 + lo) / 0x100 == hi
  {
  }

  /** Each byte lands in its own lane: unpacking a packed word gives the four bytes back. */
  lemma ChannelsOfPack(r: Byte, g: Byte, b: Byte, a: Byte)
    ensures var w := Pack(r, g, b, a);
            Red(w) == r && Green(w) == g && Blue(w) == b && Alpha(w) == a
  {
    var w := Pack(r, g, b, a);
    var q1 := (a * 0x100 + b) * 0x100 + g;
    var q2 := a * 0x100 + b;
    assert w == q1 * 0x100 + r;
    SplitLowByte(q1, r);
    SplitLowByte(q2, g);
    SplitLowByte(a, b);
    assert w / 0x1_0000 == q2 by {
      assert w == q2 * 0x1_0000 + (g * 0x100 + r);
    }
    assert w / 0x100_0000 == a by {
      assert w == a * 0x100_0000 + (b * 0x1_0000 + g * 0x100 + r);
    }
  }

  /** Every word is the packing of its own four bytes, so Pack is a bijection. */
  lemma PackOfChannels(w: Word)
    ensures Pack(Red(w), Green(w), Blue(w), Alpha(w)) == w
  {
    var q1 := w / 0x100;
    var q2 := q1 / 0x100;
    var q3 := q2 / 0x100;
    assert w == q1 * 0x100 + Red(w);
    assert q1 == q2 * 0x100 + Green(w);
    assert w / 0x1_0000 == q2;
    assert q2 == q3 * 0x100 + Blue(w);
    assert w / 0x100_0000 == q3;
  }

  /** A colour every channel of which can be converted to a byte. */
  predicate Convertible(color: Vec4)
  {
    ByteConvertible(color.r) && ByteConvertible(color.g)
    && ByteConvertible(color.b) && ByteConvertible(color.a)
  }

  /** Utils::ConvertToRGBA: red lands in the low byte, then green and blue, alpha in the high byte. */
  function ConvertToRGBA(color: Vec4): Word
    requires Convertible(color)
  {
    Pack(ToByte(color.r), ToByte(color.g), ToByte(color.b), ToByte(color.a))
  }

  /** Each byte lane of the packed colour holds the truncated byte of its own channel. */
  lemma ConvertToRGBAChannels(color: Vec4)
    requires Convertible(color)
    ensures var w := ConvertToRGBA(color);
            Red(w) == ToByte(color.r) && Green(w) == ToByte(color.g)
            && Blue(w) == ToByte(color.b) && Alpha(w) == ToByte(color.a)
  {
    ChannelsOfPack(ToByte(color.r), ToByte(color.g), ToByte(color.b), ToByte(color.a));
  }

  /** A clamped colour, as Render hands it over, is convertible. */
  lemma UnitCubeConvertible(color: Vec4)
    requires InUnitCube(color)
    ensures Convertible(color)
  {
  }
}
