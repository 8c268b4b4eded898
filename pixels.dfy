/**
 * Pixel arithmetic of the motion detector: the bytes of a `Uint8ClampedArray`,
 * the luminance-weighted difference of one pixel and the green intensity that
 * the diff image shows for it.
 *
 * The source weighs the channels with 0.3, 0.6 and 0.1 in floating point; here
 * every quantity is kept ten times larger so that it stays an integer.
 */
module Pixels {

  /** One channel value of a `Uint8ClampedArray`. */
  type Byte = b: int | 0 <= b <= 255

  /**
   * The value a `Uint8ClampedArray` stores when assigned the number num/den:
   * non-positive numbers become 0, numbers of at least 255 become 255, and the
   * rest are rounded to the nearest integer, ties to the even one.
   */
  function ClampToByte(num: int, den: int): (b: Byte)
    requires den > 0
    ensures num <= 0 ==> b == 0
    ensures num >= 255 * den ==> b == 255
    ensures 0 < num < 255 * den ==> (2 * b - 1) * den <= 2 * num <= (2 * b + 1) * den
    ensures 0 < num < 255 * den && (2 * num == (2 * b - 1) * den || 2 * num == (2 * b + 1) * den) ==>
              b % 2 == 0
  {
    if num <= 0 then 0
    else if num >= 255 * den then 255
    else
      var f, r := num / den, num % den;
      RoundingFacts(num, den);
      if 2 * r < den then f
      else if 2 * r > den then f + 1
      else if f % 2 == 0 then f
      else f + 1
  }

  /** The quotient and remainder that ClampToByte rounds, with the bounds its cases rely on. */
  lemma RoundingFacts(num: int, den: int)
    requires 0 < num < 255 * den
    ensures 0 <= num / den < 255
    ensures 2 * num == 2 * (num / den) * den + 2 * (num % den)
  {
    var f := num / den;
    if f >= 255 {
      MulMonotone(255, f, den);
    }
  }

  /** Multiplying by a non-negative factor keeps the order. */
  lemma MulMonotone(a: int, b: int, c: int)
    requires a <= b && c >= 0
    ensures a * c <= b * c
  {
  }

  /** Number of whole pixels in an RGBA buffer. */
  function PixelCount(s: seq<Byte>): nat
  {
    |s| / 4
  }

  /**
   * Ten times the luminance-weighted difference `0.3 R + 0.6 G + 0.1 B` of
   * pixel p of a difference buffer.
   */
  function TenfoldDiff(s: seq<Byte>, p: nat): (d: int)
    requires 4 * p + 3 < |s|
    ensures 0 <= d <= 2550
    ensures d == 0 <==> s[4 * p] == 0 && s[4 * p + 1] == 0 && s[4 * p + 2] == 0
  {
    3 * (s[4 * p] as int) + 6 * (s[4 * p + 1] as int) + (s[4 * p + 2] as int)
  }

  /** Pixel p counts towards the score: its difference is at or above the threshold. */
  predicate Qualifies(s: seq<Byte>, p: nat, threshold: int)
    requires 4 * p + 3 < |s|
  {
    TenfoldDiff(s, p) >= 10 * threshold
  }

  /**
   * The green byte written for a pixel whose tenfold difference is t:
   * `min(255, pixelDiff * (255 / threshold))` stored into a clamped byte.
   * A zero threshold makes `255 / threshold` infinite, so the product is NaN
   * (stored as 0) for a zero difference and infinite (stored as 255) otherwise;
   * a negative threshold makes the product non-positive.
   */
  function Green(t: int, threshold: int): (g: Byte)
    requires t >= 0
    ensures t == 0 ==> g == 0
    ensures threshold < 0 ==> g == 0
    ensures threshold == 0 && t > 0 ==> g == 255
    ensures threshold > 0 && t >= 10 * threshold ==> g == 255
    ensures threshold > 0 && t < 10 * threshold ==>
              (2 * g - 1) * 10 * threshold <= 2 * 255 * t <= (2 * g + 1) * 10 * threshold
    ensures threshold > 0 && t < 10 * threshold &&
            (2 * (255 * t) == (2 * g - 1) * (10 * threshold) || 2 * (255 * t) == (2 * g + 1) * (10 * threshold)) ==>
              g % 2 == 0
  {
    if threshold > 0 then ClampToByte(255 * t, 10 * threshold)
    else if threshold < 0 then ClampToByte(-255 * t, -10 * threshold)
    else if t == 0 then 0
    else 255
  }
}
