/**
 * The integer channel arithmetic of the hue and noise transforms, on the
 * flattened sample planes of an image.
 */
module Channels {
  import opened Imaging

  /** Hue values live on a ring of 255 steps, not 256 and not 360 degrees. */
  const HueRing: int := 255

  /** `np.clip(x, lo, hi)` on one sample. */
  function Clip(x: int, lo: int, hi: int): (r: int)
    requires lo <= hi
    ensures lo <= r <= hi
    ensures x < lo ==> r == lo
    ensures x > hi ==> r == hi
    ensures lo <= x <= hi ==> r == x
  {
    if x < lo then lo else if x > hi then hi else x
  }

  /**
   * `(h + k) % 255` applied to every hue sample: each result is the unique
   * point of the 255-step ring congruent to the shifted hue.
   */
  function ShiftHue(h: seq<int>, k: int): (r: seq<int>)
    ensures |r| == |h|
    ensures forall i :: 0 <= i < |h| ==> 0 <= r[i] < HueRing && (r[i] - h[i] - k) % HueRing == 0
  {
    seq(|h|, i requires 0 <= i < |h| => (h[i] + k) % HueRing)
  }

  lemma ModOfMod(x: int, k: int)
    ensures (x % HueRing + k) % HueRing == (x + k) % HueRing
  {
    var q := x / HueRing;
    assert x == HueRing * q + x % HueRing;
    assert x % HueRing + k == (x + k) - HueRing * q;
  }

  /** Two hue shifts make one shift by the sum of their amounts. */
  lemma ShiftHueTwice(h: seq<int>, a: int, b: int)
    ensures ShiftHue(ShiftHue(h, a), b) == ShiftHue(h, a + b)
  {
    forall i | 0 <= i < |h|
      ensures ShiftHue(ShiftHue(h, a), b)[i] == ShiftHue(h, a + b)[i]
    {
      ModOfMod(h[i] + a, b);
    }
  }

  /**
   * Shifting by amounts that add up to whole turns of the ring returns every
   * hue to itself, modulo 255.
   */
  lemma ShiftHueWholeTurns(h: seq<int>, a: int, b: int)
    requires (a + b) % HueRing == 0
    ensures forall i :: 0 <= i < |h| ==> ShiftHue(ShiftHue(h, a), b)[i] == h[i] % HueRing
  {
    ShiftHueTwice(h, a, b);
    forall i | 0 <= i < |h|
      ensures ShiftHue(h, a + b)[i] == h[i] % HueRing
    {
      ModOfMod(a + b, h[i]);
    }
  }

  /**
   * An intensity that is a whole number (shift 255, 510, ...) leaves every
   * hue below 255 where it was; only the hue byte 255 moves, to 0.
   */
  lemma WholeTurnKeepsHue(h: seq<int>, k: int)
    requires k % HueRing == 0
    requires forall i :: 0 <= i < |h| ==> 0 <= h[i] <= 255
    ensures forall i :: 0 <= i < |h| ==> ShiftHue(h, k)[i] == if h[i] == 255 then 0 else h[i]
  {
    forall i | 0 <= i < |h|
      ensures ShiftHue(h, k)[i] == if h[i] == 255 then 0 else h[i]
    {
      ModOfMod(k, h[i]);
    }
  }

  /** The hue plane shifted; the saturation and value planes untouched. */
  function ShiftHuePlanes(p: HsvPlanes, k: int): (q: HsvPlanes)
    ensures q.s == p.s && q.v == p.v
    ensures |q.h| == |p.h|
    ensures forall i :: 0 <= i < |p.h| ==> 0 <= q.h[i] < HueRing && (q.h[i] - p.h[i] - k) % HueRing == 0
  {
    p.(h := ShiftHue(p.h, k))
  }

  /**
   * Noise addition as written: `np.clip(image_array + noise, 0, 255)` where
   * both arrays are uint8, so the sum has already wrapped modulo 256 and the
   * clip changes nothing.
   */
  function WrappingNoiseSum(a: seq<int>, noise: seq<int>): (r: seq<int>)
    requires |noise| == |a|
    ensures |r| == |a|
    ensures forall i :: 0 <= i < |a| ==> r[i] == (a[i] + noise[i]) % 256
  {
    seq(|a|, i requires 0 <= i < |a| => Clip((a[i] + noise[i]) % 256, 0, 255))
  }

  /**
   * As written, positive noise that carries a bright sample past 255 makes it
   * dark: the sample comes out below where it started.
   */
  lemma WrappingNoiseDarkensBrightSamples(a: seq<int>, noise: seq<int>, i: int)
    requires |noise| == |a| && 0 <= i < |a|
    requires 0 <= a[i] <= 255 && 0 <= noise[i] <= 255
    requires a[i] + noise[i] > 255
    ensures WrappingNoiseSum(a, noise)[i] == a[i] + noise[i] - 256 < a[i]
  {
  }

  /** One sample: 250 plus a noise draw of 10 comes out as 4 as written, 255 as intended. */
  lemma NoiseOverflowExample()
    ensures WrappingNoiseSum([250], [10]) == [4]
    ensures SaturatingNoiseSum([250], [10]) == [255]
  {
    assert WrappingNoiseSum([250], [10])[0] == 4;
    assert SaturatingNoiseSum([250], [10])[0] == 255;
  }

  /**
   * Noise addition as intended: the signed noise is added in a wide integer
   * and the sum saturates at 0 and 255.
   */
  function SaturatingNoiseSum(a: seq<int>, noise: seq<int>): (r: seq<int>)
    requires |noise| == |a|
    ensures |r| == |a|
    ensures forall i :: 0 <= i < |a| ==> 0 <= r[i] <= 255
    ensures forall i :: 0 <= i < |a| ==>
      (a[i] + noise[i] < 0 ==> r[i] == 0) &&
      (a[i] + noise[i] > 255 ==> r[i] == 255) &&
      (0 <= a[i] + noise[i] <= 255 ==> r[i] == a[i] + noise[i])
  {
    seq(|a|, i requires 0 <= i < |a| => Clip(a[i] + noise[i], 0, 255))
  }

  /** The uint8 noise array `.astype(np.uint8)` makes of integer draws that wrap. */
  function NoiseBytes(noise: seq<int>): (r: seq<int>)
    ensures |r| == |noise|
    ensures forall i :: 0 <= i < |noise| ==> 0 <= r[i] < 256 && (r[i] - noise[i]) % 256 == 0
  {
    seq(|noise|, i requires 0 <= i < |noise| => noise[i] % 256)
  }

  /**
   * Where the true sum stays within 0..255 both versions give the same
   * sample: the corrected one differs only where the written one wraps.
   */
  lemma NoiseSumsAgreeInRange(a: seq<int>, noise: seq<int>)
    requires |noise| == |a|
    ensures forall i :: 0 <= i < |a| && 0 <= a[i] + noise[i] <= 255 ==>
      WrappingNoiseSum(a, NoiseBytes(noise))[i] == SaturatingNoiseSum(a, noise)[i]
  {
    forall i | 0 <= i < |a| && 0 <= a[i] + noise[i] <= 255
      ensures WrappingNoiseSum(a, NoiseBytes(noise))[i] == a[i] + noise[i]
    {
      var q := noise[i] / 256;
      assert noise[i] == 256 * q + NoiseBytes(noise)[i];
      assert a[i] + NoiseBytes(noise)[i] == (a[i] + noise[i]) - 256 * q;
    }
  }
}
