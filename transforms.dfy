/**
 * The transforms of the augmentation tool that the pipeline calls: the two
 * randomised enhancements, the hue shift and the additive noise. Blur, gamma
 * and saturation are single library calls and appear only in the pipeline.
 */
module Transforms {
  import opened Imaging
  import opened Channels

  /**
   * `random.uniform(lo, hi)` is `lo + (hi - lo) * random.random()`; `u` is the
   * value `random.random()` returned, somewhere in [0, 1).
   */
  function Uniform(lo: real, hi: real, u: real): (r: real)
    requires lo <= hi && 0.0 <= u < 1.0
    ensures lo <= r <= hi
    ensures lo < hi ==> r < hi
  {
    var w := hi - lo;
    assert w * (1.0 - u) >= 0.0 && (w > 0.0 ==> w * (1.0 - u) > 0.0) by {
      ProductSigns(w, 1.0 - u);
    }
    ProductSigns(w, u);
    lo + w * u
  }

  lemma ProductSigns(x: real, y: real)
    requires 0.0 <= x && 0.0 <= y
    ensures 0.0 <= x * y
    ensures 0.0 < x && 0.0 < y ==> 0.0 < x * y
  {
  }

  /** The random numbers drawn while one image is processed. */
  datatype Draws = Draws(
    contrast: real,      // random.random() behind the contrast factor
    brightness: real,    // random.random() behind the brightness factor
    noise: nat -> int)   // the normal noise draws, one per sample, as integers

  predicate ValidDraws(d: Draws)
  {
    0.0 <= d.contrast < 1.0 && 0.0 <= d.brightness < 1.0
  }

  /** Draws that `random.random()` can have produced. */
  type ImageDraws = d: Draws | ValidDraws(d) witness Draws(0.0, 0.0, _ => 0)

  /** Contrast enhanced by a factor drawn uniformly from [0.1, intensity]. */
  function ApplyRandomContrast(lib: Library, img: Image, intensity: real, u: real): (r: Image)
    requires 0.1 <= intensity && 0.0 <= u < 1.0
    ensures exists factor :: 0.1 <= factor <= intensity && r == lib.contrast(img, factor)
  {
    var factor := Uniform(0.1, intensity, u);
    lib.contrast(img, factor)
  }

  /** Brightness enhanced by a factor drawn uniformly from [0.1, intensity]. */
  function ApplyRandomBrightness(lib: Library, img: Image, intensity: real, u: real): (r: Image)
    requires 0.1 <= intensity && 0.0 <= u < 1.0
    ensures exists factor :: 0.1 <= factor <= intensity && r == lib.brightness(img, factor)
  {
    var factor := Uniform(0.1, intensity, u);
    lib.brightness(img, factor)
  }

  /** `int(intensity * 255)`: the product truncated, which for a positive product is its floor. */
  function HueShift(intensity: real): (k: int)
    requires 0.0 <= intensity
    ensures 0 <= k
    ensures k as real <= intensity * 255.0 < (k + 1) as real
  {
    (intensity * 255.0).Floor
  }

  /** The hue shift of an accepted intensity lies in [25, 1275]; the top is five whole turns of the ring. */
  lemma HueShiftRange(intensity: real)
    requires 0.1 <= intensity <= 5.0
    ensures 25 <= HueShift(intensity) <= 1275
  {
  }

  /**
   * The hue shift: to HSV, every hue moved `int(intensity * 255)` steps round
   * the 255-step ring, back through an HSV image converted to RGB. The result
   * is RGB whatever the input mode was, so an alpha channel is dropped.
   */
  function ApplyHue(lib: Library, img: Image, intensity: real): (r: Image)
    requires 0.0 <= intensity
    ensures r.mode == RGB && r.width == img.width && r.height == img.height
    ensures r.samples == lib.hsvToRgb(ShiftHuePlanes(lib.toHsv(img), HueShift(intensity)))
  {
    var planes := lib.toHsv(img);
    Image(RGB, img.width, img.height, lib.hsvToRgb(planes.(h := ShiftHue(planes.h, HueShift(intensity)))))
  }

  /** The first `n` noise draws, one per sample of the array. */
  function NoiseArray(noise: nat -> int, n: nat): seq<int>
  {
    seq(n, i requires 0 <= i < n => noise(i))
  }

  /**
   * `apply_gaussian_noise` as written: one draw per sample, cast to uint8 and
   * added to the uint8 array, so every sample is the sum modulo 256 and the
   * clip does nothing. The array keeps its shape; `Image.fromarray` gives
   * back the mode of its channel count.
   */
  function ApplyGaussianNoise(img: Image, noise: nat -> int): (r: Image)
    ensures r.width == img.width && r.height == img.height
    ensures r.mode == ArrayMode(img.mode) && ChannelCount(r.mode) == ChannelCount(img.mode)
    ensures |r.samples| == |img.samples|
    ensures forall i :: 0 <= i < |r.samples| ==> r.samples[i] == (img.samples[i] + noise(i)) % 256
  {
    var bytes := NoiseBytes(NoiseArray(noise, |img.samples|));
    var r := Image(ArrayMode(img.mode), img.width, img.height, WrappingNoiseSum(img.samples, bytes));
    forall i | 0 <= i < |r.samples|
      ensures r.samples[i] == (img.samples[i] + noise(i)) % 256
    {
      NoiseByteSum(img.samples[i], noise(i));
    }
    r
  }

  /** Adding a draw's byte modulo 256 is adding the draw itself modulo 256. */
  lemma NoiseByteSum(a: int, n: int)
    ensures (a + n % 256) % 256 == (a + n) % 256
  {
    var q := n / 256;
    assert n == 256 * q + n % 256;
    assert a + n % 256 == (a + n) - 256 * q;
  }

  /**
   * The noise stage as intended: the signed draws added in a wide integer,
   * the sum saturating at 0 and 255.
   */
  function ApplySaturatingNoise(img: Image, noise: nat -> int): (r: Image)
    ensures r.width == img.width && r.height == img.height && r.mode == ArrayMode(img.mode)
    ensures |r.samples| == |img.samples|
    ensures forall i :: 0 <= i < |r.samples| ==> 0 <= r.samples[i] <= 255
    ensures forall i :: 0 <= i < |r.samples| && 0 <= img.samples[i] + noise(i) <= 255 ==>
      r.samples[i] == img.samples[i] + noise(i)
  {
    Image(ArrayMode(img.mode), img.width, img.height,
          SaturatingNoiseSum(img.samples, NoiseArray(noise, |img.samples|)))
  }

  /** A one-pixel RGB image whose red sample is 250, with every draw 10: red becomes 4 as written, 255 as intended. */
  lemma NoiseStageOverflowExample()
    ensures ApplyGaussianNoise(Image(RGB, 1, 1, [250, 0, 0]), _ => 10).samples == [4, 10, 10]
    ensures ApplySaturatingNoise(Image(RGB, 1, 1, [250, 0, 0]), _ => 10).samples == [255, 10, 10]
  {
    var img := Image(RGB, 1, 1, [250, 0, 0]);
    var written := ApplyGaussianNoise(img, _ => 10).samples;
    var intended := ApplySaturatingNoise(img, _ => 10).samples;
    assert written[0] == 4 && written[1] == 10 && written[2] == 10;
    assert intended[0] == 255 && intended[1] == 10 && intended[2] == 10;
  }

  /**
   * The stage as written and the stage as intended produce the same sample
   * wherever the true sum fits in a byte; they differ only where it wraps.
   */
  lemma NoiseStagesAgreeInRange(img: Image, noise: nat -> int)
    ensures forall i :: 0 <= i < |img.samples| && 0 <= img.samples[i] + noise(i) <= 255 ==>
      ApplyGaussianNoise(img, noise).samples[i] == ApplySaturatingNoise(img, noise).samples[i]
  {
    var n := NoiseArray(noise, |img.samples|);
    NoiseSumsAgreeInRange(img.samples, n);
    forall i | 0 <= i < |img.samples| && 0 <= img.samples[i] + noise(i) <= 255
      ensures ApplyGaussianNoise(img, noise).samples[i] == ApplySaturatingNoise(img, noise).samples[i]
    {
      assert n[i] == noise(i);
    }
  }
}
