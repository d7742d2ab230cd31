/**
 * Images as the augmentation tool handles them, and the imaging library
 * (Pillow and numpy) it calls. The library calls are not modelled: they are
 * the function-valued fields of `Library`, about which nothing is known.
 */
module Imaging {

  datatype Option<+T> = None | Some(value: T)

  /** The Pillow colour modes of 8-bit rasters that an input file can decode to. */
  datatype Mode = L | LA | P | RGB | RGBA | CMYK | YCbCr

  /** Number of 8-bit samples per pixel in `numpy.array(image)`. */
  function ChannelCount(m: Mode): (n: nat)
    ensures 1 <= n <= 4
    ensures n == 4 <==> m == RGBA || m == CMYK
  {
    match m
    case L => 1
    case P => 1
    case LA => 2
    case RGB => 3
    case YCbCr => 3
    case RGBA => 4
    case CMYK => 4
  }

  /**
   * The mode `Image.fromarray` gives an 8-bit array taken from an image of
   * mode `m`: the array only keeps the number of channels, so a palette image
   * comes back as grey levels and CMYK comes back as RGBA.
   */
  function ArrayMode(m: Mode): (r: Mode)
    ensures ChannelCount(r) == ChannelCount(m)
    ensures r in {L, LA, RGB, RGBA}
    ensures m in {L, LA, RGB, RGBA} ==> r == m
  {
    match ChannelCount(m)
    case 1 => L
    case 2 => LA
    case 3 => RGB
    case _ => RGBA
  }

  /**
   * A decoded raster: its mode, its size and the samples of `numpy.array(image)`
   * in row-major order, channels interleaved.
   */
  datatype Image = Image(mode: Mode, width: nat, height: nat, samples: seq<int>)

  /** The hue, saturation and value planes of `numpy.array(image.convert("HSV")).T`. */
  datatype HsvPlanes = HsvPlanes(h: seq<int>, s: seq<int>, v: seq<int>)

  /** The container format `Image.save` is asked for. */
  datatype Format = PNG | JPEG

  /** The library calls the augmentation code makes, left uninterpreted. */
  datatype Library = Library(
    gaussianBlur: (Image, real) -> Image,   // image.filter(ImageFilter.GaussianBlur(radius))
    contrast: (Image, real) -> Image,       // ImageEnhance.Contrast(image).enhance(factor)
    brightness: (Image, real) -> Image,     // ImageEnhance.Brightness(image).enhance(factor)
    gamma: (Image, real) -> Image,          // the numpy power-law body of apply_random_gamma
    color: (Image, real) -> Image,          // ImageEnhance.Color(image).enhance(factor)
    toHsv: Image -> HsvPlanes,              // image.convert("HSV") as transposed planes
    hsvToRgb: HsvPlanes -> seq<int>)        // Image.fromarray(planes, "HSV").convert("RGB") samples

  /** Every library call keeps the width and height of the image it is given. */
  ghost predicate KeepsSize(lib: Library)
  {
    (forall img: Image, x: real :: lib.gaussianBlur(img, x).width == img.width && lib.gaussianBlur(img, x).height == img.height) &&
    (forall img: Image, x: real :: lib.contrast(img, x).width == img.width && lib.contrast(img, x).height == img.height) &&
    (forall img: Image, x: real :: lib.brightness(img, x).width == img.width && lib.brightness(img, x).height == img.height) &&
    (forall img: Image, x: real :: lib.gamma(img, x).width == img.width && lib.gamma(img, x).height == img.height) &&
    (forall img: Image, x: real :: lib.color(img, x).width == img.width && lib.color(img, x).height == img.height)
  }
}
