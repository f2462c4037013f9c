/** The colour conversion that Robot 36 and PD120 share (src/core/robot_36.cpp,
    src/core/pd_120.cpp): luma and colour differences in exact thousand-millionths. */
module ColourDifference {
  import opened SequentialRgb

  const DENOMINATOR: int := 1_000_000_000

  datatype Weights = Weights(red: int, green: int, blue: int, offset: int)

  const LUMA := Weights(256_772_628, 504_096_642, 97_899_984, 16 * DENOMINATOR)
  const RED_DIFFERENCE := Weights(439_186_734, -367_765_524, -71_421_210, 128 * DENOMINATOR)
  const BLUE_DIFFERENCE := Weights(-148_213_170, -290_973_564, 439_186_734, 128 * DENOMINATOR)

  function Weighted(pixel: Rgb, w: Weights): int {
    w.offset + w.red * pixel.red + w.green * pixel.green + w.blue * pixel.blue
  }

  /** Rounded down and clamped to a byte. */
  function Convert(pixel: Rgb, w: Weights): Byte {
    var numerator := Weighted(pixel, w);
    if numerator <= 0 then 0
    else if numerator >= 255 * DENOMINATOR then 255
    else numerator / DENOMINATOR
  }

  function Average4(a: Byte, b: Byte, c: Byte, d: Byte): Byte {
    (a + b + c + d) / 4
  }

  function Average2(a: Byte, b: Byte): Byte {
    (a + b) / 2
  }

  predicate IsGrey(pixel: Rgb) {
    pixel.red == pixel.green == pixel.blue
  }

  /** The clamps never act: every code is in the nominal range. */
  lemma CodesInRange(pixel: Rgb)
    ensures 0 < Weighted(pixel, LUMA) < 255 * DENOMINATOR && 16 <= Convert(pixel, LUMA) <= 234
    ensures 0 < Weighted(pixel, RED_DIFFERENCE) < 255 * DENOMINATOR && 16 <= Convert(pixel, RED_DIFFERENCE) <= 239
    ensures 0 < Weighted(pixel, BLUE_DIFFERENCE) < 255 * DENOMINATOR && 16 <= Convert(pixel, BLUE_DIFFERENCE) <= 239
  {
  }

  /** The range is not a byte wider than necessary. */
  lemma RangeIsReached()
    ensures Convert(Rgb(0, 0, 0), LUMA) == 16 && Convert(Rgb(255, 255, 255), LUMA) == 234
    ensures Convert(Rgb(0, 255, 255), RED_DIFFERENCE) == 16 && Convert(Rgb(255, 0, 0), RED_DIFFERENCE) == 239
    ensures Convert(Rgb(255, 255, 0), BLUE_DIFFERENCE) == 16 && Convert(Rgb(0, 0, 255), BLUE_DIFFERENCE) == 239
  {
  }

  /** The difference weights cancel: a grey pixel has no colour difference. A pixel that is
      not grey may share the code. */
  lemma GreyIsNeutral(pixel: Rgb)
    requires IsGrey(pixel)
    ensures Convert(pixel, RED_DIFFERENCE) == 128 && Convert(pixel, BLUE_DIFFERENCE) == 128
  {
  }
}
