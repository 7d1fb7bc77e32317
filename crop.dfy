/** The crop box of `crop_image` (stack_and_format_images.py:35-59): a square of side
    `new_squared_size` centred on the image, shifted horizontally and vertically by a jitter drawn
    from [-rdist, rdist] when random cropping is on. Coordinates are Python true divisions, so
    they are exact halves of integers and are modelled as reals. */
module Crop {
  import opened Wrappers

  /** The tuple `(left, top, right, bottom)` handed to `img.crop`. */
  datatype Box = Box(left: real, top: real, right: real, bottom: real)

  /** `random.randint(-rdist, rdist)` with a negative `rdist`: ValueError, empty range. */
  datatype CropError = EmptyShiftRange(rdist: int)

  /** The shift actually applied: the drawn value when random cropping is on, 0 otherwise. */
  function Shift(randomCrop: bool, draw: int): int
  {
    if randomCrop then draw else 0
  }

  function CentreX(b: Box): real
  {
    (b.left + b.right) / 2.0
  }

  function CentreY(b: Box): real
  {
    (b.top + b.bottom) / 2.0
  }

  /** The square of side `size` centred on (cx, cy). */
  function SquareAt(cx: real, cy: real, size: real): Box
  {
    Box(cx - size / 2.0, cy - size / 2.0, cx + size / 2.0, cy + size / 2.0)
  }

  /** The box `crop_image` crops from an image of `width` x `height` pixels; the two draws of
      `random.randint(-rdist, rdist)` are passed in as `hDraw` and `vDraw`. The box is
      `new_squared_size` wide and high, its centre is the image centre moved by exactly the
      applied shifts (so it is the centred box translated by them), each shift lies in
      [-rdist, rdist], and without random cropping the box is centred. */
  function CropBox(width: nat, height: nat, newSize: int, randomCrop: bool, rdist: int, hDraw: int, vDraw: int)
    : (r: Result<Box, CropError>)
    requires randomCrop && rdist >= 0 ==> -rdist <= hDraw <= rdist && -rdist <= vDraw <= rdist
    ensures r.Err? <==> randomCrop && rdist < 0
    ensures r.Ok? ==> r.value.right - r.value.left == newSize as real && r.value.bottom - r.value.top == newSize as real
    ensures r.Ok? ==>
              CentreX(r.value) == width as real / 2.0 + Shift(randomCrop, hDraw) as real &&
              CentreY(r.value) == height as real / 2.0 + Shift(randomCrop, vDraw) as real
    ensures r.Ok? ==> r.value == SquareAt(CentreX(r.value), CentreY(r.value), newSize as real)
    ensures r.Ok? && randomCrop ==>
              -(rdist as real) <= CentreX(r.value) - width as real / 2.0 <= rdist as real &&
              -(rdist as real) <= CentreY(r.value) - height as real / 2.0 <= rdist as real
    ensures !randomCrop ==>
              r.Ok? && r.value.left + r.value.right == width as real && r.value.top + r.value.bottom == height as real
  {
    if randomCrop && rdist < 0 then Err(EmptyShiftRange(rdist))
    else
      var hshift := Shift(randomCrop, hDraw);
      var vshift := Shift(randomCrop, vDraw);
      Ok(Box((width - newSize) as real / 2.0 + hshift as real,
             (height - newSize) as real / 2.0 + vshift as real,
             (width + newSize) as real / 2.0 + hshift as real,
             (height + newSize) as real / 2.0 + vshift as real))
  }

  /** The absolute value of a shift. */
  function Abs(x: int): nat
  {
    if x < 0 then -x else x
  }

  /** The box lies inside the image (so the crop needs no padding) exactly when the side plus
      twice each shift fits in the image's extent along that axis. */
  lemma CropBoxInside(width: nat, height: nat, newSize: nat, randomCrop: bool, rdist: int, hDraw: int, vDraw: int)
    requires randomCrop && rdist >= 0 ==> -rdist <= hDraw <= rdist && -rdist <= vDraw <= rdist
    requires CropBox(width, height, newSize, randomCrop, rdist, hDraw, vDraw).Ok?
    ensures var b := CropBox(width, height, newSize, randomCrop, rdist, hDraw, vDraw).value;
            (0.0 <= b.left && b.right <= width as real <==> newSize + 2 * Abs(Shift(randomCrop, hDraw)) <= width) &&
            (0.0 <= b.top && b.bottom <= height as real <==> newSize + 2 * Abs(Shift(randomCrop, vDraw)) <= height)
  {
  }
}
