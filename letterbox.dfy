/**
 * deprecated.py: `resize_with_pad` (scale, then letterbox or pillarbox to an
 * exact target size) and `image_resize` (scale to one given dimension). Only
 * the sizes, paddings and scale factors handed to cv2 are modelled.
 */
module Letterbox {
  import opened Wrappers
  import opened PyNum
  import opened Geometry

  /** Border widths in the order resize_with_pad returns them. */
  datatype Padding = Padding(top: int, bottom: int, left: int, right: int)

  /**
   * What resize_with_pad computes: the size passed to `cv2.resize`, the
   * border, the size of the bordered image and the inverse scale `1 / scale`.
   */
  datatype Padded = Padded(scaled: Size, padding: Padding, image: Size, inverseScale: Fraction)

  /**
   * The branch test as written: the image is wider than tall (`ratio > 1.0`)
   * and, scaled to the target width, its height `round(ih * tw / iw)` fits.
   */
  predicate PadsTopBottom(image: Size, tw: nat, th: nat): (b: bool)
    requires image.width > 0
    ensures b ==> image.width > image.height
    ensures b ==> 2 * (image.height * tw) <= (2 * th + 1) * image.width
  {
    var newHeight := RoundHalfEven(image.height * tw, image.width);
    assert newHeight <= th ==> 2 * (image.height * tw) <= (2 * th + 1) * image.width by {
      if newHeight <= th {
        RoundedAtMost(image.height * tw, image.width, th);
      }
    }
    image.width > image.height && RoundHalfEven(image.height * tw, image.width) <= th
  }

  /** A quotient whose rounding is at most `k` is at most `k + 1/2`. */
  lemma RoundedAtMost(n: int, d: int, k: int)
    requires d > 0 && RoundHalfEven(n, d) <= k
    ensures 2 * n <= (2 * k + 1) * d
  {
    var r := RoundHalfEven(n, d);
    var rd, kd := r * d, k * d;
    assert 2 * (n - rd) <= d;
    MulMono(r, k, d);
    assert (2 * k + 1) * d == 2 * kd + d;
  }

  /**
   * One branch of resize_with_pad. Top/bottom: fill the width, new height
   * `round(tw / iw * ih)`, split `th - new_height` as `round(total / 2)` on
   * top and the rest below. Left/right: the same with the axes exchanged.
   * The four `assert`s reject a negative border; `1. / scale` fails on a
   * zero scale.
   */
  function PadTo(image: Size, tw: nat, th: nat, topBottom: bool): (r: Result<Padded, PyError>)
    requires image.width > 0 && image.height > 0
    ensures r.Success? ==> r.value.image == Size(tw, th)
    ensures r.Success? ==> r.value.padding.top >= 0 && r.value.padding.bottom >= 0
                           && r.value.padding.left >= 0 && r.value.padding.right >= 0
    ensures r.Success? ==>
      r.value.image == Size(r.value.scaled.width + r.value.padding.left + r.value.padding.right,
                            r.value.scaled.height + r.value.padding.top + r.value.padding.bottom)
    ensures topBottom ==>
      var newHeight := RoundHalfEven(tw * image.height, image.width);
      && (r.Failure? <==> newHeight > th || tw == 0)
      && (r.Failure? ==> (r.error == AssertionFailed <==> newHeight > th))
      && (r.Success? ==>
            && r.value.scaled == Size(tw, newHeight)
            && r.value.padding.left == 0 && r.value.padding.right == 0
            && r.value.padding.top == RoundHalfEven(r.value.padding.top + r.value.padding.bottom, 2)
            && r.value.inverseScale == Fraction(image.width, tw))
    ensures !topBottom ==>
      var newWidth := RoundHalfEven(th * image.width, image.height);
      && (r.Failure? <==> newWidth > tw || th == 0)
      && (r.Failure? ==> (r.error == AssertionFailed <==> newWidth > tw))
      && (r.Success? ==>
            && r.value.scaled == Size(newWidth, th)
            && r.value.padding.top == 0 && r.value.padding.bottom == 0
            && r.value.padding.left == RoundHalfEven(r.value.padding.left + r.value.padding.right, 2)
            && r.value.inverseScale == Fraction(image.height, th))
  {
    if topBottom then
      var newHeight := RoundHalfEven(tw * image.height, image.width);
      var total := th - newHeight;
      var top := RoundHalfEven(total, 2);
      RoundHalfEvenNegative(total);
      Border(Size(tw, newHeight), Padding(top, total - top, 0, 0), Fraction(tw, image.width))
    else
      var newWidth := RoundHalfEven(th * image.width, image.height);
      var total := tw - newWidth;
      var left := RoundHalfEven(total, 2);
      RoundHalfEvenNegative(total);
      Border(Size(newWidth, th), Padding(0, 0, left, total - left), Fraction(th, image.height))
  }

  /** The assertions on the four borders, `copyMakeBorder`, and `1. / scale`. */
  function Border(scaled: Size, p: Padding, scale: Fraction): (r: Result<Padded, PyError>)
    requires scale.den > 0
    ensures r.Failure? <==> p.top < 0 || p.bottom < 0 || p.left < 0 || p.right < 0 || scale.num == 0
    ensures r.Failure? ==> (r.error == AssertionFailed <==> p.top < 0 || p.bottom < 0 || p.left < 0 || p.right < 0)
    ensures r.Success? ==>
      r.value == Padded(scaled, p, Size(scaled.width + p.left + p.right, scaled.height + p.top + p.bottom),
                        Fraction(scale.den, scale.num))
  {
    if p.top < 0 || p.bottom < 0 || p.left < 0 || p.right < 0 then Failure(AssertionFailed)
    else if scale.num == 0 then Failure(ZeroDivision)
    else Success(Padded(scaled, p, Size(scaled.width + p.left + p.right, scaled.height + p.top + p.bottom),
                        Fraction(scale.den, scale.num)))
  }

  /** A negative total padding always leaves one of its two halves negative. */
  lemma RoundHalfEvenNegative(total: int)
    ensures total < 0 <==> RoundHalfEven(total, 2) < 0 || total - RoundHalfEven(total, 2) < 0
  {
  }

  /**
   * resize_with_pad as written. A zero image dimension divides by zero in the
   * ratio (`iw / ih`, `ih * tw / iw`).
   */
  function ResizeWithPad(image: Size, tw: nat, th: nat): (r: Result<Padded, PyError>)
    ensures r.Success? ==> r.value.image == Size(tw, th)
    ensures image.width == 0 || image.height == 0 ==> r == Failure(ZeroDivision)
  {
    if image.height == 0 || image.width == 0 then Failure(ZeroDivision)
    else PadTo(image, tw, th, PadsTopBottom(image, tw, th))
  }

  /**
   * Which border resize_with_pad adds: top/bottom exactly when the branch test
   * holds, and then the padding assertions never fire, because the test bounds
   * the new height by the target height.
   */
  lemma ResizeWithPadBranch(image: Size, tw: nat, th: nat)
    requires image.width > 0 && image.height > 0
    ensures var r := ResizeWithPad(image, tw, th);
            PadsTopBottom(image, tw, th) ==>
              && (r.Failure? <==> tw == 0)
              && (r.Success? ==> r.value.padding.left == 0 && r.value.padding.right == 0
                                 && r.value.scaled.width == tw
                                 && r.value.scaled.height + r.value.padding.top + r.value.padding.bottom == th
                                 && r.value.inverseScale == Fraction(image.width, tw))
    ensures var r := ResizeWithPad(image, tw, th);
            !PadsTopBottom(image, tw, th) && r.Success? ==>
              && r.value.padding.top == 0 && r.value.padding.bottom == 0
              && r.value.scaled.height == th
              && r.value.scaled.width + r.value.padding.left + r.value.padding.right == tw
              && r.value.inverseScale == Fraction(image.height, th)
  {
  }

  /**
   * For positive sizes the assertions of resize_with_pad fail exactly when the
   * image is not wider than tall and, scaled to the target height, is wider
   * than the target.
   */
  lemma ResizeWithPadFails(image: Size, tw: nat, th: nat)
    requires image.width > 0 && image.height > 0 && tw > 0 && th > 0
    ensures var r := ResizeWithPad(image, tw, th);
            r.Failure? <==> image.width <= image.height && RoundHalfEven(th * image.width, image.height) > tw
    ensures ResizeWithPad(image, tw, th).Failure? ==> ResizeWithPad(image, tw, th).error == AssertionFailed
  {
    var iw, ih := image.width, image.height;
    if iw > ih && !PadsTopBottom(image, tw, th) {
      WiderThanTarget(image, tw, th);
    }
  }

  /**
   * When the height for the full target width exceeds the target height,
   * the width for the full target height fits the target width.
   */
  lemma WiderThanTarget(image: Size, tw: nat, th: nat)
    requires image.width > 0 && image.height > 0
    requires RoundHalfEven(image.height * tw, image.width) > th
    ensures RoundHalfEven(th * image.width, image.height) <= tw
  {
    var iw, ih := image.width, image.height;
    var rh := RoundHalfEven(ih * tw, iw);
    var wide, high, rounded := ih * tw, th * iw, rh * iw;
    // 2 * wide >= 2 * rounded - iw >= 2 * high + iw
    assert 2 * (rounded - wide) <= iw;
    MulMono(th + 1, rh, iw);
    assert (th + 1) * iw == high + iw;
    assert high < wide;
    assert tw * ih == wide;
    RoundHalfEvenAtMost(high, ih, tw);
  }

  /** A square image in a target narrower than tall fails the `left >= 0` assertion. */
  lemma SquareIntoNarrowTargetFails()
    ensures ResizeWithPad(Size(100, 100), 50, 100) == Failure(AssertionFailed)
  {
  }

  /**
   * resize_with_pad as evidently intended: pad top/bottom whenever the image
   * scaled to the target width fits the target height, whatever the image's
   * own ratio.
   */
  function ResizeWithPadFixed(image: Size, tw: nat, th: nat): (r: Result<Padded, PyError>)
    ensures image.width > 0 && image.height > 0 && tw > 0 && th > 0 ==> r.Success?
    ensures r.Success? ==> r.value.image == Size(tw, th)
    ensures image.width == 0 || image.height == 0 ==> r == Failure(ZeroDivision)
  {
    if image.height == 0 || image.width == 0 then Failure(ZeroDivision)
    else
      var topBottom := RoundHalfEven(image.height * tw, image.width) <= th;
      assert !topBottom ==> RoundHalfEven(th * image.width, image.height) <= tw by {
        if !topBottom {
          WiderThanTarget(image, tw, th);
        }
      }
      assert tw * image.height == image.height * tw;
      PadTo(image, tw, th, topBottom)
  }

  /** With the fix the square image gets 25 rows of border above and below. */
  lemma SquareIntoNarrowTargetFixed()
    ensures ResizeWithPadFixed(Size(100, 100), 50, 100)
            == Success(Padded(Size(50, 50), Padding(25, 25, 0, 0), Size(50, 100), Fraction(100, 50)))
  {
  }

  /** `round(total / 2)` on top or left: a one-pixel border goes below, three split 2 + 1. */
  lemma PaddingSplitExamples()
    ensures RoundHalfEven(1, 2) == 0 && 1 - RoundHalfEven(1, 2) == 1
    ensures RoundHalfEven(3, 2) == 2 && 3 - RoundHalfEven(3, 2) == 1
  {
  }

  /**
   * image_resize: no width and no height returns the image; only a height
   * scales the width to `int(w * height / h)`; a width scales the height to
   * `int(h * width / w)` and ignores any height.
   */
  function ImageResize(image: Size, width: Option<nat>, height: Option<nat>): (r: Result<Size, PyError>)
    ensures width.None? && height.None? ==> r == Success(image)
    ensures width.None? && height.Some? ==>
      && (r.Success? <==> image.height > 0)
      && (r.Success? ==>
            && r.value.height == height.value
            && r.value.width * image.height <= image.width * height.value < (r.value.width + 1) * image.height)
    ensures width.Some? ==>
      && (r.Success? <==> image.width > 0)
      && (r.Success? ==>
            && r.value.width == width.value
            && r.value.height * image.width <= image.height * width.value < (r.value.height + 1) * image.width)
    ensures r.Failure? ==> r.error == ZeroDivision
  {
    if width.None? && height.None? then Success(image)
    else if width.None? then
      if image.height == 0 then Failure(ZeroDivision)
      else Success(Size(Trunc(image.width * height.value, image.height), height.value))
    else
      if image.width == 0 then Failure(ZeroDivision)
      else Success(Size(width.value, Trunc(image.height * width.value, image.width)))
  }

  /** Asking image_resize for the image's own width or height gives back its size. */
  lemma ImageResizeOwnSize(image: Size, height: Option<nat>)
    requires image.width > 0 && image.height > 0
    ensures ImageResize(image, Some(image.width), height) == Success(image)
    ensures ImageResize(image, None, Some(image.height)) == Success(image)
  {
    DivExact(image.width, image.height);
    DivExact(image.height, image.width);
    assert image.width * image.height == image.height * image.width;
  }
}
