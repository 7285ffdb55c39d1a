/**
 * `resize_fit` from gui.py: scale an image so that it fits the canvas while
 * keeping its aspect ratio. Only the sizes are modelled; the pixel resampling
 * is PIL's.
 */
module Geometry {
  import opened Wrappers
  import opened PyNum

  /** An image size in pixels (PIL's `image.size`). */
  datatype Size = Size(width: nat, height: nat)

  /**
   * `max(image_width / target_width, image_height / target_height)`, kept
   * exact. Python's `max` returns its first argument unless the second is
   * strictly larger.
   */
  function ScaleFactor(image: Size, targetWidth: nat, targetHeight: nat): (sf: Fraction)
    requires targetWidth > 0 && targetHeight > 0
    ensures sf.den > 0
    ensures sf.num * targetHeight >= image.height * sf.den
    ensures sf.num * targetWidth >= image.width * sf.den
    ensures sf == Fraction(image.width, targetWidth) || sf == Fraction(image.height, targetHeight)
  {
    if image.width * targetHeight >= image.height * targetWidth then Fraction(image.width, targetWidth)
    else Fraction(image.height, targetHeight)
  }

  /**
   * The new size `(int(w / sf), int(h / sf))`; a zero target or a 0x0 image
   * makes Python raise ZeroDivisionError.
   *
   * The result fits the target and fills it in the dimension whose ratio
   * `image / target` is larger (the width on a tie, as `max` keeps its first
   * argument); the other dimension is the exact proportional length rounded
   * down.
   */
  function ResizeFit(image: Size, targetWidth: nat, targetHeight: nat): (r: Result<Size, PyError>)
    ensures r.Failure? <==> targetWidth == 0 || targetHeight == 0 || (image.width == 0 && image.height == 0)
    ensures r.Failure? ==> r.error == ZeroDivision
    ensures r.Success? ==> r.value.width <= targetWidth && r.value.height <= targetHeight
    ensures r.Success? && image.width * targetHeight >= image.height * targetWidth ==>
      r.value.width == targetWidth &&
      r.value.height * image.width <= image.height * targetWidth < (r.value.height + 1) * image.width
    ensures r.Success? && image.width * targetHeight < image.height * targetWidth ==>
      r.value.height == targetHeight &&
      r.value.width * image.height <= image.width * targetHeight < (r.value.width + 1) * image.height
  {
    if targetWidth == 0 || targetHeight == 0 then Failure(ZeroDivision)
    else
      var sf := ScaleFactor(image, targetWidth, targetHeight);
      if sf.num == 0 then Failure(ZeroDivision)
      else
        var r := Success(Size(Trunc(image.width * sf.den, sf.num), Trunc(image.height * sf.den, sf.num)));
        FitBounds(image, targetWidth, targetHeight);
        r
  }

  /**
   * A 3841x2160 image into 1920x1080: the width ratio is the larger, so the
   * width fills the target and the height `int(2160 * 1920 / 3841)` is 1079.
   */
  lemma ResizeFitFloorExample()
    ensures ResizeFit(Size(3841, 2160), 1920, 1080) == Success(Size(1920, 1079))
  {
  }

  /** The proof obligations of ResizeFit, case by case on which ratio is larger. */
  lemma FitBounds(image: Size, tw: nat, th: nat)
    requires tw > 0 && th > 0
    requires ScaleFactor(image, tw, th).num > 0
    ensures var sf := ScaleFactor(image, tw, th);
            var w, h := image.width * sf.den / sf.num, image.height * sf.den / sf.num;
            w <= tw && h <= th &&
            (image.width * th >= image.height * tw ==>
               w == tw && h * image.width <= image.height * tw < (h + 1) * image.width) &&
            (image.width * th < image.height * tw ==>
               h == th && w * image.height <= image.width * th < (w + 1) * image.height)
  {
    var sf := ScaleFactor(image, tw, th);
    var iw, ih := image.width, image.height;
    if iw * th >= ih * tw {
      assert sf == Fraction(iw, tw);
      DivExact(tw, iw);
      DivAtMost(ih * tw, iw, th);
    } else {
      assert sf == Fraction(ih, th);
      DivExact(th, ih);
      DivAtMost(iw * th, ih, tw);
    }
  }

  lemma DivExact(a: nat, b: nat)
    requires b > 0
    ensures b * a / b == a
  {
    var q, m := b * a / b, b * a % b;
    assert (a - q) * b == m;
    MulCancel(a - q, b);
  }

  /** `n <= d * k` gives `n / d <= k`, and `n / d` is the floor of the quotient. */
  lemma DivAtMost(n: nat, d: nat, k: nat)
    requires d > 0 && n <= d * k
    ensures n / d <= k
    ensures (n / d) * d <= n < (n / d + 1) * d
  {
  }

  /**
   * An image smaller than the target in both dimensions is enlarged: the scale
   * factor is below one and resize_fit does not clamp it.
   */
  lemma ResizeFitEnlarges(image: Size, tw: nat, th: nat)
    requires 0 < image.width < tw && 0 < image.height < th
    ensures var r := ResizeFit(image, tw, th);
            r.Success? && r.value.width >= image.width && r.value.height >= image.height &&
            (r.value.width > image.width || r.value.height > image.height)
  {
    var r := ResizeFit(image, tw, th);
    var iw, ih := image.width, image.height;
    var w, h := r.value.width, r.value.height;
    if iw * th >= ih * tw {
      ProportionalGrows(iw, ih, tw, h);
    } else {
      ProportionalGrows(ih, iw, th, w);
    }
  }

  /** Scaling by `t / a > 1` and rounding down does not shrink a length `b`. */
  lemma ProportionalGrows(a: nat, b: nat, t: nat, x: nat)
    requires 0 < a < t && b * t < (x + 1) * a
    ensures x >= b
  {
  }
}
