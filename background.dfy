/** The per-pixel transparency rule of `remove_background`. Image decoding,
    the RGBA conversion and PNG/base64 encoding around it are not modelled:
    the operation here takes the decoded pixel data and returns the new data
    that the source hands to `putdata`. */
module BackgroundRemoval {

  /** One colour channel of an 8-bit image. */
  type Channel = x: int | 0 <= x < 256

  /** A pixel as PIL's `getdata` yields it, with or without an alpha channel. */
  datatype Pixel =
    | Rgb(r: Channel, g: Channel, b: Channel)
    | Rgba(r: Channel, g: Channel, b: Channel, a: Channel)

  /** The default of the `threshold_value` parameter. */
  const DefaultThreshold: int := 240

  /** Largest pairwise channel difference (exclusive) of a "light gray" pixel. */
  const GrayTolerance: int := 20

  /** How far below the threshold a light gray pixel may be and still be cleared. */
  const GrayMargin: int := 40

  /** The transparent white that replaces every cleared pixel. */
  const Transparent: Pixel := Rgba(255, 255, 255, 0)

  function Abs(x: int): nat {
    if x < 0 then -x else x
  }

  function ChannelSum(p: Pixel): int {
    p.r + p.g + p.b
  }

  /** `whiteness = (r + g + b) / 3`, the mean of the three colour channels. */
  function Whiteness(p: Pixel): real {
    ChannelSum(p) as real / 3.0
  }

  /** Every pairwise difference of the colour channels is below the tolerance. */
  predicate NearGray(p: Pixel) {
    && Abs(p.r - p.g) < GrayTolerance
    && Abs(p.r - p.b) < GrayTolerance
    && Abs(p.g - p.b) < GrayTolerance
  }

  /** The pixel as kept: a 4-channel pixel unchanged, a 3-channel one with
      full opacity added. */
  function Opaque(p: Pixel): Pixel {
    match p
    case Rgba(_, _, _, _) => p
    case Rgb(r, g, b) => Rgba(r, g, b, 255)
  }

  /** The output pixel for one input pixel, in the order the branches of the
      loop test it. */
  function Recolor(p: Pixel, threshold: int): (q: Pixel)
    ensures q.Rgba?
  {
    if Whiteness(p) > threshold as real then Transparent
    else if NearGray(p) && Whiteness(p) > (threshold - GrayMargin) as real then Transparent
    else Opaque(p)
  }

  /** The new pixel data: one output pixel per input pixel, in order. */
  function Recolored(pixels: seq<Pixel>, threshold: int): (out: seq<Pixel>)
    ensures |out| == |pixels|
    ensures forall i :: 0 <= i < |pixels| ==> out[i] == Recolor(pixels[i], threshold)
  {
    if pixels == [] then []
    else [Recolor(pixels[0], threshold)] + Recolored(pixels[1..], threshold)
  }

  /** The mean of the channels exceeds an integer bound exactly when their
      sum exceeds three times it, so the rule needs no fractions. */
  lemma WhitenessAbove(p: Pixel, t: int)
    ensures Whiteness(p) > t as real <==> ChannelSum(p) > 3 * t
  {
  }

  /** A pixel whose channel sum exceeds three times the threshold becomes
      transparent white. */
  lemma WhiteBecomesTransparent(p: Pixel, threshold: int)
    requires ChannelSum(p) > 3 * threshold
    ensures Recolor(p, threshold) == Transparent
  {
    WhitenessAbove(p, threshold);
  }

  /** A near-gray pixel becomes transparent white once its channel sum exceeds
      three times `threshold - 40`, even when it is below the threshold. */
  lemma LightGrayBecomesTransparent(p: Pixel, threshold: int)
    requires NearGray(p) && ChannelSum(p) > 3 * (threshold - GrayMargin)
    ensures Recolor(p, threshold) == Transparent
  {
    WhitenessAbove(p, threshold - GrayMargin);
  }

  /** Every other pixel keeps its colour: a 4-channel pixel is copied and a
      3-channel pixel gains alpha 255. */
  lemma OtherPixelsKeepColour(p: Pixel, threshold: int)
    requires ChannelSum(p) <= 3 * threshold
    requires !NearGray(p) || ChannelSum(p) <= 3 * (threshold - GrayMargin)
    ensures var q := Recolor(p, threshold);
      && q.r == p.r && q.g == p.g && q.b == p.b
      && (p.Rgba? ==> q == p)
      && (p.Rgb? ==> q.a == 255)
  {
    WhitenessAbove(p, threshold);
    WhitenessAbove(p, threshold - GrayMargin);
  }

  /** Whether the rule clears a pixel, stated on integer channel sums. */
  predicate Cleared(p: Pixel, threshold: int) {
    || ChannelSum(p) > 3 * threshold
    || (NearGray(p) && ChannelSum(p) > 3 * (threshold - GrayMargin))
  }

  /** The three cases together: a cleared pixel becomes transparent white and
      any other pixel is kept with full opacity added where it had none. */
  lemma RecolorCases(p: Pixel, threshold: int)
    ensures Recolor(p, threshold) == if Cleared(p, threshold) then Transparent else Opaque(p)
  {
    WhitenessAbove(p, threshold);
    WhitenessAbove(p, threshold - GrayMargin);
  }

  /** Running the rule on its own output changes nothing more. */
  lemma RecolorIdempotent(p: Pixel, threshold: int)
    ensures Recolor(Recolor(p, threshold), threshold) == Recolor(p, threshold)
  {
    RecolorCases(p, threshold);
    RecolorCases(Recolor(p, threshold), threshold);
  }

  /** Removing the background twice gives the same pixels as removing it once. */
  lemma RecoloredIdempotent(pixels: seq<Pixel>, threshold: int)
    ensures Recolored(Recolored(pixels, threshold), threshold) == Recolored(pixels, threshold)
  {
    var once := Recolored(pixels, threshold);
    forall i | 0 <= i < |pixels|
      ensures Recolored(once, threshold)[i] == once[i]
    {
      RecolorIdempotent(pixels[i], threshold);
    }
  }

  /** A lower threshold clears every pixel a higher one clears. */
  lemma LowerThresholdClearsMore(p: Pixel, low: int, high: int)
    requires low <= high && Cleared(p, high)
    ensures Cleared(p, low) && Recolor(p, low) == Transparent
  {
    RecolorCases(p, low);
  }

  /** The pixel loop of `remove_background`: walks the pixel data in order and
      appends one output pixel per input pixel. */
  method RemoveBackground(pixels: seq<Pixel>, threshold: int := DefaultThreshold)
    returns (newData: seq<Pixel>)
    ensures newData == Recolored(pixels, threshold)
    ensures forall i :: 0 <= i < |newData| ==> newData[i].Rgba?
  {
    newData := [];
    var i := 0;
    while i < |pixels|
      invariant 0 <= i <= |pixels|
      invariant |newData| == i
      invariant forall k :: 0 <= k < i ==> newData[k] == Recolor(pixels[k], threshold)
    {
      var item := pixels[i];
      var whiteness := (item.r + item.g + item.b) as real / 3.0;
      if whiteness > threshold as real {
        newData := newData + [Transparent];
      } else if Abs(item.r - item.g) < GrayTolerance && Abs(item.r - item.b) < GrayTolerance
             && Abs(item.g - item.b) < GrayTolerance && whiteness > (threshold - GrayMargin) as real {
        newData := newData + [Transparent];
      } else if item.Rgba? {
        newData := newData + [item];
      } else {
        newData := newData + [Rgba(item.r, item.g, item.b, 255)];
      }
      i := i + 1;
    }
  }
}
