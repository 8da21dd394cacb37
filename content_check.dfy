/** The blank-screenshot classifier of gif_version.py
  * (`check_screenshot_content`): a decision over the colour histogram of a
  * 100x100 RGB thumbnail, as returned by `getcolors`. Decoding, conversion
  * and resizing are done by the imaging library and are not modelled; the
  * histogram is the input. */
module ContentCheck {

  datatype Rgb = Rgb(r: int, g: int, b: int)

  /** A histogram entry: how many pixels have this colour (at least one). */
  type PixelCount = n: int | n >= 1 witness 1
  datatype Entry = Entry(count: PixelCount, color: Rgb)
  type Histogram = seq<Entry>

  /** Every channel above 250. */
  predicate NearWhite(c: Rgb) { c.r > 250 && c.g > 250 && c.b > 250 }

  /** Every channel above 240. */
  predicate VeryLight(c: Rgb) { c.r > 240 && c.g > 240 && c.b > 240 }

  /** Some channel below 200 (text, borders). */
  predicate Dark(c: Rgb) { c.r < 200 || c.g < 200 || c.b < 200 }

  datatype Band = NearWhiteBand | VeryLightBand | DarkBand

  predicate InBand(band: Band, c: Rgb) {
    match band
    case NearWhiteBand => NearWhite(c)
    case VeryLightBand => VeryLight(c)
    case DarkBand => Dark(c)
  }

  /** `sum(count for count, _ in pixels)` */
  function Total(h: Histogram): nat
    decreases |h|
  {
    if h == [] then 0 else h[0].count + Total(h[1..])
  }

  /** `sum(count for count, color in pixels if <band>(color))` */
  function CountIn(h: Histogram, band: Band): nat
    decreases |h|
  {
    if h == [] then 0
    else (if InBand(band, h[0].color) then h[0].count else 0) + CountIn(h[1..], band)
  }

  /** The threshold tests of the classifier as written, on the pixel counts:
    * ratios compared by cross-multiplying (`x / total > 0.98` as
    * `x * 100 > 98 * total`), applied in source order. */
  function Classify(total: int, white: int, veryLight: int, dark: int): bool {
    if white * 100 > 98 * total then false
    else if veryLight * 100 > 95 * total && dark * 100 < total then false
    else if dark * 100 > 2 * total then true
    else true
  }

  /** `check_screenshot_content` once the thumbnail's histogram is known;
    * an empty histogram (no pixels) is not content. */
  function HasContent(h: Histogram): bool {
    if h == [] then false
    else Classify(Total(h), CountIn(h, NearWhiteBand), CountIn(h, VeryLightBand), CountIn(h, DarkBand))
  }

  /** The blank rule without the `dark_ratio > 0.02` branch: a page is blank
    * when more than 98% of it is near-white, or more than 95% is very light
    * and less than 1% is dark. */
  predicate LooksBlank(h: Histogram) {
    var total := Total(h);
    CountIn(h, NearWhiteBand) * 100 > 98 * total ||
    (CountIn(h, VeryLightBand) * 100 > 95 * total && CountIn(h, DarkBand) * 100 < total)
  }

  /** An empty histogram is never content; otherwise the verdict is exactly
    * "not blank", so the `dark_ratio > 0.02` branch never changes it. */
  lemma ClassifierRule(h: Histogram)
    ensures HasContent(h) <==> h != [] && !LooksBlank(h)
  {
  }

  lemma {:induction false} TotalPositive(h: Histogram)
    requires h != []
    ensures Total(h) >= 1
  {
  }

  /** Near-white pixels are very light and never dark, and very light pixels
    * are never dark. */
  lemma {:induction false} BandsNested(h: Histogram)
    ensures CountIn(h, NearWhiteBand) <= CountIn(h, VeryLightBand)
    ensures CountIn(h, VeryLightBand) + CountIn(h, DarkBand) <= Total(h)
    ensures CountIn(h, NearWhiteBand) + CountIn(h, DarkBand) <= Total(h)
    decreases |h|
  {
    if h != [] {
      BandsNested(h[1..]);
    }
  }

  /** A dark share above 2% always means content. */
  lemma DarkShareMeansContent(h: Histogram)
    requires h != []
    requires CountIn(h, DarkBand) * 100 > 2 * Total(h)
    ensures HasContent(h)
  {
    TotalPositive(h);
    BandsNested(h);
  }

  /** Scaling every count by the same factor leaves the verdict unchanged:
    * only the shares matter, not the thumbnail size. */
  function Scaled(h: Histogram, k: PixelCount): (r: Histogram)
    ensures |r| == |h|
    ensures forall i :: 0 <= i < |h| ==> r[i] == Entry(h[i].count * k, h[i].color)
  {
    if h == [] then [] else [Entry(h[0].count * k, h[0].color)] + Scaled(h[1..], k)
  }

  lemma Distribute(a: int, b: int, k: int)
    ensures a * k + b * k == (a + b) * k
  {
  }

  lemma {:induction false} ScaledTotal(h: Histogram, k: PixelCount)
    ensures Total(Scaled(h, k)) == Total(h) * k
    decreases |h|
  {
    if h != [] {
      var r := Scaled(h, k);
      assert r[1..] == Scaled(h[1..], k);
      ScaledTotal(h[1..], k);
      assert Total(r) == h[0].count * k + Total(h[1..]) * k;
      Distribute(h[0].count, Total(h[1..]), k);
    }
  }

  lemma {:induction false} ScaledCountIn(h: Histogram, k: PixelCount, band: Band)
    ensures CountIn(Scaled(h, k), band) == CountIn(h, band) * k
    decreases |h|
  {
    if h != [] {
      var r := Scaled(h, k);
      assert r[1..] == Scaled(h[1..], k);
      ScaledCountIn(h[1..], k, band);
      var head := if InBand(band, h[0].color) then h[0].count else 0;
      assert CountIn(r, band) == head * k + CountIn(h[1..], band) * k;
      Distribute(head, CountIn(h[1..], band), k);
    }
  }

  /** `x * k` compared with `y * k` for a positive k compares x with y. */
  lemma ScaleCompare(x: int, y: int, k: PixelCount)
    ensures x * k > y * k <==> x > y
  {
    assert x * k - y * k == (x - y) * k;
  }

  lemma ScaleInvariant(h: Histogram, k: PixelCount)
    ensures HasContent(Scaled(h, k)) == HasContent(h)
  {
    if h != [] {
      ScaledTotal(h, k);
      ScaledCountIn(h, k, NearWhiteBand);
      ScaledCountIn(h, k, VeryLightBand);
      ScaledCountIn(h, k, DarkBand);
      var t, w, v, d := Total(h), CountIn(h, NearWhiteBand), CountIn(h, VeryLightBand), CountIn(h, DarkBand);
      ClassifyScaled(t, w, v, d, k);
    }
  }

  lemma ClassifyScaled(t: int, w: int, v: int, d: int, k: PixelCount)
    ensures Classify(t * k, w * k, v * k, d * k) == Classify(t, w, v, d)
  {
    ScaleCompare(w * 100, 98 * t, k);
    ScaleCompare(v * 100, 95 * t, k);
    ScaleCompare(t, d * 100, k);
    assert (w * k) * 100 == (w * 100) * k && 98 * (t * k) == (98 * t) * k;
    assert (v * k) * 100 == (v * 100) * k && 95 * (t * k) == (95 * t) * k;
    assert (d * k) * 100 == (d * 100) * k;
  }

  /** 99 white pixels and one black one: blank. */
  lemma MostlyWhiteIsBlank()
    ensures !HasContent([Entry(99, Rgb(255, 255, 255)), Entry(1, Rgb(0, 0, 0))])
  {
    var h := [Entry(99, Rgb(255, 255, 255)), Entry(1, Rgb(0, 0, 0))];
    assert h[1..] == [Entry(1, Rgb(0, 0, 0))];
    assert Total(h) == 100;
    assert CountIn(h, NearWhiteBand) == 99;
  }

  /** 99% of pixels at exactly 250 on every channel and 1% black: the
    * channels are not above 250, the dark share is exactly 1%, and the page
    * counts as content. */
  lemma ThresholdEdgeIsContent()
    ensures HasContent([Entry(99, Rgb(250, 250, 250)), Entry(1, Rgb(0, 0, 0))])
  {
    var h := [Entry(99, Rgb(250, 250, 250)), Entry(1, Rgb(0, 0, 0))];
    assert h[1..] == [Entry(1, Rgb(0, 0, 0))];
    assert Total(h) == 100;
    assert CountIn(h, NearWhiteBand) == 0;
    assert CountIn(h, VeryLightBand) == 99;
    assert CountIn(h, DarkBand) == 1;
  }
}
