/** The card grid of a category collage in gif_version.py
  * (`create_category_collages`): one or two columns of equally sized cards
  * below a header, on a canvas 3000 pixels wide. Sizes are exact integers;
  * the float ratios of the source are taken as exact rationals, so
  * `int(h * (iw / w))` is the floor of `h * iw / w`. */
module CardLayout {
  import opened Basics
  import opened GifCapture

  const MARGIN: int := 100
  const GUTTER: int := 40
  const HEADER: int := 300
  const CARD_PADDING: int := 40
  /** room under the picture for the two lines of device information */
  const INFO_HEIGHT: int := 120
  const CANVAS_WIDTH: int := 3000

  /** `min(2, len(category_shots))` */
  function Columns(n: nat): (r: nat)
    requires n >= 1
    ensures r == 1 || r == 2
    ensures r <= n && (n >= 2 ==> r == 2)
  {
    if n < 2 then n else 2
  }

  /** `int((3000 - 2 * margin - (cols - 1) * gutter) / cols)` */
  function CardWidth(cols: nat): int
    requires cols >= 1
  {
    (CANVAS_WIDTH - 2 * MARGIN - (cols - 1) * GUTTER) / cols
  }

  /** How tall a screenshot of this size is drawn at `width` pixels wide:
    * `int(height * (width / w))`. */
  function DisplayHeight(s: GifShot, width: int): (r: int)
    requires width >= 0
    ensures 0 <= r
  {
    (s.height * width) / s.width
  }

  /** The drawn height is the exact scaled height rounded down. */
  lemma DisplayHeightFloor(s: GifShot, width: int)
    requires width >= 0
    ensures var r := DisplayHeight(s, width);
      r * s.width <= s.height * width < (r + 1) * s.width
  {
  }

  /** The position of `max(s["height"] / s["width"] ...)`: the first shot
    * with the largest height-to-width ratio, ratios compared by
    * cross-multiplying. */
  function TallestIndex(shots: seq<GifShot>): (r: nat)
    requires |shots| >= 1
    ensures r < |shots|
    ensures forall j :: 0 <= j < |shots| ==>
      shots[j].height * shots[r].width <= shots[r].height * shots[j].width
    decreases |shots|
  {
    if |shots| == 1 then 0
    else
      var best := TallestIndex(shots[..|shots| - 1]);
      var last := shots[|shots| - 1];
      if last.height * shots[best].width > shots[best].height * last.width then
        var r := |shots| - 1;
        assert forall j :: 0 <= j < |shots| - 1 ==>
          shots[j].height * shots[r].width <= shots[r].height * shots[j].width by {
          forall j | 0 <= j < |shots| - 1
            ensures shots[j].height * shots[r].width <= shots[r].height * shots[j].width
          {
            assert shots[..|shots| - 1][j] == shots[j];
            RatioTransitive(shots[j], shots[best], shots[r]);
          }
        }
        r
      else
        assert forall j :: 0 <= j < |shots| - 1 ==> shots[..|shots| - 1][j] == shots[j];
        best
  }

  /** Cross-multiplied ratio comparison is transitive. */
  lemma RatioTransitive(a: GifShot, b: GifShot, c: GifShot)
    requires a.height * b.width <= b.height * a.width
    requires b.height * c.width <= c.height * b.width
    ensures a.height * c.width <= c.height * a.width
  {
    assert (a.height * b.width) * c.width <= (b.height * a.width) * c.width;
    assert (b.height * c.width) * a.width <= (c.height * b.width) * a.width;
    assert (a.height * c.width) * b.width <= (c.height * a.width) * b.width;
  }

  lemma MulLeft(a: int, b: int, c: int)
    requires a >= 0 && b <= c
    ensures a * b <= a * c
  {
    assert a * c - a * b == a * (c - b);
  }

  lemma MulLeftStrict(a: int, b: int, c: int)
    requires a > 0 && b < c
    ensures a * b < a * c
  {
    assert a * c - a * b == a * (c - b);
  }

  /** Floors of two quotients compare as the quotients do. */
  lemma DivMonotone(x: int, w1: int, y: int, w2: int)
    requires w1 > 0 && w2 > 0 && x >= 0
    requires x * w2 <= y * w1
    ensures x / w1 <= y / w2
  {
    var d, e := x / w1, y / w2;
    assert d * w1 <= x;
    MulLeft(w2, d * w1, x);
    assert w1 * (d * w2) <= w1 * y;
    if d * w2 > y {
      MulLeftStrict(w1, y, d * w2);
    }
    assert d * w2 <= y < (e + 1) * w2;
    if d > e {
      MulLeft(w2, e + 1, d);
    }
  }

  /** A narrower ratio never gives a taller picture after flooring. */
  lemma DisplayHeightMonotone(a: GifShot, b: GifShot, width: int)
    requires width >= 0
    requires a.height * b.width <= b.height * a.width
    ensures DisplayHeight(a, width) <= DisplayHeight(b, width)
  {
    var ha, wa, hb, wb := a.height as int, a.width as int, b.height as int, b.width as int;
    MulLeft(width, ha * wb, hb * wa);
    assert (ha * width) * wb == width * (ha * wb);
    assert (hb * width) * wa == width * (hb * wa);
    DivMonotone(ha * width, wa, hb * width, wb);
  }

  /** `int(image_width * max_ratio)`: the height of the picture slot every
    * card of the category shares. */
  function ImageHeight(shots: seq<GifShot>, width: int): int
    requires |shots| >= 1 && width >= 0
  {
    DisplayHeight(shots[TallestIndex(shots)], width)
  }

  /** The slot is as tall as the tallest picture: no drawn picture is
    * taller, and one of them fills it. */
  lemma ImageHeightIsMax(shots: seq<GifShot>, width: int)
    requires |shots| >= 1 && width >= 0
    ensures forall j :: 0 <= j < |shots| ==> DisplayHeight(shots[j], width) <= ImageHeight(shots, width)
    ensures exists j :: 0 <= j < |shots| && DisplayHeight(shots[j], width) == ImageHeight(shots, width)
  {
    var t := TallestIndex(shots);
    forall j | 0 <= j < |shots|
      ensures DisplayHeight(shots[j], width) <= ImageHeight(shots, width)
    {
      DisplayHeightMonotone(shots[j], shots[t], width);
    }
  }

  /** The sizes `create_category_collages` derives for one category. */
  datatype Grid = Grid(
    cols: nat, rows: nat, cardWidth: int, imageWidth: int, imageHeight: int,
    cardHeight: int, width: int, height: int)

  function GridFor(shots: seq<GifShot>): Grid
    requires |shots| >= 1
  {
    var n := |shots|;
    var cols := Columns(n);
    var cw := CardWidth(cols);
    var iw := cw - 2 * CARD_PADDING;
    var ih := ImageHeight(shots, iw);
    var ch := 2 * CARD_PADDING + ih + INFO_HEIGHT;
    var rows := (n + cols - 1) / cols;
    Grid(cols, rows, cw, iw, ih, ch,
         2 * MARGIN + cw * cols + GUTTER * (cols - 1),
         MARGIN + HEADER + ch * rows + GUTTER * (rows - 1) + MARGIN)
  }

  /** The top-left corner of card `i`: row-major, `cols` per row. */
  function CardX(g: Grid, i: nat): int
    requires g.cols >= 1
  {
    MARGIN + (g.cardWidth + GUTTER) * (i % g.cols)
  }

  function CardY(g: Grid, i: nat): int
    requires g.cols >= 1
  {
    MARGIN + HEADER + (g.cardHeight + GUTTER) * (i / g.cols)
  }

  /** What a grid for n cards looks like: one card spans the whole width,
    * two share it, the canvas is always 3000 pixels wide, the rows are just
    * enough for every card, and the height holds the header, the rows, the
    * gutters between them and the margins. */
  predicate WellShaped(g: Grid, n: nat) {
    && (g.cols == 1 || g.cols == 2)
    && g.cardWidth == (if g.cols == 1 then 2800 else 1380)
    && g.imageWidth == g.cardWidth - 2 * CARD_PADDING
    && g.width == CANVAS_WIDTH
    && g.rows >= 1 && (g.rows - 1) * g.cols < n <= g.rows * g.cols
    && g.imageHeight >= 0
    && g.cardHeight == 2 * CARD_PADDING + g.imageHeight + INFO_HEIGHT
    && g.height == MARGIN + HEADER + g.cardHeight * g.rows + GUTTER * (g.rows - 1) + MARGIN
  }

  /** The grid of a category has that shape, one column exactly when there
    * is one card, and its picture slot fits every picture of the category. */
  lemma GridShape(shots: seq<GifShot>)
    requires |shots| >= 1
    ensures var g := GridFor(shots);
      && WellShaped(g, |shots|)
      && g.cols == (if |shots| == 1 then 1 else 2)
      && forall j :: 0 <= j < |shots| ==> DisplayHeight(shots[j], g.imageWidth) <= g.imageHeight
  {
    var g := GridFor(shots);
    RowsCover(|shots|, g.cols);
    assert g.cardWidth == (if g.cols == 1 then 2800 else 1380);
    ImageHeightIsMax(shots, g.imageWidth);
  }

  /** `ceil(n / cols)` rows hold n cards and no row is left empty. */
  lemma RowsCover(n: nat, cols: nat)
    requires n >= 1 && (cols == 1 || cols == 2)
    ensures var rows := (n + cols - 1) / cols;
      rows >= 1 && (rows - 1) * cols < n <= rows * cols
  {
  }

  /** The row of card i is one of the grid's rows. */
  lemma RowInGrid(g: Grid, n: nat, i: nat)
    requires WellShaped(g, n) && i < n
    ensures 0 <= i / g.cols <= g.rows - 1
  {
    if g.cols == 2 {
      assert i < 2 * g.rows;
    }
  }

  lemma CardInsideGrid(g: Grid, n: nat, i: nat)
    requires WellShaped(g, n) && i < n
    ensures var x, y := CardX(g, i), CardY(g, i);
      && MARGIN <= x && x + g.cardWidth <= g.width - MARGIN
      && MARGIN + HEADER <= y && y + g.cardHeight <= g.height - MARGIN
  {
    var row := i / g.cols;
    RowInGrid(g, n, i);
    MulLeft(g.cardHeight + GUTTER, row, g.rows - 1);
    MulLeft(g.cardHeight + GUTTER, 0, row);
    assert (g.cardHeight + GUTTER) * (g.rows - 1) ==
           g.cardHeight * g.rows + GUTTER * (g.rows - 1) - g.cardHeight;
  }

  /** Card `i` (with its shadow, 10 pixels wider on every side) lies inside
    * the canvas, with the margin on the left, right and bottom and the
    * header above. */
  lemma CardInsideCanvas(shots: seq<GifShot>, i: nat)
    requires i < |shots|
    ensures var g := GridFor(shots);
      var x, y := CardX(g, i), CardY(g, i);
      && MARGIN <= x && x + g.cardWidth <= g.width - MARGIN
      && MARGIN + HEADER <= y && y + g.cardHeight <= g.height - MARGIN
      && 0 <= x - 10 && x + g.cardWidth + 10 <= g.width
      && 0 <= y - 10 && y + g.cardHeight + 10 <= g.height
  {
    GridShape(shots);
    CardInsideGrid(GridFor(shots), |shots|, i);
  }

  /** A card in a later row starts at least a gutter below the bottom of
    * a card in an earlier row. */
  lemma LaterRowBelow(g: Grid, i: nat, j: nat)
    requires g.cols >= 1 && g.cardHeight >= 0
    requires i / g.cols < j / g.cols
    ensures CardY(g, i) + g.cardHeight + GUTTER <= CardY(g, j)
  {
    var ri, rj := i / g.cols, j / g.cols;
    var step := g.cardHeight + GUTTER;
    MulLeft(step, ri + 1, rj);
    assert step * (ri + 1) == step * ri + step;
  }

  lemma CardsApartInGrid(g: Grid, n: nat, i: nat, j: nat)
    requires WellShaped(g, n) && i < n && j < n && i != j
    ensures
      || CardX(g, i) + g.cardWidth + GUTTER <= CardX(g, j)
      || CardX(g, j) + g.cardWidth + GUTTER <= CardX(g, i)
      || CardY(g, i) + g.cardHeight + GUTTER <= CardY(g, j)
      || CardY(g, j) + g.cardHeight + GUTTER <= CardY(g, i)
  {
    if i / g.cols < j / g.cols {
      LaterRowBelow(g, i, j);
    } else if j / g.cols < i / g.cols {
      LaterRowBelow(g, j, i);
    } else {
      assert g.cols == 2;
      assert i % 2 != j % 2;
      if i % 2 == 0 {
        assert CardX(g, i) + g.cardWidth + GUTTER <= CardX(g, j);
      } else {
        assert CardX(g, j) + g.cardWidth + GUTTER <= CardX(g, i);
      }
    }
  }

  /** Distinct cards are at least one gutter apart, horizontally or
    * vertically, so neither cards nor their shadows overlap. */
  lemma CardsApart(shots: seq<GifShot>, i: nat, j: nat)
    requires i < |shots| && j < |shots| && i != j
    ensures var g := GridFor(shots);
      || CardX(g, i) + g.cardWidth + GUTTER <= CardX(g, j)
      || CardX(g, j) + g.cardWidth + GUTTER <= CardX(g, i)
      || CardY(g, i) + g.cardHeight + GUTTER <= CardY(g, j)
      || CardY(g, j) + g.cardHeight + GUTTER <= CardY(g, i)
  {
    GridShape(shots);
    CardsApartInGrid(GridFor(shots), |shots|, i, j);
  }

  /** Inside card `i` the picture is inset by the padding, fills the card's
    * width minus the padding, and leaves the information area free below
    * it; both information lines start at least 100 pixels above the card's
    * bottom edge. */
  lemma PictureInsideCard(shots: seq<GifShot>, i: nat)
    requires i < |shots|
    ensures var g := GridFor(shots);
      var dh := DisplayHeight(shots[i], g.imageWidth);
      && CARD_PADDING + g.imageWidth + CARD_PADDING == g.cardWidth
      && CARD_PADDING + dh + INFO_HEIGHT <= g.cardHeight - CARD_PADDING
      && (CARD_PADDING + dh + 25) + 35 <= g.cardHeight - 100
  {
    GridShape(shots);
  }
}
