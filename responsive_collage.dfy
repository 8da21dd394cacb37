/** `create_collage` of responsive_website_screenshotter.py: the
  * screenshots are laid out three to a row in cells of 1200 x 800 pixels,
  * each scaled to fit 1000 x 700 and captioned with its name and size.
  * Sizes are exact integers: the float `scale` is taken as an exact
  * rational, so `int(w * scale)` is a floor. */
module ResponsiveCollage {
  import opened Basics
  import opened Raster
  import opened ResponsiveCapture

  const COLLAGE_WIDTH: int := 3600
  /** the height the source gives the canvas, whatever the number of shots */
  const COLLAGE_HEIGHT: int := 2400
  const CELL_WIDTH: int := 1200
  const CELL_HEIGHT: int := 800
  const MAX_WIDTH: int := 1000
  const MAX_HEIGHT: int := 700
  const CAPTION_GAP: int := 10
  const CAPTION_COLOR: string := "#333333"

  /** `x = col * 1200 + 100` for `col = i % 3` */
  function CellX(i: nat): int {
    (i % 3) * CELL_WIDTH + 100
  }

  /** `y = row * 800 + 50` for `row = i // 3` */
  function CellY(i: nat): int {
    (i / 3) * CELL_HEIGHT + 50
  }

  /** `scale = min(1000 / w, 700 / h)` and the sizes `int(w * scale)`,
    * `int(h * scale)`: the side whose bound binds gets exactly its bound. */
  function FitSize(w: Dim, h: Dim): (int, int) {
    if MAX_WIDTH * h <= MAX_HEIGHT * w then (MAX_WIDTH, (MAX_WIDTH * h) / w)
    else ((MAX_HEIGHT * w) / h, MAX_HEIGHT)
  }

  /** Integer division by a positive divisor rounds down. */
  lemma FloorDiv(a: int, d: int)
    requires d > 0
    ensures (a / d) * d <= a < (a / d + 1) * d
  {
  }

  lemma CancelRight(a: int, b: int, w: int)
    requires w > 0 && a * w <= b * w
    ensures a <= b
  {
  }

  /** The scaled picture fits 1000 x 700, touches at least one of the two
    * bounds, and the other side is the exactly scaled side rounded down. */
  lemma FitSizeBounds(w: Dim, h: Dim)
    ensures var nw, nh := FitSize(w, h).0, FitSize(w, h).1;
      && 0 <= nw <= MAX_WIDTH && 0 <= nh <= MAX_HEIGHT
      && (nw == MAX_WIDTH || nh == MAX_HEIGHT)
      && (MAX_WIDTH * h <= MAX_HEIGHT * w ==> nw == MAX_WIDTH && nh * w <= MAX_WIDTH * h < (nh + 1) * w)
      && (MAX_WIDTH * h > MAX_HEIGHT * w ==> nh == MAX_HEIGHT && nw * h <= MAX_HEIGHT * w < (nw + 1) * h)
  {
    if MAX_WIDTH * h <= MAX_HEIGHT * w {
      var nh := (MAX_WIDTH * h) / w;
      FloorDiv(MAX_WIDTH * h, w);
      CancelRight(nh, MAX_HEIGHT, w);
    } else {
      var nw := (MAX_HEIGHT * w) / h;
      FloorDiv(MAX_HEIGHT * w, h);
      CancelRight(nw, MAX_WIDTH, h);
    }
  }

  /** `f"{name} ({width}x{height})"` */
  function Label(s: Shot): string {
    s.name + " (" + Decimal(s.width) + "x" + Decimal(s.height) + ")"
  }

  /** The `try` block of one screenshot: nothing when the file cannot be
    * opened or loaded, or when a scaled side is 0 pixels (resizing to it
    * raises); otherwise the picture at the cell's corner and, 10 pixels
    * below it, the caption. */
  function ItemOps(i: nat, s: Shot, image: ImageState): seq<DrawOp> {
    var nw, nh := FitSize(s.width, s.height).0, FitSize(s.width, s.height).1;
    if !image.Readable? || nw == 0 || nh == 0 then []
    else
      [Picture(s.path, CellX(i), CellY(i), nw, nh),
       Text(CellX(i), CellY(i) + nh + CAPTION_GAP, 0, Left, Label(s), CaptionFont, CAPTION_COLOR)]
  }

  /** The items of the first n screenshots, in order. */
  function ItemsOps(shots: seq<Shot>, images: Path -> ImageState, n: nat): seq<DrawOp>
    requires n <= |shots|
  {
    if n == 0 then []
    else ItemsOps(shots, images, n - 1) + ItemOps(n - 1, shots[n - 1], images(shots[n - 1].path))
  }

  /** `os.path.join(output_dir, "website-responsive-collage.png")` */
  function CollagePath(dir: string): Path {
    Path(dir, "website-responsive-collage.png")
  }

  /** The collage on a canvas of the given height. */
  function CollageBoard(dir: string, shots: seq<Shot>, images: Path -> ImageState, height: int): Board {
    Board(CollagePath(dir), COLLAGE_WIDTH, height, ItemsOps(shots, images, |shots|))
  }

  /** The collage as the source draws it, on its fixed 2400-pixel canvas. */
  function AsWrittenBoard(dir: string, shots: seq<Shot>, images: Path -> ImageState): Board {
    CollageBoard(dir, shots, images, COLLAGE_HEIGHT)
  }

  /** `ceil(n / 3)` */
  function Rows(n: nat): nat {
    (n + 2) / 3
  }

  /** A canvas tall enough for every row: the source's 2400 pixels for up
    * to nine screenshots, one more 800-pixel row for every further three. */
  function CorrectedHeight(n: nat): (r: int)
    ensures r >= COLLAGE_HEIGHT
  {
    CELL_HEIGHT * (if Rows(n) < 3 then 3 else Rows(n))
  }

  /** What `create_collage` writes: nothing without screenshots or when
    * saving fails, otherwise the collage on a canvas that holds every row. */
  function Collage(dir: string, shots: seq<Shot>, images: Path -> ImageState, saves: Path -> bool): Option<Board> {
    if shots == [] then None
    else
      var b := CollageBoard(dir, shots, images, CorrectedHeight(|shots|));
      if saves(b.file) then Some(b) else None
  }

  // ---------------------------------------------------------------------
  // Where items go

  /** An item holds a picture exactly when its file loads and both scaled
    * sides are at least one pixel; the picture is the shot's file at the
    * cell's corner, scaled to fit, with its caption 10 pixels below. */
  lemma ItemPicture(i: nat, s: Shot, image: ImageState)
    ensures var ops := ItemOps(i, s, image);
      var nw, nh := FitSize(s.width, s.height).0, FitSize(s.width, s.height).1;
      && (ops != [] <==> image.Readable? && nw > 0 && nh > 0)
      && (ops != [] ==> |ops| == 2)
      && (ops != [] ==> ops[0] == Picture(s.path, CellX(i), CellY(i), nw, nh))
      && (ops != [] ==> ops[1].Text? && ops[1].y == CellY(i) + nh + CAPTION_GAP && ops[1].text == Label(s))
  {
    var nw, nh := FitSize(s.width, s.height).0, FitSize(s.width, s.height).1;
    if image.Readable? && nw != 0 && nh != 0 {
      var ops := [Picture(s.path, CellX(i), CellY(i), nw, nh),
                  Text(CellX(i), CellY(i) + nh + CAPTION_GAP, 0, Left, Label(s), CaptionFont, CAPTION_COLOR)];
      assert ItemOps(i, s, image) == ops;
    } else {
      assert ItemOps(i, s, image) == [];
    }
  }

  /** The row of item i is one of the first `Rows(n)` rows. */
  lemma RowInRange(n: nat, i: nat)
    requires i < n
    ensures i / 3 <= Rows(n) - 1
  {
  }

  /** On the corrected canvas every picture lies inside the canvas, and its
    * caption starts at least 40 pixels above the bottom edge. */
  lemma ItemInsideCanvas(n: nat, i: nat, s: Shot)
    requires i < n
    ensures var nw, nh := FitSize(s.width, s.height).0, FitSize(s.width, s.height).1;
      && 0 <= CellX(i) && CellX(i) + nw <= COLLAGE_WIDTH
      && 0 <= CellY(i) && CellY(i) + nh <= CorrectedHeight(n)
      && CellY(i) + nh + CAPTION_GAP <= CorrectedHeight(n) - 40
  {
    FitSizeBounds(s.width, s.height);
    RowInRange(n, i);
    var rows := if Rows(n) < 3 then 3 else Rows(n);
    assert (i / 3) * CELL_HEIGHT <= (rows - 1) * CELL_HEIGHT;
  }

  /** Two distinct items are at least 200 pixels apart side by side, or
    * at least 100 pixels apart one above the other, so neither pictures
    * nor a picture and the caption's start overlap. */
  lemma ItemsApart(i: nat, j: nat, si: Shot, sj: Shot)
    requires i != j
    ensures var wi, hi := FitSize(si.width, si.height).0, FitSize(si.width, si.height).1;
      var wj, hj := FitSize(sj.width, sj.height).0, FitSize(sj.width, sj.height).1;
      || CellX(i) + wi + 200 <= CellX(j)
      || CellX(j) + wj + 200 <= CellX(i)
      || CellY(i) + hi + CAPTION_GAP + 90 <= CellY(j)
      || CellY(j) + hj + CAPTION_GAP + 90 <= CellY(i)
  {
    FitSizeBounds(si.width, si.height);
    FitSizeBounds(sj.width, sj.height);
    if i / 3 < j / 3 {
      assert (i / 3 + 1) * CELL_HEIGHT <= (j / 3) * CELL_HEIGHT;
    } else if j / 3 < i / 3 {
      assert (j / 3 + 1) * CELL_HEIGHT <= (i / 3) * CELL_HEIGHT;
    } else {
      assert i % 3 != j % 3;
    }
  }

  /** Every op of the first n items comes from one of them. */
  lemma {:induction false} ItemsOpsSource(shots: seq<Shot>, images: Path -> ImageState, n: nat, op: DrawOp)
    requires n <= |shots|
    requires op in ItemsOps(shots, images, n)
    ensures exists i :: 0 <= i < n && op in ItemOps(i, shots[i], images(shots[i].path))
    decreases n
  {
    var prev := ItemsOps(shots, images, n - 1);
    if op in prev {
      ItemsOpsSource(shots, images, n - 1, op);
    } else {
      assert op in ItemOps(n - 1, shots[n - 1], images(shots[n - 1].path));
    }
  }

  /** Every op of item i is among the ops of the first n items, i < n. */
  lemma {:induction false} ItemsOpsHold(shots: seq<Shot>, images: Path -> ImageState, n: nat, i: nat)
    requires i < n <= |shots|
    ensures forall op :: op in ItemOps(i, shots[i], images(shots[i].path)) ==> op in ItemsOps(shots, images, n)
    decreases n
  {
    if i < n - 1 {
      ItemsOpsHold(shots, images, n - 1, i);
    }
  }

  /** On a written collage every picture is one of the screenshots and lies
    * inside the canvas, and every screenshot that loads and scales to at
    * least one pixel each way gets its picture. */
  lemma CollagePictures(dir: string, shots: seq<Shot>, images: Path -> ImageState, saves: Path -> bool)
    requires Collage(dir, shots, images, saves).Some?
    ensures var b := Collage(dir, shots, images, saves).value;
      && b.file == CollagePath(dir) && b.width == COLLAGE_WIDTH
      && (forall op :: op in b.ops && op.Picture? ==>
            && (exists i :: 0 <= i < |shots| && op.source == shots[i].path)
            && 0 <= op.x && op.x + op.width <= b.width
            && 0 <= op.y && op.y + op.height <= b.height)
      && (forall i :: 0 <= i < |shots| && images(shots[i].path).Readable? &&
                      FitSize(shots[i].width, shots[i].height).0 > 0 && FitSize(shots[i].width, shots[i].height).1 > 0 ==>
            Picture(shots[i].path, CellX(i), CellY(i), FitSize(shots[i].width, shots[i].height).0,
                    FitSize(shots[i].width, shots[i].height).1) in b.ops)
  {
    var b := Collage(dir, shots, images, saves).value;
    forall op | op in b.ops && op.Picture?
      ensures && (exists i :: 0 <= i < |shots| && op.source == shots[i].path)
              && 0 <= op.x && op.x + op.width <= b.width
              && 0 <= op.y && op.y + op.height <= b.height
    {
      ItemsOpsSource(shots, images, |shots|, op);
      var i :| 0 <= i < |shots| && op in ItemOps(i, shots[i], images(shots[i].path));
      ItemPicture(i, shots[i], images(shots[i].path));
      ItemInsideCanvas(|shots|, i, shots[i]);
    }
    forall i | 0 <= i < |shots| && images(shots[i].path).Readable? &&
               FitSize(shots[i].width, shots[i].height).0 > 0 && FitSize(shots[i].width, shots[i].height).1 > 0
      ensures Picture(shots[i].path, CellX(i), CellY(i), FitSize(shots[i].width, shots[i].height).0,
                      FitSize(shots[i].width, shots[i].height).1) in b.ops
    {
      ItemPicture(i, shots[i], images(shots[i].path));
      ItemsOpsHold(shots, images, |shots|, i);
    }
  }

  /** No screenshots, no collage; a failed save, no collage. */
  lemma CollageSkipped(dir: string, shots: seq<Shot>, images: Path -> ImageState, saves: Path -> bool)
    ensures shots == [] ==> Collage(dir, shots, images, saves) == None
    ensures !saves(CollagePath(dir)) ==> Collage(dir, shots, images, saves) == None
    ensures shots != [] && saves(CollagePath(dir)) ==> Collage(dir, shots, images, saves).Some?
  {
  }

  // ---------------------------------------------------------------------
  // The fixed canvas of the source

  /** With the source's fixed height, items from the tenth on start at
    * least 50 pixels below the bottom edge, so nothing of them is visible. */
  lemma AsWrittenLosesLaterItems(dir: string, shots: seq<Shot>, images: Path -> ImageState, i: nat)
    requires 9 <= i < |shots|
    ensures var b := AsWrittenBoard(dir, shots, images);
      forall op :: op in ItemOps(i, shots[i], images(shots[i].path)) ==>
        op in b.ops && (op.Picture? || op.Text?) && op.y >= b.height + 50
  {
    ItemsOpsHold(shots, images, |shots|, i);
    FitSizeBounds(shots[i].width, shots[i].height);
    assert CellY(i) >= 3 * CELL_HEIGHT + 50;
  }

  /** The tenth catalogue viewport shows what is lost: its screenshot is
    * scaled to 933 x 700 and placed at y = 2450 on a 2400-pixel canvas. */
  lemma TenthViewportBelowCanvas(dir: string)
    ensures var s := Record(VIEWPORTS[9], dir);
      && ItemOps(9, s, Readable)[0] == Picture(ShotPath(dir, "ipad-10.9"), 100, 2450, 933, 700)
      && CellY(9) > COLLAGE_HEIGHT
  {
    var s := Record(VIEWPORTS[9], dir);
    assert s.width == 2048 && s.height == 1536;
    assert FitSize(2048, 1536) == (933, 700);
  }

  /** The corrected canvas is the source's one whenever the source's one
    * holds every row. */
  lemma CorrectedHeightAgrees(n: nat)
    ensures n <= 9 <==> CorrectedHeight(n) == COLLAGE_HEIGHT
  {
  }

  // ---------------------------------------------------------------------
  // The drawing loop

  /** The `try` block of one screenshot: open, scale, paste, caption. */
  method DrawItem(canvas: Canvas, i: nat, s: Shot, image: ImageState)
    modifies canvas
    ensures canvas.ops == old(canvas.ops) + ItemOps(i, s, image)
  {
    if !image.Readable? {
      return;
    }
    var x, y := CellX(i), CellY(i);
    var newWidth, newHeight := FitSize(s.width, s.height).0, FitSize(s.width, s.height).1;
    if newWidth == 0 || newHeight == 0 {
      return;
    }
    canvas.Paint(Picture(s.path, x, y, newWidth, newHeight));
    canvas.Paint(Text(x, y + newHeight + CAPTION_GAP, 0, Left, Label(s), CaptionFont, CAPTION_COLOR));
  }

  /** One pass of the drawing loop. */
  method DrawNextItem(canvas: Canvas, shots: seq<Shot>, images: Path -> ImageState, i: nat, ghost base: seq<DrawOp>)
    requires i < |shots|
    requires canvas.ops == base + ItemsOps(shots, images, i)
    modifies canvas
    ensures canvas.ops == base + ItemsOps(shots, images, i + 1)
  {
    ghost var item := ItemOps(i, shots[i], images(shots[i].path));
    ghost var done := ItemsOps(shots, images, i);
    assert (base + done) + item == base + (done + item);
    DrawItem(canvas, i, shots[i], images(shots[i].path));
  }

  /** The drawing loop. */
  method DrawItems(canvas: Canvas, shots: seq<Shot>, images: Path -> ImageState)
    modifies canvas
    ensures canvas.ops == old(canvas.ops) + ItemsOps(shots, images, |shots|)
  {
    var i := 0;
    while i < |shots|
      invariant 0 <= i <= |shots|
      invariant canvas.ops == old(canvas.ops) + ItemsOps(shots, images, i)
    {
      DrawNextItem(canvas, shots, images, i, old(canvas.ops));
      i := i + 1;
    }
  }

  /** `create_collage`, on a canvas tall enough for every row. */
  method CreateCollage(dir: string, shots: seq<Shot>, images: Path -> ImageState, saves: Path -> bool)
    returns (r: Option<Board>)
    ensures r == Collage(dir, shots, images, saves)
  {
    if shots == [] {
      return None;
    }
    var canvas := new Canvas(COLLAGE_WIDTH, CorrectedHeight(|shots|));
    DrawItems(canvas, shots, images);
    var b := Board(CollagePath(dir), canvas.width, canvas.height, canvas.ops);
    assert b == CollageBoard(dir, shots, images, CorrectedHeight(|shots|));
    if !saves(b.file) {
      return None;
    }
    return Some(b);
  }
}
