/** `create_category_collages` of gif_version.py: for every category, in
  * table order, the captured devices it lists are laid out as cards on a
  * board of their own and saved as `collage_<key>.png`. */
module CategoryCollage {
  import opened Basics
  import opened Raster
  import opened GifCatalog
  import opened GifCapture
  import opened CardLayout

  const PRIMARY_TEXT: string := "#000000"
  const SECONDARY_TEXT: string := "#444444"
  /** `margin + 40`: the top of the title */
  const HEADER_Y: int := 140
  /** `canvas_width - 2 * margin`: the width the header is centred in */
  const HEADER_WIDTH: int := 2800

  // ---------------------------------------------------------------------
  // Selecting the shots of a category

  /** `[s for s in screenshots if s['name'] in category_info['devices']]` */
  function Select(shots: seq<GifShot>, devices: seq<string>): (r: seq<GifShot>)
    ensures |r| <= |shots|
    decreases |shots|
  {
    if shots == [] then []
    else
      var last := shots[|shots| - 1];
      Select(shots[..|shots| - 1], devices) + (if last.name in devices then [last] else [])
  }

  /** A category keeps exactly the shots of the devices it lists. */
  lemma {:induction false} SelectMembers(shots: seq<GifShot>, devices: seq<string>, s: GifShot)
    ensures s in Select(shots, devices) <==> s in shots && s.name in devices
    decreases |shots|
  {
    if shots != [] {
      var init := shots[..|shots| - 1];
      assert shots == init + [shots[|shots| - 1]];
      SelectMembers(init, devices, s);
    }
  }

  /** Selection keeps the input order: what comes earlier in the input
    * comes earlier in the selection. */
  lemma {:induction false} SelectAppend(a: seq<GifShot>, b: seq<GifShot>, devices: seq<string>)
    ensures Select(a + b, devices) == Select(a, devices) + Select(b, devices)
    decreases |b|
  {
    if b == [] {
      assert a + b == a;
    } else {
      var b' := b[..|b| - 1];
      assert (a + b)[..|a + b| - 1] == a + b';
      SelectAppend(a, b', devices);
    }
  }

  // ---------------------------------------------------------------------
  // What is drawn

  /** Python's `str` of a ratio that is a whole number of quarters. */
  function DprText(q: Dim): string {
    Decimal(q / 4) + (match q % 4 case 0 => ".0" case 1 => ".25" case 2 => ".5" case _ => ".75")
  }

  /** `f"{width}×{height} @ {dpr}x"` */
  function SpecsText(s: GifShot): string {
    Decimal(s.width) + "×" + Decimal(s.height) + " @ " + DprText(s.dprQuarters) + "x"
  }

  /** `draw_text` of a centred text in a box `width` wide at (x, y). */
  function CenteredText(x: int, y: int, width: int, text: string, font: FontRole, color: string): DrawOp {
    Text(x, y, width, Center, text, font, color)
  }

  /** The upper-cased title and, 30 pixels below its height, the subtitle,
    * both centred between the margins. */
  function HeaderOps(cat: Category, measure: Measure): (r: seq<DrawOp>)
    ensures |r| == 2 && r[0].Text? && r[1].Text?
    ensures r[0].text == Upper(cat.title) && r[1].text == cat.subtitle
    ensures r[1].y == r[0].y + measure(TitleFont, Upper(cat.title)).height + 30
  {
    var title := Upper(cat.title);
    [CenteredText(MARGIN, HEADER_Y, HEADER_WIDTH, title, TitleFont, PRIMARY_TEXT),
     CenteredText(MARGIN, HEADER_Y + measure(TitleFont, title).height + 30, HEADER_WIDTH,
                  cat.subtitle, SubtitleFont, SECONDARY_TEXT)]
  }

  /** The card of the i-th shot of a category. An image that cannot be
    * opened draws nothing; one whose pixels fail to load, or whose picture
    * would be 0 pixels tall (resizing to it raises), leaves the shadow and
    * the empty card; otherwise the picture, the friendly device name and
    * the specifications follow, centred over the picture. */
  function CardOps(g: Grid, i: nat, s: GifShot, image: ImageState, names: map<string, string>): seq<DrawOp>
    requires g.cols >= 1 && g.imageWidth >= 0
  {
    var x, y := CardX(g, i), CardY(g, i);
    var dh := DisplayHeight(s, g.imageWidth);
    var imgX, imgY := x + CARD_PADDING, y + CARD_PADDING;
    var infoY := imgY + dh + 25;
    if image.Unreadable? then []
    else if image.Corrupt? || dh == 0 then
      [Shadow(x - 10, y - 10, g.cardWidth + 20, g.cardHeight + 20), Panel(x, y, g.cardWidth, g.cardHeight)]
    else
      [Shadow(x - 10, y - 10, g.cardWidth + 20, g.cardHeight + 20), Panel(x, y, g.cardWidth, g.cardHeight),
       Picture(s.path, imgX, imgY, g.imageWidth, dh),
       CenteredText(imgX, infoY, g.imageWidth, FriendlyName(names, s.name), DeviceFont, PRIMARY_TEXT),
       CenteredText(imgX, infoY + 35, g.imageWidth, SpecsText(s), SpecsFont, SECONDARY_TEXT)]
  }

  /** The cards of the first n shots, in order. */
  function CardsOps(g: Grid, shots: seq<GifShot>, images: Path -> ImageState, names: map<string, string>, n: nat): seq<DrawOp>
    requires g.cols >= 1 && g.imageWidth >= 0 && n <= |shots|
  {
    if n == 0 then []
    else CardsOps(g, shots, images, names, n - 1) + CardOps(g, n - 1, shots[n - 1], images(shots[n - 1].path), names)
  }

  /** `os.path.join(output_dir, f"collage_{category_name}.png")` */
  function CollagePath(dir: string, key: string): Path {
    Path(dir, "collage_" + key + ".png")
  }

  /** The board of one category with at least one shot. */
  function CategoryBoard(dir: string, cat: Category, shots: seq<GifShot>, images: Path -> ImageState, measure: Measure, names: map<string, string>): Board
    requires |shots| >= 1
  {
    var g := GridFor(shots);
    GridShape(shots);
    Board(CollagePath(dir, cat.key), g.width, g.height,
          HeaderOps(cat, measure) + CardsOps(g, shots, images, names, |shots|))
  }

  /** The board a category would get: none when it selects no shot. */
  function Draft(dir: string, cat: Category, shots: seq<GifShot>, images: Path -> ImageState, measure: Measure, names: map<string, string>): Option<Board> {
    var sel := Select(shots, cat.devices);
    if sel == [] then None else Some(CategoryBoard(dir, cat, sel, images, measure, names))
  }

  function Drafts(dir: string, cats: seq<Category>, shots: seq<GifShot>, images: Path -> ImageState,
                  measure: Measure, names: map<string, string>): (r: seq<Option<Board>>)
    ensures |r| == |cats|
    ensures forall c :: 0 <= c < |cats| ==> r[c] == Draft(dir, cats[c], shots, images, measure, names)
  {
    seq(|cats|, c requires 0 <= c < |cats| => Draft(dir, cats[c], shots, images, measure, names))
  }

  /** The boards written, in order: a category without a board is skipped,
    * and a board that fails to save ends the whole run (the exception
    * leaves the loop). */
  function Written(drafts: seq<Option<Board>>, saves: Path -> bool): seq<Board>
    decreases |drafts|
  {
    if drafts == [] then []
    else
      match drafts[0]
      case None => Written(drafts[1..], saves)
      case Some(b) => if saves(b.file) then [b] + Written(drafts[1..], saves) else []
  }

  /** What `create_category_collages` writes for the categories `cats`. */
  function Collages(dir: string, cats: seq<Category>, shots: seq<GifShot>, images: Path -> ImageState,
                    measure: Measure, names: map<string, string>, saves: Path -> bool): seq<Board>
  {
    Written(Drafts(dir, cats, shots, images, measure, names), saves)
  }

  /** Every board written is one of the drafts. */
  lemma {:induction false} WrittenFromDrafts(drafts: seq<Option<Board>>, saves: Path -> bool)
    ensures forall k :: 0 <= k < |Written(drafts, saves)| ==>
      exists c :: 0 <= c < |drafts| && drafts[c] == Some(Written(drafts, saves)[k])
    decreases |drafts|
  {
    if drafts != [] {
      WrittenFromDrafts(drafts[1..], saves);
      var r := Written(drafts, saves);
      var rest := Written(drafts[1..], saves);
      forall k | 0 <= k < |r|
        ensures exists c :: 0 <= c < |drafts| && drafts[c] == Some(r[k])
      {
        if drafts[0].None? {
          assert r == rest;
          var c :| 0 <= c < |drafts[1..]| && drafts[1..][c] == Some(rest[k]);
          assert drafts[c + 1] == Some(r[k]);
        } else if k > 0 {
          assert r == [drafts[0].value] + rest;
          var c :| 0 <= c < |drafts[1..]| && drafts[1..][c] == Some(rest[k - 1]);
          assert drafts[c + 1] == Some(r[k]);
        } else {
          assert drafts[0] == Some(r[0]);
        }
      }
    } else {
      assert Written(drafts, saves) == [];
    }
  }

  /** When every save succeeds, every draft is written. */
  lemma {:induction false} WrittenAllSaved(drafts: seq<Option<Board>>, saves: Path -> bool)
    requires forall p :: saves(p)
    ensures forall c :: 0 <= c < |drafts| && drafts[c].Some? ==> drafts[c].value in Written(drafts, saves)
    decreases |drafts|
  {
    if drafts != [] {
      WrittenAllSaved(drafts[1..], saves);
      forall c | 0 <= c < |drafts| && drafts[c].Some?
        ensures drafts[c].value in Written(drafts, saves)
      {
        if c > 0 {
          assert drafts[1..][c - 1] == drafts[c];
        }
      }
    }
  }

  /** A draft that fails to save ends the run: nothing after it is written. */
  lemma {:induction false} WrittenStops(drafts: seq<Option<Board>>, saves: Path -> bool, c: nat)
    requires c < |drafts| && drafts[c].Some? && !saves(drafts[c].value.file)
    ensures Written(drafts, saves) == Written(drafts[..c], saves)
    decreases c
  {
    if c > 0 {
      WrittenStops(drafts[1..], saves, c - 1);
      assert drafts[1..][..c - 1] == drafts[..c][1..];
    }
  }

  /** Without drafts nothing is written. */
  lemma {:induction false} WrittenNone(drafts: seq<Option<Board>>, saves: Path -> bool)
    requires forall c :: 0 <= c < |drafts| ==> drafts[c].None?
    ensures Written(drafts, saves) == []
    decreases |drafts|
  {
    if drafts != [] {
      WrittenNone(drafts[1..], saves);
    }
  }

  // ---------------------------------------------------------------------
  // Properties of the boards

  /** A card holds a picture exactly when its image loads and the picture
    * is at least one pixel tall, and that picture is the shot's file, drawn
    * inside the card. */
  lemma CardPicture(g: Grid, i: nat, s: GifShot, image: ImageState, names: map<string, string>)
    requires g.cols >= 1 && g.imageWidth >= 0
    ensures var ops := CardOps(g, i, s, image, names);
      var dh := DisplayHeight(s, g.imageWidth);
      && (ops == [] <==> image.Unreadable?)
      && ((exists k :: 0 <= k < |ops| && ops[k].Picture?) <==> image.Readable? && dh > 0)
      && forall k :: 0 <= k < |ops| && ops[k].Picture? ==>
           ops[k] == Picture(s.path, CardX(g, i) + CARD_PADDING, CardY(g, i) + CARD_PADDING, g.imageWidth, dh)
  {
    var ops := CardOps(g, i, s, image, names);
    if image.Readable? && DisplayHeight(s, g.imageWidth) > 0 {
      assert ops[2].Picture?;
    }
  }

  /** On a card with a picture, the device name and the specs line are
    * centred under the picture: each stays between the card's paddings
    * exactly when the font sets it no wider than the picture, the name
    * sits below the picture, and with a name no taller than the 35 pixels
    * between the lines and a specs line no taller than 60 pixels neither
    * runs into the next line or the bottom padding. */
  lemma InfoLinesInsideCard(g: Grid, n: nat, i: nat, s: GifShot, image: ImageState,
                            names: map<string, string>, measure: Measure)
    requires WellShaped(g, n) && i < n
    requires image.Readable? && 0 < DisplayHeight(s, g.imageWidth) <= g.imageHeight
    ensures var ops := CardOps(g, i, s, image, names);
      var x, y := CardX(g, i), CardY(g, i);
      var name := measure(DeviceFont, FriendlyName(names, s.name));
      var specs := measure(SpecsFont, SpecsText(s));
      && |ops| == 5 && ops[3].Text? && ops[4].Text?
      && ((x + CARD_PADDING <= TextX(ops[3], measure) && TextX(ops[3], measure) + name.width <= x + g.cardWidth - CARD_PADDING)
          <==> name.width <= g.imageWidth)
      && ((x + CARD_PADDING <= TextX(ops[4], measure) && TextX(ops[4], measure) + specs.width <= x + g.cardWidth - CARD_PADDING)
          <==> specs.width <= g.imageWidth)
      && y + CARD_PADDING + DisplayHeight(s, g.imageWidth) < ops[3].y
      && (name.height <= 35 ==> ops[3].y + name.height <= ops[4].y)
      && (specs.height <= 60 ==> ops[4].y + specs.height <= y + g.cardHeight - CARD_PADDING)
  {
    var ops := CardOps(g, i, s, image, names);
    CenteredTextInsideBox(ops[3], measure);
    CenteredTextInsideBox(ops[4], measure);
  }

  /** Every op of the first n cards comes from one of the first n cards. */
  lemma {:induction false} CardsOpsSource(g: Grid, shots: seq<GifShot>, images: Path -> ImageState, names: map<string, string>, n: nat, k: nat)
    requires g.cols >= 1 && g.imageWidth >= 0 && n <= |shots|
    requires k < |CardsOps(g, shots, images, names, n)|
    ensures exists i, m :: 0 <= i < n && 0 <= m < |CardOps(g, i, shots[i], images(shots[i].path), names)| &&
                           CardsOps(g, shots, images, names, n)[k] == CardOps(g, i, shots[i], images(shots[i].path), names)[m]
    decreases n
  {
    var prev := CardsOps(g, shots, images, names, n - 1);
    var card := CardOps(g, n - 1, shots[n - 1], images(shots[n - 1].path), names);
    if k < |prev| {
      CardsOpsSource(g, shots, images, names, n - 1, k);
    } else {
      assert CardsOps(g, shots, images, names, n)[k] == card[k - |prev|];
    }
  }

  /** The card of shot i appears among the first n cards' ops, i < n. */
  lemma {:induction false} CardsOpsHold(g: Grid, shots: seq<GifShot>, images: Path -> ImageState, names: map<string, string>, n: nat, i: nat)
    requires g.cols >= 1 && g.imageWidth >= 0 && i < n <= |shots|
    ensures forall op :: op in CardOps(g, i, shots[i], images(shots[i].path), names) ==>
      op in CardsOps(g, shots, images, names, n)
    decreases n
  {
    if i < n - 1 {
      CardsOpsHold(g, shots, images, names, n - 1, i);
    }
  }

  /** On a category board, every picture is the screenshot of one of the
    * category's shots, placed inside the canvas; and every shot whose image
    * loads and is at least one pixel tall does get its picture. */
  lemma BoardPictures(dir: string, cat: Category, shots: seq<GifShot>, images: Path -> ImageState, measure: Measure, names: map<string, string>)
    requires |shots| >= 1
    ensures var b := CategoryBoard(dir, cat, shots, images, measure, names);
      && b.width == CANVAS_WIDTH
      && (forall k :: 0 <= k < |b.ops| && b.ops[k].Picture? ==>
            && (exists i :: 0 <= i < |shots| && b.ops[k].source == shots[i].path)
            && 0 <= b.ops[k].x && b.ops[k].x + b.ops[k].width <= b.width
            && 0 <= b.ops[k].y && b.ops[k].y + b.ops[k].height <= b.height)
      && (forall i :: 0 <= i < |shots| && images(shots[i].path).Readable? &&
                      DisplayHeight(shots[i], GridFor(shots).imageWidth) > 0 ==>
            exists k :: 0 <= k < |b.ops| && b.ops[k].Picture? && b.ops[k].source == shots[i].path)
  {
    var g := GridFor(shots);
    GridShape(shots);
    var b := CategoryBoard(dir, cat, shots, images, measure, names);
    var header := HeaderOps(cat, measure);
    var cards := CardsOps(g, shots, images, names, |shots|);
    assert b.ops == header + cards;
    forall k | 0 <= k < |b.ops| && b.ops[k].Picture?
      ensures && (exists i :: 0 <= i < |shots| && b.ops[k].source == shots[i].path)
              && 0 <= b.ops[k].x && b.ops[k].x + b.ops[k].width <= b.width
              && 0 <= b.ops[k].y && b.ops[k].y + b.ops[k].height <= b.height
    {
      assert k >= 2;
      assert b.ops[k] == cards[k - 2];
      CardsOpsSource(g, shots, images, names, |shots|, k - 2);
      var i, m :| 0 <= i < |shots| && 0 <= m < |CardOps(g, i, shots[i], images(shots[i].path), names)| &&
                  cards[k - 2] == CardOps(g, i, shots[i], images(shots[i].path), names)[m];
      CardPicture(g, i, shots[i], images(shots[i].path), names);
      CardInsideCanvas(shots, i);
      PictureInsideCard(shots, i);
    }
    forall i | 0 <= i < |shots| && images(shots[i].path).Readable? && DisplayHeight(shots[i], g.imageWidth) > 0
      ensures exists k :: 0 <= k < |b.ops| && b.ops[k].Picture? && b.ops[k].source == shots[i].path
    {
      var card := CardOps(g, i, shots[i], images(shots[i].path), names);
      CardsOpsHold(g, shots, images, names, |shots|, i);
      assert card[2] in cards;
      var k' :| 0 <= k' < |cards| && cards[k'] == card[2];
      assert b.ops[k' + 2] == cards[k'];
    }
  }

  /** Every board written is the board of one of the categories, for the
    * shots it selects; no category without shots gets one. */
  lemma CollagesFromCategories(dir: string, cats: seq<Category>, shots: seq<GifShot>,
                               images: Path -> ImageState, measure: Measure, names: map<string, string>, saves: Path -> bool)
    ensures var r := Collages(dir, cats, shots, images, measure, names, saves);
      forall k :: 0 <= k < |r| ==>
        exists c :: 0 <= c < |cats| && Select(shots, cats[c].devices) != [] &&
                    r[k] == CategoryBoard(dir, cats[c], Select(shots, cats[c].devices), images, measure, names)
  {
    var drafts := Drafts(dir, cats, shots, images, measure, names);
    var r := Collages(dir, cats, shots, images, measure, names, saves);
    WrittenFromDrafts(drafts, saves);
    forall k | 0 <= k < |r|
      ensures exists c :: 0 <= c < |cats| && Select(shots, cats[c].devices) != [] &&
                          r[k] == CategoryBoard(dir, cats[c], Select(shots, cats[c].devices), images, measure, names)
    {
      var c :| 0 <= c < |drafts| && drafts[c] == Some(r[k]);
      assert Draft(dir, cats[c], shots, images, measure, names) == Some(r[k]);
    }
  }

  /** When every save succeeds, each category with shots gets its board. */
  lemma CollagesAllSaved(dir: string, cats: seq<Category>, shots: seq<GifShot>,
                         images: Path -> ImageState, measure: Measure, names: map<string, string>, saves: Path -> bool)
    requires forall p :: saves(p)
    ensures forall c :: 0 <= c < |cats| && Select(shots, cats[c].devices) != [] ==>
      CategoryBoard(dir, cats[c], Select(shots, cats[c].devices), images, measure, names) in
      Collages(dir, cats, shots, images, measure, names, saves)
  {
    WrittenAllSaved(Drafts(dir, cats, shots, images, measure, names), saves);
  }

  /** A board that fails to save ends the run: no board of a later
    * category is written. */
  lemma SaveFailureStops(dir: string, cats: seq<Category>, shots: seq<GifShot>,
                         images: Path -> ImageState, measure: Measure, names: map<string, string>, saves: Path -> bool, c: nat)
    requires c < |cats| && Select(shots, cats[c].devices) != []
    requires !saves(CollagePath(dir, cats[c].key))
    ensures Collages(dir, cats, shots, images, measure, names, saves) == Collages(dir, cats[..c], shots, images, measure, names, saves)
  {
    var drafts := Drafts(dir, cats, shots, images, measure, names);
    WrittenStops(drafts, saves, c);
    assert drafts[..c] == Drafts(dir, cats[..c], shots, images, measure, names);
  }

  /** Without shots nothing is written. */
  lemma NoShotsNoBoards(dir: string, cats: seq<Category>, images: Path -> ImageState,
                        measure: Measure, names: map<string, string>, saves: Path -> bool)
    ensures Collages(dir, cats, [], images, measure, names, saves) == []
  {
    WrittenNone(Drafts(dir, cats, [], images, measure, names), saves);
  }

  // ---------------------------------------------------------------------
  // The drawing loops

  /** The `try` block of one card: it stops at the first call that raises. */
  method DrawCard(canvas: Canvas, g: Grid, i: nat, s: GifShot, image: ImageState, names: map<string, string>)
    requires g.cols >= 1 && g.imageWidth >= 0
    modifies canvas
    ensures canvas.ops == old(canvas.ops) + CardOps(g, i, s, image, names)
  {
    if image.Unreadable? {
      return;
    }
    var x, y := CardX(g, i), CardY(g, i);
    canvas.Paint(Shadow(x - 10, y - 10, g.cardWidth + 20, g.cardHeight + 20));
    canvas.Paint(Panel(x, y, g.cardWidth, g.cardHeight));
    var dh := DisplayHeight(s, g.imageWidth);
    if image.Corrupt? || dh == 0 {
      return;
    }
    var imgX, imgY := x + CARD_PADDING, y + CARD_PADDING;
    canvas.Paint(Picture(s.path, imgX, imgY, g.imageWidth, dh));
    var infoY := imgY + dh + 25;
    canvas.Paint(CenteredText(imgX, infoY, g.imageWidth, FriendlyName(names, s.name), DeviceFont, PRIMARY_TEXT));
    canvas.Paint(CenteredText(imgX, infoY + 35, g.imageWidth, SpecsText(s), SpecsFont, SECONDARY_TEXT));
  }

  /** One pass of the card loop. */
  method DrawNextCard(canvas: Canvas, g: Grid, shots: seq<GifShot>, images: Path -> ImageState, names: map<string, string>,
                      i: nat, ghost base: seq<DrawOp>)
    requires g.cols >= 1 && g.imageWidth >= 0 && i < |shots|
    requires canvas.ops == base + CardsOps(g, shots, images, names, i)
    modifies canvas
    ensures canvas.ops == base + CardsOps(g, shots, images, names, i + 1)
  {
    ghost var card := CardOps(g, i, shots[i], images(shots[i].path), names);
    ghost var done := CardsOps(g, shots, images, names, i);
    assert (base + done) + card == base + (done + card);
    DrawCard(canvas, g, i, shots[i], images(shots[i].path), names);
  }

  /** The card loop of one category. */
  method DrawCards(canvas: Canvas, g: Grid, shots: seq<GifShot>, images: Path -> ImageState, names: map<string, string>)
    requires g.cols >= 1 && g.imageWidth >= 0
    modifies canvas
    ensures canvas.ops == old(canvas.ops) + CardsOps(g, shots, images, names, |shots|)
  {
    var i := 0;
    while i < |shots|
      invariant 0 <= i <= |shots|
      invariant canvas.ops == old(canvas.ops) + CardsOps(g, shots, images, names, i)
    {
      DrawNextCard(canvas, g, shots, images, names, i, old(canvas.ops));
      i := i + 1;
    }
  }

  /** The board of one category: header, then the cards in order. */
  method DrawCategory(dir: string, cat: Category, shots: seq<GifShot>, images: Path -> ImageState, measure: Measure, names: map<string, string>)
    returns (b: Board)
    requires |shots| >= 1
    ensures b == CategoryBoard(dir, cat, shots, images, measure, names)
  {
    var g := GridFor(shots);
    GridShape(shots);
    var canvas := new Canvas(g.width, g.height);
    var title := Upper(cat.title);
    canvas.Paint(CenteredText(MARGIN, HEADER_Y, HEADER_WIDTH, title, TitleFont, PRIMARY_TEXT));
    var subtitleY := HEADER_Y + measure(TitleFont, title).height + 30;
    canvas.Paint(CenteredText(MARGIN, subtitleY, HEADER_WIDTH, cat.subtitle, SubtitleFont, SECONDARY_TEXT));
    assert canvas.ops == HeaderOps(cat, measure);
    DrawCards(canvas, g, shots, images, names);
    b := Board(CollagePath(dir, cat.key), canvas.width, canvas.height, canvas.ops);
  }

  /** One pass of the category loop: the category's shots, and its board
    * when it has any. */
  method DraftCategory(dir: string, cat: Category, shots: seq<GifShot>, images: Path -> ImageState,
                       measure: Measure, names: map<string, string>)
    returns (d: Option<Board>)
    ensures d == Draft(dir, cat, shots, images, measure, names)
  {
    var sel := Select(shots, cat.devices);
    if sel == [] {
      return None;
    }
    var b := DrawCategory(dir, cat, sel, images, measure, names);
    return Some(b);
  }

  /** The category loop. */
  method CreateCategoryCollages(dir: string, cats: seq<Category>, shots: seq<GifShot>, images: Path -> ImageState,
                                measure: Measure, names: map<string, string>, saves: Path -> bool)
    returns (boards: seq<Board>)
    ensures boards == Collages(dir, cats, shots, images, measure, names, saves)
  {
    ghost var drafts := Drafts(dir, cats, shots, images, measure, names);
    boards := [];
    var c := 0;
    while c < |cats|
      invariant 0 <= c <= |cats|
      invariant Written(drafts, saves) == boards + Written(drafts[c..], saves)
    {
      assert drafts[c..][1..] == drafts[c + 1..];
      var d := DraftCategory(dir, cats[c], shots, images, measure, names);
      assert drafts[c] == d;
      if d.Some? {
        var b := d.value;
        if !saves(b.file) {
          assert boards + [] == boards;
          return;
        }
        assert boards + ([b] + Written(drafts[c + 1..], saves)) ==
               (boards + [b]) + Written(drafts[c + 1..], saves);
        boards := boards + [b];
      }
      c := c + 1;
    }
    assert boards + [] == boards;
  }
}
