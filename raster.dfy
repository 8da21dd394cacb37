/** The drawing surface both collage builders paint on. Pixels are not
  * modelled: a canvas records, in order, what was pasted or written onto
  * it, and a saved board is that record with its file name and size. */
module Raster {
  import opened Basics

  /** The font a text is set in. Which font file backs each role (or the
    * library default when loading fails) only affects measurements, which
    * are an input of the model. */
  datatype FontRole =
    | TitleFont      // light, 96
    | SubtitleFont   // light, 32
    | DeviceFont     // bold, 24
    | SpecsFont      // regular, 16
    | CaptionFont    // arial, 20

  /** Width and height of a text's bounding box in a font. */
  datatype TextBox = TextBox(width: int, height: int)

  /** Font metrics, as `font.getbbox(text)` reports them. */
  type Measure = (FontRole, string) -> TextBox

  /** How `draw_text` aligns a text in its box. */
  datatype Align = Left | Center | Right

  datatype DrawOp =
    /** a blurred translucent black rectangle pasted at (x, y) */
    | Shadow(x: int, y: int, width: int, height: int)
    /** a filled white card */
    | Panel(x: int, y: int, width: int, height: int)
    /** a screenshot file resized to width x height, pasted at (x, y) */
    | Picture(source: Path, x: int, y: int, width: int, height: int)
    /** text drawn at height y, aligned in the box that starts at x and is
      * `width` wide (no box when 0): where it starts depends on how wide
      * the font sets it, see `TextX` */
    | Text(x: int, y: int, width: int, align: Align, text: string, font: FontRole, color: string)

  /** An image file written by a collage builder. */
  datatype Board = Board(file: Path, width: int, height: int, ops: seq<DrawOp>)

  /** What opening an image file gives: it cannot be opened at all, it
    * opens but its pixel data fails to load, or it is a valid image. */
  datatype ImageState = Unreadable | Corrupt | Readable

  /** The RGB canvas of `Image.new` with its draw handle: painting appends
    * to the record of operations and changes nothing else. */
  class Canvas {
    const width: int
    const height: int
    var ops: seq<DrawOp>

    constructor (width: int, height: int)
      ensures this.width == width && this.height == height
      ensures ops == []
    {
      this.width := width;
      this.height := height;
      ops := [];
    }

    method Paint(op: DrawOp)
      modifies this
      ensures ops == old(ops) + [op]
    {
      ops := ops + [op];
    }
  }


  /** Where a text of width `textWidth` starts when `draw_text` aligns it
    * in a box of `width` starting at `x`: centring and right alignment only
    * apply when a non-zero width is given. */
  function AlignedX(align: Align, x: int, width: int, textWidth: int): int {
    if align == Center && width != 0 then x + (width - textWidth) / 2
    else if align == Right && width != 0 then x + width - textWidth
    else x
  }

  /** Without a width, or aligned left, the text starts at x; aligned right
    * it ends where the box ends; centred, the space left of it and the
    * space right of it differ by at most one pixel, the extra pixel going
    * to the right. */
  lemma AlignedXPlacement(align: Align, x: int, width: int, textWidth: int)
    ensures var r := AlignedX(align, x, width, textWidth);
      && (align == Left || width == 0 ==> r == x)
      && (align == Right && width != 0 ==> r + textWidth == x + width)
      && (align == Center && width != 0 ==> 0 <= (x + width) - (r + textWidth) - (r - x) <= 1)
  {
  }

  /** Where a text op starts on the canvas, given the font metrics. */
  function TextX(op: DrawOp, measure: Measure): int
    requires op.Text?
  {
    AlignedX(op.align, op.x, op.width, measure(op.font, op.text).width)
  }

  /** A centred text stays inside its box exactly when the font sets it no
    * wider than the box; a wider one starts left of the box. */
  lemma CenteredTextInsideBox(op: DrawOp, measure: Measure)
    requires op.Text? && op.align == Center && op.width > 0
    ensures var tw := measure(op.font, op.text).width;
      && (op.x <= TextX(op, measure) && TextX(op, measure) + tw <= op.x + op.width <==> tw <= op.width)
      && (tw > op.width ==> TextX(op, measure) < op.x)
  {
  }
}
