/**
 * The raster canvas of the program (a PIL image with an ImageDraw on it),
 * modelled by what is drawn on it rather than by its pixels: a canvas has a
 * fixed size, a base fill, and the list of draw calls made on it so far.
 */
module Drawing {

  /** An integer pixel coordinate, as passed to ImageDraw.line. */
  datatype Point = Point(x: int, y: int)

  /** One recorded draw call. */
  datatype Stroke =
    | Line(from: Point, to: Point)        // draw.line([from, to])
    | Text(x: real, y: real, ch: char)    // draw.text((x, y), ch)

  /** A caller-supplied background image once decoded; only its own size is known. */
  datatype Picture = Picture(width: nat, height: nat)

  /** What covers the canvas before anything is drawn: white, or a picture resized to the canvas. */
  datatype Fill = White | Scaled(picture: Picture)

  class Canvas {
    const width: nat
    const height: nat
    const fill: Fill
    var strokes: seq<Stroke>

    /** Image.new / Image.resize: a canvas of exactly the requested size, nothing drawn on it yet. */
    constructor (width: nat, height: nat, fill: Fill)
      ensures this.width == width && this.height == height && this.fill == fill
      ensures strokes == []
    {
      this.width := width;
      this.height := height;
      this.fill := fill;
      strokes := [];
    }

    /** Draws a one-pixel segment from `from` to `to`. */
    method DrawLine(from: Point, to: Point)
      modifies this
      ensures strokes == old(strokes) + [Line(from, to)]
    {
      strokes := strokes + [Line(from, to)];
    }

    /** Draws the glyph of `ch` with its top-left corner at (x, y). */
    method DrawText(x: real, y: real, ch: char)
      modifies this
      ensures strokes == old(strokes) + [Text(x, y, ch)]
    {
      strokes := strokes + [Text(x, y, ch)];
    }
  }
}
