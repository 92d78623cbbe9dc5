/**
 * The layout renderer: measures every line, sizes the canvas to fit, asks
 * the background synthesizer for a canvas of that size, and draws every
 * character at its layout position plus a jitter offset.
 *
 * The random offsets are injected: `jitter(k)` is the pair of values the two
 * calls random.uniform(-randomness, randomness) return for the k-th character
 * drawn, the x offset first and the y offset second.
 */
module Renderer {
  import opened Wrappers
  import opened Drawing
  import opened Fonts
  import opened Backgrounds
  import opened TextLines

  /** The blank border around the text on every side of the canvas. */
  const Padding: nat := 50

  // ---------------------------------------------------------------------------
  // Canvas sizing
  // ---------------------------------------------------------------------------

  /** The sum of the character widths of a line. */
  function LineWidth(font: Font, line: string): nat
    decreases |line|
  {
    if line == [] then 0 else LineWidth(font, line[..|line| - 1]) + CharWidth(font, line[|line| - 1])
  }

  /** The pixel width of the widest line: max(sum(widths) for line in lines). */
  function MaxLineWidth(font: Font, lines: seq<string>): (w: nat)
    requires |lines| > 0
    ensures forall i :: 0 <= i < |lines| ==> LineWidth(font, lines[i]) <= w
    ensures exists i :: 0 <= i < |lines| && LineWidth(font, lines[i]) == w
    decreases |lines|
  {
    var last := LineWidth(font, lines[|lines| - 1]);
    if |lines| == 1 then last
    else
      var m := MaxLineWidth(font, lines[..|lines| - 1]);
      if last > m then last else m
  }

  /** The index of max(lines, key=len): the first of the lines with the most characters. */
  function LongestLineIndex(lines: seq<string>): (k: nat)
    requires |lines| > 0
    ensures k < |lines|
    ensures forall i :: 0 <= i < |lines| ==> |lines[i]| <= |lines[k]|
    ensures forall i :: 0 <= i < k ==> |lines[i]| < |lines[k]|
    decreases |lines|
  {
    if |lines| == 1 then 0
    else
      var k := LongestLineIndex(lines[..|lines| - 1]);
      if |lines[|lines| - 1]| > |lines[k]| then |lines| - 1 else k
  }

  /**
   * The canvas width: the widest line's pixel width, the padding on both sides,
   * and letter spacing once per character of the longest line by character count.
   */
  function CanvasWidth(font: Font, lines: seq<string>, letterSpacing: nat): nat
    requires |lines| > 0
  {
    MaxLineWidth(font, lines) + 2 * Padding + |lines[LongestLineIndex(lines)]| * letterSpacing
  }

  /** The canvas height: one line height per line and the padding above and below. */
  function CanvasHeight(lines: seq<string>, lineHeight: nat): nat
  {
    |lines| * lineHeight + 2 * Padding
  }

  // ---------------------------------------------------------------------------
  // Base layout and jitter
  // ---------------------------------------------------------------------------

  /** Where one character is drawn before jitter: the character and its base x and y. */
  datatype Placement = Placement(ch: char, x: nat, y: nat)

  /**
   * How far x has moved after drawing a piece of a line: each character
   * advances it by its width plus the letter spacing.
   */
  function Advance(font: Font, s: string, letterSpacing: nat): nat
    decreases |s|
  {
    if s == [] then 0 else Advance(font, s[..|s| - 1], letterSpacing) + CharWidth(font, s[|s| - 1]) + letterSpacing
  }

  /** The base positions of the characters of one line at height y, x starting after the padding. */
  function LinePlacements(font: Font, line: string, y: nat, letterSpacing: nat): seq<Placement>
    decreases |line|
  {
    if line == [] then []
    else
      var front := line[..|line| - 1];
      LinePlacements(font, front, y, letterSpacing)
        + [Placement(line[|line| - 1], Padding + Advance(font, front, letterSpacing), y)]
  }

  /** The base positions of all characters, line i at height Padding + i * lineHeight, in text order. */
  function BaseLayout(font: Font, lines: seq<string>, lineHeight: nat, letterSpacing: nat): seq<Placement>
    decreases |lines|
  {
    if lines == [] then []
    else
      var k := |lines| - 1;
      BaseLayout(font, lines[..k], lineHeight, letterSpacing)
        + LinePlacements(font, lines[k], Padding + k * lineHeight, letterSpacing)
  }

  /** The draw call for a placement shifted by an (x, y) offset. */
  function Shifted(p: Placement, offset: (real, real)): Stroke
  {
    Text(p.x as real + offset.0, p.y as real + offset.1, p.ch)
  }

  /** The draw calls for a list of placements, the k-th shifted by the k-th jitter offset. */
  function Jittered(ps: seq<Placement>, jitter: nat -> (real, real)): seq<Stroke>
    decreases |ps|
  {
    if ps == [] then []
    else
      var k := |ps| - 1;
      Jittered(ps[..k], jitter) + [Shifted(ps[k], jitter(k))]
  }

  /** The draw calls for a list of placements with no jitter at all: on the integer grid. */
  function Aligned(ps: seq<Placement>): seq<Stroke>
  {
    seq(|ps|, k requires 0 <= k < |ps| => Text(ps[k].x as real, ps[k].y as real, ps[k].ch))
  }

  function Abs(r: real): real
  {
    if r < 0.0 then -r else r
  }

  /** random.uniform(-randomness, randomness) never leaves the interval between its two bounds. */
  ghost predicate JitterWithin(jitter: nat -> (real, real), randomness: real)
  {
    forall n: nat :: -Abs(randomness) <= jitter(n).0 <= Abs(randomness) && -Abs(randomness) <= jitter(n).1 <= Abs(randomness)
  }

  // ---------------------------------------------------------------------------
  // Arithmetic helpers
  // ---------------------------------------------------------------------------

  /** Multiplying by the same natural number keeps the order. */
  lemma {:induction false} MulMono(a: nat, b: nat, c: nat)
    requires a <= b
    ensures a * c <= b * c
  {
  }

  /** One more row or column of the same size adds that size once. */
  lemma {:induction false} MulSucc(a: nat, c: nat)
    ensures (a + 1) * c == a * c + c
  {
  }

  // ---------------------------------------------------------------------------
  // Lemmas about one line
  // ---------------------------------------------------------------------------

  /** One more character adds its width to the measured part of a line. */
  lemma {:induction false} LineWidthStep(font: Font, line: string, j: nat)
    requires j < |line|
    ensures LineWidth(font, line[..j + 1]) == LineWidth(font, line[..j]) + CharWidth(font, line[j])
  {
    assert line[..j + 1][..j] == line[..j];
  }

  /** Prefixes of a line are no wider than the line. */
  lemma {:induction false} LineWidthPrefix(font: Font, line: string, j: nat)
    requires j <= |line|
    ensures LineWidth(font, line[..j]) <= LineWidth(font, line)
    decreases |line| - j
  {
    if j < |line| {
      LineWidthStep(font, line, j);
      LineWidthPrefix(font, line, j + 1);
    } else {
      assert line[..j] == line;
    }
  }

  /** One more character advances x by its width plus the letter spacing. */
  lemma {:induction false} AdvanceStep(font: Font, line: string, j: nat, letterSpacing: nat)
    requires j < |line|
    ensures Advance(font, line[..j + 1], letterSpacing) == Advance(font, line[..j], letterSpacing) + CharWidth(font, line[j]) + letterSpacing
  {
    assert line[..j + 1][..j] == line[..j];
  }

  /** The advance of a piece of a line is its pixel width plus one letter spacing per character. */
  lemma {:induction false} AdvanceClosedForm(font: Font, s: string, letterSpacing: nat)
    ensures Advance(font, s, letterSpacing) == LineWidth(font, s) + |s| * letterSpacing
    decreases |s|
  {
    if s != [] {
      AdvanceClosedForm(font, s[..|s| - 1], letterSpacing);
      MulSucc(|s| - 1, letterSpacing);
    }
  }

  /** A single line of N characters of the same width W is N * W pixels wide. */
  lemma {:induction false} UniformLineWidth(font: Font, line: string, w: nat)
    requires forall j :: 0 <= j < |line| ==> CharWidth(font, line[j]) == w
    ensures LineWidth(font, line) == |line| * w
    decreases |line|
  {
    if line != [] {
      var p := line[..|line| - 1];
      forall j | 0 <= j < |p| ensures CharWidth(font, p[j]) == w { assert p[j] == line[j]; }
      UniformLineWidth(font, p, w);
      MulSucc(|p|, w);
    }
  }

  /** Character j of a line is placed at x = 50 + the advance of the j characters before it. */
  lemma {:induction false} LinePlacementAt(font: Font, line: string, y: nat, letterSpacing: nat, j: nat)
    requires j < |line|
    ensures |LinePlacements(font, line, y, letterSpacing)| == |line|
    ensures LinePlacements(font, line, y, letterSpacing)[j] == Placement(line[j], Padding + Advance(font, line[..j], letterSpacing), y)
    decreases |line|
  {
    var front := line[..|line| - 1];
    if j < |front| {
      LinePlacementAt(font, front, y, letterSpacing, j);
      assert front[..j] == line[..j];
    } else {
      assert front == line[..j];
      if front != [] {
        LinePlacementAt(font, front, y, letterSpacing, 0);
      }
    }
  }

  /** Placing one more character of a line appends its placement. */
  lemma {:induction false} RowStep(font: Font, line: string, y: nat, letterSpacing: nat, j: nat)
    requires j < |line|
    ensures LinePlacements(font, line[..j + 1], y, letterSpacing)
      == LinePlacements(font, line[..j], y, letterSpacing) + [Placement(line[j], Padding + Advance(font, line[..j], letterSpacing), y)]
  {
    assert line[..j + 1][..j] == line[..j];
  }

  /** A line has one placement per character. */
  lemma {:induction false} LinePlacementsLength(font: Font, line: string, y: nat, letterSpacing: nat)
    ensures |LinePlacements(font, line, y, letterSpacing)| == |line|
    decreases |line|
  {
    if line != [] {
      LinePlacementsLength(font, line[..|line| - 1], y, letterSpacing);
    }
  }

  // ---------------------------------------------------------------------------
  // Lemmas about the draw calls
  // ---------------------------------------------------------------------------

  /** One draw call per placement. */
  lemma {:induction false} JitteredLength(ps: seq<Placement>, jitter: nat -> (real, real))
    ensures |Jittered(ps, jitter)| == |ps|
    decreases |ps|
  {
    if ps != [] {
      JitteredLength(ps[..|ps| - 1], jitter);
    }
  }

  /** The k-th draw call is the k-th placement shifted by the k-th jitter offset. */
  lemma {:induction false} JitteredAt(ps: seq<Placement>, jitter: nat -> (real, real), k: nat)
    requires k < |ps|
    ensures |Jittered(ps, jitter)| == |ps|
    ensures Jittered(ps, jitter)[k] == Shifted(ps[k], jitter(k))
    decreases |ps|
  {
    var front := ps[..|ps| - 1];
    JitteredLength(front, jitter);
    if k < |front| {
      JitteredAt(front, jitter, k);
    }
  }

  /** Adding a placement adds one draw call, using the next jitter offset. */
  lemma {:induction false} JitteredSnoc(ps: seq<Placement>, p: Placement, jitter: nat -> (real, real))
    ensures Jittered(ps + [p], jitter) == Jittered(ps, jitter) + [Shifted(p, jitter(|ps|))]
  {
    assert (ps + [p])[..|ps|] == ps;
  }

  /** Appending a placement after `done` and `a`, behind some earlier strokes, appends one shifted stroke. */
  lemma {:induction false} JitteredAppend(rules: seq<Stroke>, done: seq<Placement>, a: seq<Placement>, b: seq<Placement>,
                                          p: Placement, jitter: nat -> (real, real))
    requires b == a + [p]
    ensures rules + Jittered(done + b, jitter) == rules + Jittered(done + a, jitter) + [Shifted(p, jitter(|done| + |a|))]
  {
    var q := done + a;
    assert done + b == q + [p];
    JitteredSnoc(q, p, jitter);
  }

  /**
   * Drawing character j of a row at x, offset by the next jitter value, takes
   * the strokes drawn for the first j characters (after `rules` and the
   * placements `done`) to those for the first j + 1.
   */
  lemma {:induction false} RowDrawStep(font: Font, line: string, y: nat, letterSpacing: nat, j: nat, done: seq<Placement>,
                                       jitter: nat -> (real, real), rules: seq<Stroke>, x: nat, offset: (real, real),
                                       before: seq<Stroke>, after: seq<Stroke>)
    requires j < |line|
    requires x == Padding + Advance(font, line[..j], letterSpacing)
    requires offset == jitter(|done| + j)
    requires before == rules + Jittered(done + LinePlacements(font, line[..j], y, letterSpacing), jitter)
    requires after == before + [Text(x as real + offset.0, y as real + offset.1, line[j])]
    ensures after == rules + Jittered(done + LinePlacements(font, line[..j + 1], y, letterSpacing), jitter)
  {
    RowStep(font, line, y, letterSpacing, j);
    LinePlacementsLength(font, line[..j], y, letterSpacing);
    JitteredAppend(rules, done, LinePlacements(font, line[..j], y, letterSpacing),
                   LinePlacements(font, line[..j + 1], y, letterSpacing), Placement(line[j], x, y), jitter);
  }

  /** Each drawn position is within the jitter magnitude of its base position, in each axis. */
  lemma JitterDeviation(ps: seq<Placement>, jitter: nat -> (real, real), randomness: real, k: nat)
    requires JitterWithin(jitter, randomness)
    requires k < |ps|
    ensures |Jittered(ps, jitter)| == |ps|
    ensures Jittered(ps, jitter)[k].Text? && Jittered(ps, jitter)[k].ch == ps[k].ch
    ensures Abs(Jittered(ps, jitter)[k].x - ps[k].x as real) <= Abs(randomness)
    ensures Abs(Jittered(ps, jitter)[k].y - ps[k].y as real) <= Abs(randomness)
  {
    JitteredAt(ps, jitter, k);
    assert -Abs(randomness) <= jitter(k).0 <= Abs(randomness);
    assert -Abs(randomness) <= jitter(k).1 <= Abs(randomness);
  }

  /** With jitter magnitude 0 every character is drawn exactly at its base position. */
  lemma NoJitterIsAligned(ps: seq<Placement>, jitter: nat -> (real, real))
    requires JitterWithin(jitter, 0.0)
    ensures Jittered(ps, jitter) == Aligned(ps)
  {
    JitteredLength(ps, jitter);
    forall k | 0 <= k < |ps|
      ensures Jittered(ps, jitter)[k] == Aligned(ps)[k]
    {
      JitteredAt(ps, jitter, k);
      assert jitter(k) == (0.0, 0.0);
    }
  }

  // ---------------------------------------------------------------------------
  // Lemmas about the whole layout
  // ---------------------------------------------------------------------------

  /** One placement per character: the layout is as long as the lines together. */
  lemma {:induction false} LayoutLength(font: Font, lines: seq<string>, lineHeight: nat, letterSpacing: nat)
    ensures |BaseLayout(font, lines, lineHeight, letterSpacing)| == TotalLength(lines)
    decreases |lines|
  {
    if lines != [] {
      var k := |lines| - 1;
      LayoutLength(font, lines[..k], lineHeight, letterSpacing);
      LinePlacementsLength(font, lines[k], Padding + k * lineHeight, letterSpacing);
    }
  }

  /** One placement per character of the text that is not a line break. */
  lemma TextLayoutLength(font: Font, text: string, lineHeight: nat, letterSpacing: nat)
    ensures |BaseLayout(font, Split(text), lineHeight, letterSpacing)| == |text| - CountNewlines(text)
  {
    LayoutLength(font, Split(text), lineHeight, letterSpacing);
    SplitLength(text);
  }

  /**
   * Character j of line i is placement number TotalLength(lines[..i]) + j, at
   * y = 50 + i * lineHeight and x = 50 + the widths and letter spacings of
   * the characters before it in its line.
   */
  lemma {:induction false} PlacementOf(font: Font, lines: seq<string>, lineHeight: nat, letterSpacing: nat, i: nat, j: nat)
    requires i < |lines| && j < |lines[i]|
    ensures TotalLength(lines[..i]) + j < |BaseLayout(font, lines, lineHeight, letterSpacing)|
    ensures BaseLayout(font, lines, lineHeight, letterSpacing)[TotalLength(lines[..i]) + j]
      == Placement(lines[i][j], Padding + Advance(font, lines[i][..j], letterSpacing), Padding + i * lineHeight)
    decreases |lines|
  {
    var k := |lines| - 1;
    var front := lines[..k];
    LayoutLength(font, front, lineHeight, letterSpacing);
    if i == k {
      assert lines[..i] == front;
      LinePlacementAt(font, lines[i], Padding + i * lineHeight, letterSpacing, j);
    } else {
      assert front[..i] == lines[..i];
      assert front[i] == lines[i];
      PlacementOf(font, front, lineHeight, letterSpacing, i, j);
    }
  }

  /** After any line, x has not passed the right padding of the canvas. */
  lemma LineFits(font: Font, lines: seq<string>, letterSpacing: nat, i: nat)
    requires i < |lines|
    ensures Padding + Advance(font, lines[i], letterSpacing) + Padding <= CanvasWidth(font, lines, letterSpacing)
  {
    AdvanceClosedForm(font, lines[i], letterSpacing);
    MulMono(|lines[i]|, |lines[LongestLineIndex(lines)]|, letterSpacing);
  }

  /**
   * Every character of the last line is placed exactly one line height above
   * the bottom padding. When the last line is empty it has no characters, and
   * only the y of the walk (Padding + |lines| * lineHeight after the last line,
   * the invariant of DrawLines) reaches that edge.
   */
  lemma LastLineBottom(font: Font, lines: seq<string>, lineHeight: nat, letterSpacing: nat, j: nat)
    requires |lines| > 0 && j < |lines[|lines| - 1]|
    ensures TotalLength(lines[..|lines| - 1]) + j < |BaseLayout(font, lines, lineHeight, letterSpacing)|
    ensures BaseLayout(font, lines, lineHeight, letterSpacing)[TotalLength(lines[..|lines| - 1]) + j].y + lineHeight
      == CanvasHeight(lines, lineHeight) - Padding
  {
    PlacementOf(font, lines, lineHeight, letterSpacing, |lines| - 1, j);
    MulSucc(|lines| - 1, lineHeight);
  }

  /**
   * Every character's base box lies within the padded canvas: from its base x
   * to its base x plus its width and the letter spacing, and from its base y
   * to its base y plus the line height.
   */
  lemma GlyphWithinCanvas(font: Font, lines: seq<string>, lineHeight: nat, letterSpacing: nat, i: nat, j: nat)
    requires i < |lines| && j < |lines[i]|
    ensures TotalLength(lines[..i]) + j < |BaseLayout(font, lines, lineHeight, letterSpacing)|
    ensures var p := BaseLayout(font, lines, lineHeight, letterSpacing)[TotalLength(lines[..i]) + j];
      && Padding <= p.x
      && p.x + CharWidth(font, lines[i][j]) + letterSpacing <= CanvasWidth(font, lines, letterSpacing) - Padding
      && Padding <= p.y
      && p.y + lineHeight <= CanvasHeight(lines, lineHeight) - Padding
  {
    PlacementOf(font, lines, lineHeight, letterSpacing, i, j);
    var line := lines[i];
    AdvanceStep(font, line, j, letterSpacing);
    AdvanceClosedForm(font, line[..j + 1], letterSpacing);
    AdvanceClosedForm(font, line, letterSpacing);
    LineWidthPrefix(font, line, j + 1);
    MulMono(j + 1, |line|, letterSpacing);
    LineFits(font, lines, letterSpacing, i);
    MulSucc(i, lineHeight);
    MulMono(i + 1, |lines|, lineHeight);
    MulMono(0, i, lineHeight);
  }

  /** A single line of N characters of the same width W: the canvas is 2*50 + N*W + N*S wide. */
  lemma SingleLineCanvasWidth(font: Font, line: string, w: nat, letterSpacing: nat)
    requires forall j :: 0 <= j < |line| ==> CharWidth(font, line[j]) == w
    ensures CanvasWidth(font, [line], letterSpacing) == 2 * Padding + |line| * w + |line| * letterSpacing
  {
    UniformLineWidth(font, line, w);
  }

  /**
   * The letter-spacing term follows the longest line by character count, not
   * the widest line: with 'W' 30 pixels wide and 'i' 5 pixels wide, "WW" is
   * the widest line and "iii" the longest, and the canvas takes the pixel
   * width of the first and the count of the second.
   */
  lemma WidestAndLongestDiffer()
    ensures var font := Font(30, 24, 8, map['W' := BBox(0, 0, 30, 20), 'i' := BBox(0, 0, 5, 20)]);
      var lines := ["WW", "iii"];
      && MaxLineWidth(font, lines) == LineWidth(font, lines[0]) == 60
      && LongestLineIndex(lines) == 1
      && CanvasWidth(font, lines, 5) == 60 + 2 * Padding + 3 * 5
  {
    var font := Font(30, 24, 8, map['W' := BBox(0, 0, 30, 20), 'i' := BBox(0, 0, 5, 20)]);
    var lines := ["WW", "iii"];
    assert lines[0][..1] == "W";
    assert lines[1][..2] == "ii" && lines[1][..2][..1] == "i";
    assert LineWidth(font, lines[0]) == 60;
    assert LineWidth(font, lines[1]) == 15;
  }

  // ---------------------------------------------------------------------------
  // text_to_handwriting
  // ---------------------------------------------------------------------------

  /**
   * The inner loop of text_to_handwriting: draws the characters of one line
   * left to right at height y, advancing x by each character's width plus the
   * letter spacing, whatever jitter was added to the drawn position. `n`
   * characters were drawn before this line.
   */
  method DrawRow(img: Canvas, font: Font, line: string, y: nat, letterSpacing: nat, jitter: nat -> (real, real),
                 n: nat, ghost rules: seq<Stroke>, ghost done: seq<Placement>) returns (next: nat)
    requires n == |done|
    requires img.strokes == rules + Jittered(done, jitter)
    modifies img
    ensures next == n + |line|
    ensures img.strokes == rules + Jittered(done + LinePlacements(font, line, y, letterSpacing), jitter)
  {
    var x := Padding;
    var j := 0;
    next := n;
    assert line[..0] == [];
    assert done + [] == done;
    while j < |line|
      invariant 0 <= j <= |line|
      invariant x == Padding + Advance(font, line[..j], letterSpacing)
      invariant next == n + j
      invariant img.strokes == rules + Jittered(done + LinePlacements(font, line[..j], y, letterSpacing), jitter)
    {
      var c := line[j];
      var (randX, randY) := jitter(next);
      ghost var before := img.strokes;
      img.DrawText(x as real + randX, y as real + randY, c);
      RowDrawStep(font, line, y, letterSpacing, j, done, jitter, rules, x, (randX, randY), before, img.strokes);
      var (charWidth, _) := GetTextDimensions(font, c);
      AdvanceStep(font, line, j, letterSpacing);

      x := x + charWidth + letterSpacing;
      j := j + 1;
      next := next + 1;
    }
    assert line[..|line|] == line;
  }

  /**
   * The outer loop of text_to_handwriting: draws the lines top to bottom,
   * line i at height 50 + i * lineHeight, the characters of the whole text
   * taking the jitter offsets in text order.
   */
  method DrawLines(img: Canvas, font: Font, lines: seq<string>, lineHeight: nat, letterSpacing: nat, jitter: nat -> (real, real))
    modifies img
    ensures img.strokes == old(img.strokes) + Jittered(BaseLayout(font, lines, lineHeight, letterSpacing), jitter)
  {
    ghost var rules := img.strokes;
    var y: nat := Padding;
    var i := 0;
    var n := 0;  // characters drawn so far, one jitter offset each
    assert lines[..0] == [];
    while i < |lines|
      invariant 0 <= i <= |lines|
      invariant y == Padding + i * lineHeight
      invariant n == |BaseLayout(font, lines[..i], lineHeight, letterSpacing)|
      invariant img.strokes == rules + Jittered(BaseLayout(font, lines[..i], lineHeight, letterSpacing), jitter)
    {
      ghost var done := BaseLayout(font, lines[..i], lineHeight, letterSpacing);
      n := DrawRow(img, font, lines[i], y, letterSpacing, jitter, n, rules, done);
      assert lines[..i + 1][..i] == lines[..i];
      assert BaseLayout(font, lines[..i + 1], lineHeight, letterSpacing)
        == done + LinePlacements(font, lines[i], y, letterSpacing);
      LinePlacementsLength(font, lines[i], y, letterSpacing);
      MulSucc(i, lineHeight);
      y := y + lineHeight;
      i := i + 1;
    }
    assert lines[..|lines|] == lines;
  }

  /**
   * text_to_handwriting: sizes the canvas from the measured lines, obtains the
   * background, and draws every character at its base position shifted by its
   * jitter offset. Returns null when the background cannot be produced.
   */
  method Render(text: string, font: Font, lineHeight: nat, letterSpacing: nat, jitter: nat -> (real, real),
                texture: string, custom: Option<Picture>) returns (img: Canvas?)
    ensures img == null <==> !Available(texture, custom)
    ensures img != null ==>
      && fresh(img)
      && img.width == CanvasWidth(font, Split(text), letterSpacing)
      && img.height == CanvasHeight(Split(text), lineHeight)
      && img.fill == FillFor(texture, custom)
      && img.strokes == BackgroundRules(img.width, img.height, texture)
           + Jittered(BaseLayout(font, Split(text), lineHeight, letterSpacing), jitter)
  {
    var lines := Split(text);
    var maxLineWidth := MaxLineWidth(font, lines);
    MulMono(0, |lines|, lineHeight);
    var totalHeight: nat := |lines| * lineHeight;
    var longest := lines[LongestLineIndex(lines)];
    MulMono(0, |longest|, letterSpacing);
    var imgWidth: nat := maxLineWidth + 2 * Padding + |longest| * letterSpacing;
    var imgHeight: nat := totalHeight + 2 * Padding;

    img := CreateBackground(imgWidth, imgHeight, texture, custom);
    if img != null {
      DrawLines(img, font, lines, lineHeight, letterSpacing, jitter);
    }
  }
}
