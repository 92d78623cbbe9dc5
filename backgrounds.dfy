/**
 * The background synthesizer: a canvas of the requested size, white or the
 * caller's picture, with ruled lines every 25 pixels for the lined and grid
 * textures and a margin line on lined paper.
 */
module Backgrounds {
  import opened Wrappers
  import opened Drawing

  /** The distance between two rule lines. */
  const RuleSpacing: nat := 25

  /** The x coordinate of the margin line of lined paper. */
  const MarginX: nat := 40

  /** range(start, stop, 25): the coordinates start, start + 25, ... that are below stop. */
  function Range(start: nat, stop: nat): (r: seq<nat>)
    ensures |r| == if start < stop then (stop - start + RuleSpacing - 1) / RuleSpacing else 0
    ensures forall i :: 0 <= i < |r| ==> r[i] == start + RuleSpacing * i
    decreases stop - start
  {
    if start >= stop then [] else [start] + Range(start + RuleSpacing, stop)
  }

  /** The rule coordinates below a bound are exactly the multiples of 25 below it. */
  lemma RuleCoordinates(bound: nat, c: nat)
    ensures c in Range(0, bound) <==> c < bound && c % RuleSpacing == 0
  {
    var r := Range(0, bound);
    if c < bound && c % RuleSpacing == 0 {
      var i := c / RuleSpacing;
      assert r[i] == c;
    }
  }

  /** The horizontal rules of a width-by-height canvas, top to bottom. */
  function HorizontalRules(width: nat, height: nat): (rules: seq<Stroke>)
  {
    var ys := Range(0, height);
    seq(|ys|, i requires 0 <= i < |ys| => Line(Point(0, ys[i]), Point(width, ys[i])))
  }

  /** The vertical rules of a width-by-height canvas, left to right. */
  function VerticalRules(width: nat, height: nat): (rules: seq<Stroke>)
  {
    var xs := Range(0, width);
    seq(|xs|, i requires 0 <= i < |xs| => Line(Point(xs[i], 0), Point(xs[i], height)))
  }

  /** A full-width horizontal line is a rule exactly at the multiples of 25 above the bottom edge. */
  lemma HorizontalRuleAt(width: nat, height: nat, y: nat)
    ensures Line(Point(0, y), Point(width, y)) in HorizontalRules(width, height) <==> y < height && y % RuleSpacing == 0
  {
    var ys := Range(0, height);
    var rules := HorizontalRules(width, height);
    RuleCoordinates(height, y);
    if y in ys {
      var i :| 0 <= i < |ys| && ys[i] == y;
      assert rules[i] == Line(Point(0, y), Point(width, y));
    }
  }

  /** A full-height vertical line is a rule exactly at the multiples of 25 left of the right edge. */
  lemma VerticalRuleAt(width: nat, height: nat, x: nat)
    ensures Line(Point(x, 0), Point(x, height)) in VerticalRules(width, height) <==> x < width && x % RuleSpacing == 0
  {
    var xs := Range(0, width);
    var rules := VerticalRules(width, height);
    RuleCoordinates(width, x);
    if x in xs {
      var i :| 0 <= i < |xs| && xs[i] == x;
      assert rules[i] == Line(Point(x, 0), Point(x, height));
    }
  }

  /** Every horizontal rule is a full-width line at a multiple of 25 above the bottom edge. */
  lemma HorizontalRulesShape(width: nat, height: nat)
    ensures forall s :: s in HorizontalRules(width, height) ==>
      && s == Line(Point(0, s.from.y), Point(width, s.from.y))
      && 0 <= s.from.y < height && s.from.y % RuleSpacing == 0
  {
    var ys := Range(0, height);
    var rules := HorizontalRules(width, height);
    forall s | s in rules
      ensures s == Line(Point(0, s.from.y), Point(width, s.from.y))
      ensures 0 <= s.from.y < height && s.from.y % RuleSpacing == 0
    {
      var i :| 0 <= i < |rules| && rules[i] == s;
      RuleCoordinates(height, ys[i]);
    }
  }

  /** Every vertical rule is a full-height line at a multiple of 25 left of the right edge. */
  lemma VerticalRulesShape(width: nat, height: nat)
    ensures forall s :: s in VerticalRules(width, height) ==>
      && s == Line(Point(s.from.x, 0), Point(s.from.x, height))
      && 0 <= s.from.x < width && s.from.x % RuleSpacing == 0
  {
    var xs := Range(0, width);
    var rules := VerticalRules(width, height);
    forall s | s in rules
      ensures s == Line(Point(s.from.x, 0), Point(s.from.x, height))
      ensures 0 <= s.from.x < width && s.from.x % RuleSpacing == 0
    {
      var i :| 0 <= i < |rules| && rules[i] == s;
      RuleCoordinates(width, xs[i]);
    }
  }

  /** The textures create_background knows how to produce. */
  datatype Texture = CustomPicture | PlainWhite | LinedPaper | GridPaper

  /** The texture a selector names, or None for a name create_background does not handle. */
  function ParseTexture(name: string): (t: Option<Texture>)
    ensures t == Some(CustomPicture) <==> name == "Custom"
    ensures t == Some(PlainWhite) <==> name == "Plain White"
    ensures t == Some(LinedPaper) <==> name == "Lined Paper"
    ensures t == Some(GridPaper) <==> name == "Grid Paper"
  {
    if name == "Custom" then Some(CustomPicture)
    else if name == "Plain White" then Some(PlainWhite)
    else if name == "Lined Paper" then Some(LinedPaper)
    else if name == "Grid Paper" then Some(GridPaper)
    else None
  }

  /** Whether create_background returns an image: a known texture, and a decodable picture for "Custom". */
  predicate Available(texture: string, custom: Option<Picture>)
  {
    ParseTexture(texture).Some? && (ParseTexture(texture) == Some(CustomPicture) ==> custom.Some?)
  }

  /** The base fill of the background that create_background returns. */
  function FillFor(texture: string, custom: Option<Picture>): Fill
    requires Available(texture, custom)
  {
    if ParseTexture(texture) == Some(CustomPicture) then Scaled(custom.value) else White
  }

  /** The lines create_background draws for a texture, in drawing order. */
  function BackgroundRules(width: nat, height: nat, texture: string): (rules: seq<Stroke>)
  {
    match ParseTexture(texture)
    case Some(LinedPaper) => HorizontalRules(width, height) + [Line(Point(MarginX, 0), Point(MarginX, height))]
    case Some(GridPaper) => VerticalRules(width, height) + HorizontalRules(width, height)
    case _ => []
  }

  /** Lined paper: the horizontal rules at the multiples of 25, then the margin line at x = 40. */
  lemma LinedPaperRules(width: nat, height: nat, y: nat)
    ensures Line(Point(0, y), Point(width, y)) in BackgroundRules(width, height, "Lined Paper") <==> y < height && y % RuleSpacing == 0
    ensures Line(Point(MarginX, 0), Point(MarginX, height)) in BackgroundRules(width, height, "Lined Paper")
    ensures forall s :: s in BackgroundRules(width, height, "Lined Paper") ==>
      || s == Line(Point(MarginX, 0), Point(MarginX, height))
      || (s == Line(Point(0, s.from.y), Point(width, s.from.y)) && 0 <= s.from.y < height && s.from.y % RuleSpacing == 0)
  {
    HorizontalRuleAt(width, height, y);
    HorizontalRulesShape(width, height);
    var m := Line(Point(MarginX, 0), Point(MarginX, height));
    assert Line(Point(0, y), Point(width, y)) != m;
  }

  /** Grid paper: rules at the multiples of 25 in both directions, and nothing else. */
  lemma GridPaperRules(width: nat, height: nat, c: nat)
    ensures Line(Point(0, c), Point(width, c)) in BackgroundRules(width, height, "Grid Paper") <==> c < height && c % RuleSpacing == 0
    ensures Line(Point(c, 0), Point(c, height)) in BackgroundRules(width, height, "Grid Paper") <==> c < width && c % RuleSpacing == 0
    ensures forall s :: s in BackgroundRules(width, height, "Grid Paper") ==>
      || (s == Line(Point(s.from.x, 0), Point(s.from.x, height)) && 0 <= s.from.x < width && s.from.x % RuleSpacing == 0)
      || (s == Line(Point(0, s.from.y), Point(width, s.from.y)) && 0 <= s.from.y < height && s.from.y % RuleSpacing == 0)
  {
    HorizontalRuleAt(width, height, c);
    VerticalRuleAt(width, height, c);
    HorizontalRulesShape(width, height);
    VerticalRulesShape(width, height);
    // A horizontal rule from x = 0 can equal a vertical one only where both are the point rule at the origin.
    assert Line(Point(0, c), Point(width, c)) in VerticalRules(width, height) ==> c == 0 && width == 0;
    assert Line(Point(c, 0), Point(c, height)) in HorizontalRules(width, height) ==> c == 0 && height == 0;
  }

  /** `for y in range(0, height, 25)`: one horizontal line per rule coordinate. */
  method DrawHorizontalRules(img: Canvas)
    modifies img
    ensures img.strokes == old(img.strokes) + HorizontalRules(img.width, img.height)
  {
    var ys := Range(0, img.height);
    ghost var rules := HorizontalRules(img.width, img.height);
    var i := 0;
    while i < |ys|
      invariant 0 <= i <= |ys|
      invariant img.strokes == old(img.strokes) + rules[..i]
    {
      var y := ys[i];
      img.DrawLine(Point(0, y), Point(img.width, y));
      assert rules[..i + 1] == rules[..i] + [rules[i]];
      i := i + 1;
    }
    assert rules[..|ys|] == rules;
  }

  /** `for x in range(0, width, 25)`: one vertical line per rule coordinate. */
  method DrawVerticalRules(img: Canvas)
    modifies img
    ensures img.strokes == old(img.strokes) + VerticalRules(img.width, img.height)
  {
    var xs := Range(0, img.width);
    ghost var rules := VerticalRules(img.width, img.height);
    var i := 0;
    while i < |xs|
      invariant 0 <= i <= |xs|
      invariant img.strokes == old(img.strokes) + rules[..i]
    {
      var x := xs[i];
      img.DrawLine(Point(x, 0), Point(x, img.height));
      assert rules[..i + 1] == rules[..i] + [rules[i]];
      i := i + 1;
    }
    assert rules[..|xs|] == rules;
  }

  /**
   * create_background: a canvas of exactly width by height with the texture's
   * rules drawn on it, or null when the texture is unknown or the caller's
   * picture for "Custom" is missing.
   */
  method CreateBackground(width: nat, height: nat, texture: string, custom: Option<Picture>) returns (img: Canvas?)
    ensures img == null <==> !Available(texture, custom)
    ensures img != null ==>
      && fresh(img) && img.width == width && img.height == height
      && img.fill == FillFor(texture, custom)
      && img.strokes == BackgroundRules(width, height, texture)
  {
    match ParseTexture(texture)
    case Some(CustomPicture) =>
      if custom.None? {
        img := null;
      } else {
        img := new Canvas(width, height, Scaled(custom.value));
      }
    case Some(PlainWhite) =>
      img := new Canvas(width, height, White);
    case Some(LinedPaper) =>
      var lined := new Canvas(width, height, White);
      DrawHorizontalRules(lined);
      lined.DrawLine(Point(MarginX, 0), Point(MarginX, height));
      img := lined;
    case Some(GridPaper) =>
      var grid := new Canvas(width, height, White);
      DrawVerticalRules(grid);
      DrawHorizontalRules(grid);
      img := grid;
    case None =>
      img := null;
  }
}
