# Handwriting layout model

A Dafny model of the layout engine of a text-to-handwriting converter. The
converter has one Python file, `advanced_text_to_hanwritten.py`. The model
covers the parts that decide where ink goes:

- the font resolver: style name to bundled font file, with a fallback to "Caveat";
- the per-character metric rule `get_text_dimensions`;
- the background synthesizer `create_background`, with the rule lines of lined and grid paper;
- the renderer `text_to_handwriting`: split the text into lines, size the canvas, then walk every character.

A font is an abstract metric oracle (`Fonts.Font`). It has a nominal size,
an ascent, a descent, and the mask bounding box of every character whose
mask is not empty. `Fonts.Font.MaskBBox` is that oracle's answer to
`font.getmask(ch).getbbox()`: the recorded box, or none for a character
without one.

A canvas (`Drawing.Canvas`) is a class with a fixed width, height and base
fill. Its `strokes` field records every draw call made on it, in order. The
two random offsets of each character are injected as a stream
`jitter: nat -> (real, real)`. `jitter(k)` holds the x and y offsets of the
k-th character drawn. `Renderer.JitterWithin` states the bound that
`random.uniform(-r, r)` guarantees.

The modules follow the program's structure:

| file | module | contents |
|---|---|---|
| wrappers.dfy | Wrappers | `Option` |
| drawing.dfy | Drawing | the canvas and its draw calls (PIL `Image` plus `ImageDraw`) |
| fonts.dfy | Fonts | the metric oracle, `get_text_dimensions`, the `FONT_PATHS` lookup |
| backgrounds.dfy | Backgrounds | `create_background` and its rule-line loops |
| text_lines.dfy | TextLines | `str.split('\n')` and its inverse `'\n'.join` |
| renderer.dfy | Renderer | canvas sizing, the base layout, the jitter, and `text_to_handwriting` as nested loops |

The imperative parts are methods with loop invariants:

- `Backgrounds.DrawHorizontalRules` and `Backgrounds.DrawVerticalRules`;
- `Backgrounds.CreateBackground`;
- `Renderer.DrawRow`, `Renderer.DrawLines` and `Renderer.Render`.

Each is proved against a specification function:

- `Backgrounds.BackgroundRules`;
- `Renderer.BaseLayout`, the jitter-free placements;
- `Renderer.Jittered`, the draw calls.

The properties of the program are lemmas about those functions.

`BaseLayout` has no jitter parameter. So the base x and y of every
character, which `Renderer.PlacementOf` gives in closed form, cannot depend
on the random offsets, exactly as in the source. There, `x` and `y` are
advanced without `rand_x` and `rand_y`.

## Model

| member | source | states |
|---|---|---|
| Fonts.FontPaths | advanced_text_to_hanwritten.py:8-14 | definition: the five built-in styles and their bundled font files |
| Fonts.GetTextDimensions | advanced_text_to_hanwritten.py:44-51 | with no mask box, (size, size); otherwise (right edge, bottom edge + descent) |
| Fonts.FontSourceFor | advanced_text_to_hanwritten.py:16-20 | "Custom" and only "Custom" loads the uploaded bytes; a known style loads its own file; any other name loads the "Caveat" file |
| Fonts.BundledIsListed | advanced_text_to_hanwritten.py:8-20 | every bundled file that is loaded is one of the five table entries |
| Fonts.FontPathsInjective | advanced_text_to_hanwritten.py:8-14 | two different built-in styles never share a file |
| Fonts.FallsBackToDefault | advanced_text_to_hanwritten.py:17-19 | a non-custom name loads the "Caveat" file if and only if it is "Caveat" or is not in the table |
| TextLines.Split | advanced_text_to_hanwritten.py:54 | splitting always yields at least one line, so the `max` over lines is defined |
| TextLines.SplitSnoc | advanced_text_to_hanwritten.py:54 | appending a line break starts a new empty line; appending any other character extends the last line |
| TextLines.SplitNoBreaks | advanced_text_to_hanwritten.py:54 | no line contains a line break |
| TextLines.SplitCount | advanced_text_to_hanwritten.py:54 | there is exactly one more line than there are line breaks |
| TextLines.SplitLength | advanced_text_to_hanwritten.py:54 | the lines hold every character of the text except the line breaks |
| TextLines.JoinSplit | advanced_text_to_hanwritten.py:54 | joining the lines with line breaks gives the text back |
| TextLines.SplitSingle | advanced_text_to_hanwritten.py:54 | a text without line breaks is a single line |
| TextLines.SplitAfterBreak | advanced_text_to_hanwritten.py:54 | a line break followed by break-free text adds exactly that text as the last line |
| TextLines.SplitJoin | advanced_text_to_hanwritten.py:54 | splitting joined break-free lines gives the lines back |
| TextLines.SplitKeepsEmptyLines | advanced_text_to_hanwritten.py:54 | the empty text is one empty line, and two adjacent breaks enclose an empty line |
| Fonts.CharWidth | advanced_text_to_hanwritten.py:55-72 | definition: the width half of `get_text_dimensions` for one character, as summed at line 55 and added to x at line 72 |
| Renderer.LineWidth | advanced_text_to_hanwritten.py:55 | definition: the sum of the character widths of a line |
| Renderer.MaxLineWidth | advanced_text_to_hanwritten.py:55 | the result bounds every line's width sum and equals the width sum of some line |
| Renderer.LongestLineIndex | advanced_text_to_hanwritten.py:59 | the index of a line with the most characters, and the first such line, as `max(lines, key=len)` picks |
| Renderer.CanvasWidth | advanced_text_to_hanwritten.py:55-60 | definition: the widest line's width sum, plus 2 * 50, plus the longest line's character count times the letter spacing |
| Renderer.CanvasHeight | advanced_text_to_hanwritten.py:55-60 | definition: the number of lines times the line height, plus 2 * 50 |
| Renderer.LineWidthPrefix | advanced_text_to_hanwritten.py:55 | a prefix of a line is never wider than the whole line |
| Renderer.UniformLineWidth | advanced_text_to_hanwritten.py:55 | a line of N characters that are all W wide is N * W wide |
| Renderer.Advance | advanced_text_to_hanwritten.py:67-73 | definition: how far the x accumulator has moved after some characters, each adding its width plus the letter spacing |
| Renderer.LinePlacements | advanced_text_to_hanwritten.py:67-73 | definition: the base placement of every character of one line, in order, x starting at 50 |
| Renderer.AdvanceClosedForm | advanced_text_to_hanwritten.py:67-73 | after some characters, x has moved by their width sum plus one letter spacing per character |
| Renderer.LinePlacementAt | advanced_text_to_hanwritten.py:67-73 | a line has one placement per character; character j is at x = 50 + the advance of the j characters before it, at the line's y |
| Renderer.BaseLayout | advanced_text_to_hanwritten.py:65-74 | definition: the base placements of all characters in text order, line i at y = 50 + i * lineHeight |
| Renderer.Jittered | advanced_text_to_hanwritten.py:68-71 | definition: one draw call per placement, the k-th shifted by the k-th offset pair |
| Renderer.Shifted | advanced_text_to_hanwritten.py:71 | definition: the draw call at (x + rand_x, y + rand_y) for one placement and one offset pair |
| Renderer.JitterWithin | advanced_text_to_hanwritten.py:69-70 | definition: every offset lies between -|randomness| and |randomness| in each axis, the range of `random.uniform` |
| Renderer.JitteredLength | advanced_text_to_hanwritten.py:68-71 | exactly one draw call per placed character |
| Renderer.JitteredAt | advanced_text_to_hanwritten.py:68-71 | the k-th draw call draws the k-th character at its base position plus the k-th offset pair |
| Renderer.JitterDeviation | advanced_text_to_hanwritten.py:69-71 | when every offset lies within the magnitude, each drawn position is within the magnitude of its base position in each axis, and the character drawn is unchanged |
| Renderer.NoJitterIsAligned | advanced_text_to_hanwritten.py:69-71 | with magnitude 0, every character is drawn exactly at its base position |
| Renderer.LayoutLength | advanced_text_to_hanwritten.py:65-74 | the layout has one placement per character of the lines |
| Renderer.TextLayoutLength | advanced_text_to_hanwritten.py:54-74 | the layout has one placement per character of the text that is not a line break |
| Renderer.PlacementOf | advanced_text_to_hanwritten.py:65-74 | character j of line i is placement TotalLength(lines[..i]) + j, at y = 50 + i * lineHeight and x = 50 + the advance of the characters before it in its line |
| Renderer.LineFits | advanced_text_to_hanwritten.py:55-73 | after any line, x (50 plus the line's widths and letter spacings) is at most the canvas width minus the right padding |
| Renderer.LastLineBottom | advanced_text_to_hanwritten.py:56-74 | every character of the last line is placed at a y that is exactly one line height above the bottom padding of the canvas |
| Renderer.GlyphWithinCanvas | advanced_text_to_hanwritten.py:55-74 | every character's base cell, from its x to x + width + spacing and from its y to y + lineHeight, lies inside the padded canvas |
| Renderer.SingleLineCanvasWidth | advanced_text_to_hanwritten.py:55-59 | one line of N characters all W wide gives a canvas 2 * 50 + N * W + N * spacing wide |
| Renderer.WidestAndLongestDiffer | advanced_text_to_hanwritten.py:55-59 | the width term comes from the widest line and the spacing term from the longest line by count, which can be two different lines |
| Renderer.DrawRow | advanced_text_to_hanwritten.py:67-73 | drawing a line appends one jittered draw call per character at the line's base placements, taking the next offsets in order |
| Renderer.DrawLines | advanced_text_to_hanwritten.py:65-74 | drawing all lines appends the jittered base layout of the whole text to what was already drawn |
| Renderer.Render | advanced_text_to_hanwritten.py:53-76 | no image exactly when the background cannot be made; otherwise a fresh canvas of the computed width and height, with the background's fill and rules followed by the jittered layout |
| Backgrounds.Range | advanced_text_to_hanwritten.py:31 | `range(start, stop, 25)`: its length, and the i-th value is start + 25 * i |
| Backgrounds.RuleCoordinates | advanced_text_to_hanwritten.py:31 | a coordinate is produced exactly when it is below the bound and a multiple of 25 |
| Backgrounds.HorizontalRules | advanced_text_to_hanwritten.py:31-41 | definition: one full-width line at each y of `range(0, height, 25)`, top to bottom |
| Backgrounds.VerticalRules | advanced_text_to_hanwritten.py:38-39 | definition: one full-height line at each x of `range(0, width, 25)`, left to right |
| Backgrounds.HorizontalRulesShape | advanced_text_to_hanwritten.py:31-32 | every horizontal rule is a full-width line at a y that is a multiple of 25 with 0 <= y < height |
| Backgrounds.VerticalRulesShape | advanced_text_to_hanwritten.py:38-39 | every vertical rule is a full-height line at an x that is a multiple of 25 with 0 <= x < width |
| Backgrounds.HorizontalRuleAt | advanced_text_to_hanwritten.py:31-32 | a full-width horizontal line at y is a rule if and only if y < height and y is a multiple of 25 |
| Backgrounds.VerticalRuleAt | advanced_text_to_hanwritten.py:38-39 | a full-height vertical line at x is a rule if and only if x < width and x is a multiple of 25 |
| Backgrounds.ParseTexture | advanced_text_to_hanwritten.py:22-42 | each of the four texture names selects its own texture; every other name selects none |
| Backgrounds.Available | advanced_text_to_hanwritten.py:22-42 | definition: a canvas is produced exactly for one of the four known textures, with a decoded picture when the texture is "Custom" |
| Backgrounds.FillFor | advanced_text_to_hanwritten.py:22-36 | definition: the resized picture for "Custom", white for the other three textures |
| Backgrounds.BackgroundRules | advanced_text_to_hanwritten.py:28-41 | definition: the lines each texture draws, in drawing order |
| Backgrounds.LinedPaperRules | advanced_text_to_hanwritten.py:28-34 | lined paper has a horizontal rule exactly at the multiples of 25 below the height, has the margin at x = 40, and has no other line: every other stroke is a full-width horizontal at a multiple of 25 below the height |
| Backgrounds.GridPaperRules | advanced_text_to_hanwritten.py:35-42 | grid paper has rules exactly at the multiples of 25 in both directions, and no other line: every stroke is a full-height vertical at a multiple of 25 below the width or a full-width horizontal at a multiple of 25 below the height |
| Backgrounds.DrawHorizontalRules | advanced_text_to_hanwritten.py:31-32 | the loop appends the horizontal rules top to bottom |
| Backgrounds.DrawVerticalRules | advanced_text_to_hanwritten.py:38-39 | the loop appends the vertical rules left to right |
| Backgrounds.CreateBackground | advanced_text_to_hanwritten.py:22-42 | no image exactly for an unknown texture or for "Custom" without a picture; otherwise a fresh canvas of exactly the requested size, white or the scaled picture, carrying the texture's rules in drawing order |
| Drawing.Canvas.constructor | advanced_text_to_hanwritten.py:27 | a new canvas has the requested size and fill and nothing drawn on it |
| Drawing.Canvas.DrawLine | advanced_text_to_hanwritten.py:32 | drawing a line appends exactly that line to the recorded strokes |
| Drawing.Canvas.DrawText | advanced_text_to_hanwritten.py:71 | drawing a character appends exactly that character at that position to the recorded strokes |

## Left out

- `main` (lines 78-147): the Streamlit widgets, sliders, uploads, session state, warnings and download button are user-interface plumbing. `main` rejects only the empty string (line 124, `if user_text`), so a text of only spaces is rendered. `Renderer.Render` accepts every text, the empty one included.
- Font loading (`ImageFont.truetype`, lines 18 and 20): the loaded font is a parameter of `Renderer.Render`. `Fonts.FontSourceFor` says which file or byte buffer it comes from. The font size argument is carried by `Fonts.Font.size`. Corrupt or missing font data is a library failure and is not modelled.
- Glyph rasterisation (`getmask`, `getbbox`, `getmetrics`): the font oracle.
  - Each character's mask box is a given map.
  - `get_text_dimensions` is only ever called with one character, so `Fonts.GetTextDimensions` takes a `char`.
  - The ascent is read but never used, as in the source.
  - The height half of the result is computed but never used by the layout, as in the source.
- Decoding and resizing the custom background (`Image.open(...).resize`, lines 24-25): a decoded picture is an abstract `Drawing.Picture`, and the canvas records it as its fill.
  - Missing or undecodable bytes make the source raise. They are modelled as the absent picture, and `Backgrounds.CreateBackground` returns no canvas.
  - An unknown texture makes `create_background` return `None`, and `text_to_handwriting` then fails on `ImageDraw.Draw(None)`. Nothing falls back to a default texture; the model returns no canvas.
- Pixels, colours (light blue, pink, black) and line widths are not modelled; only the drawn coordinates and characters are.
- `random.uniform`: the random offsets are an injected stream of real numbers, and their bound is the hypothesis `Renderer.JitterWithin`. Floating-point rounding of `x + rand_x` is not modelled; the sum is exact in `real`.
- Renderer.Render: line height and letter spacing are natural numbers. The sliders in `main` only produce values from 30 to 100 and from 0 to 20, so negative values are not modelled.
- PNG encoding (lines 129-131) and display (lines 133-140) are output plumbing.
