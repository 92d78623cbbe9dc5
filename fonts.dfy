/**
 * The font resolver and the per-character metric rule.
 *
 * A loaded font is an abstract metric oracle: its nominal size, its global
 * metrics, and for each character the bounding box of the character's
 * rendered mask. A character the font renders with an empty mask (a space,
 * say) has no bounding box.
 */
module Fonts {
  import opened Wrappers

  /** A mask bounding box (left, upper, right, lower) in pixels. */
  datatype BBox = BBox(left: nat, top: nat, right: nat, bottom: nat)

  /** A font at a given size; `masks` holds the bounding box of every character whose mask is not empty. */
  datatype Font = Font(size: nat, ascent: nat, descent: nat, masks: map<char, BBox>)
  {
    /** The oracle's answer to font.getmask(ch).getbbox(): the recorded box, or None for an empty mask. */
    function MaskBBox(ch: char): Option<BBox>
    {
      if ch in masks then Some(masks[ch]) else None
    }
  }

  /**
   * The (width, height) one character takes in the layout: the right edge of
   * its mask box and the lower edge plus the font's descent, or the nominal
   * size in both axes when the mask is empty.
   */
  function GetTextDimensions(font: Font, ch: char): (dims: (nat, nat))
    ensures ch !in font.masks ==> dims == (font.size, font.size)
    ensures ch in font.masks ==> dims == (font.masks[ch].right, font.masks[ch].bottom + font.descent)
  {
    match font.MaskBBox(ch)
    case None => (font.size, font.size)
    case Some(b) => (b.right, b.bottom + font.descent)
  }

  /** The horizontal advance of one character, the first half of GetTextDimensions. */
  function CharWidth(font: Font, ch: char): nat
  {
    GetTextDimensions(font, ch).0
  }

  /** The built-in style that replaces any name the table does not know. */
  const DefaultStyle: string := "Caveat"

  /** The style name that selects the caller's own font bytes. */
  const CustomStyle: string := "Custom"

  /** The bundled font file of every built-in style. */
  const FontPaths: map<string, string> := map[
    "Caveat" := "fonts/Caveat-Regular.ttf",
    "Indie Flower" := "fonts/IndieFlower-Regular.ttf",
    "Homemade Apple" := "fonts/HomemadeApple-Regular.ttf",
    "Handlee" := "fonts/Handlee-Regular.ttf",
    "Kalam" := "fonts/Kalam-Regular.ttf"
  ]

  /** Where a font is loaded from: the caller's uploaded bytes, or a bundled file. */
  datatype FontSource = Uploaded | Bundled(path: string)

  /** The source get_handwriting_font loads its font from, for a style name. */
  function FontSourceFor(name: string): (src: FontSource)
    ensures src == Uploaded <==> name == CustomStyle
    ensures name != CustomStyle && name in FontPaths ==> src == Bundled(FontPaths[name])
    ensures name != CustomStyle && name !in FontPaths ==> src == Bundled(FontPaths[DefaultStyle])
  {
    if name == CustomStyle then Uploaded
    else if name in FontPaths then Bundled(FontPaths[name])
    else Bundled(FontPaths[DefaultStyle])
  }

  /** Every bundled source is one of the files of the table. */
  lemma BundledIsListed(name: string)
    ensures FontSourceFor(name).Bundled? ==> FontSourceFor(name).path in FontPaths.Values
  {
    if name != CustomStyle && name !in FontPaths {
      assert FontPaths[DefaultStyle] == "fonts/Caveat-Regular.ttf";
    }
  }

  /** Two built-in styles never share a file, so a bundled path names its style. */
  lemma FontPathsInjective(a: string, b: string)
    requires a in FontPaths && b in FontPaths && a != b
    ensures FontPaths[a] != FontPaths[b]
  {
  }

  /**
   * A non-custom name loads the same file as the default style exactly when it
   * is the default style itself or a name the table does not know.
   */
  lemma FallsBackToDefault(name: string)
    requires name != CustomStyle
    ensures FontSourceFor(name) == FontSourceFor(DefaultStyle) <==> name == DefaultStyle || name !in FontPaths
  {
    if name in FontPaths && name != DefaultStyle {
      FontPathsInjective(name, DefaultStyle);
    }
  }
}
