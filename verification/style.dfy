/**
  The three glyphs a progress bar is drawn with (src/progress_bar/style.rs) and the
  mutators that transform one glyph at a time (the `impl Style` of src/progress_bar/chain.rs).
*/
module Styles {

  import opened Options

  /** The presentation attributes of a styled character: optional foreground, background
      and underline colours and a set of attributes (bold, dim, ...). Colours and
      attributes are kept as opaque codes. */
  datatype Attrs = Attrs(foreground: Option<nat>, background: Option<nat>, underline: Option<nat>,
                         attributes: set<nat>)

  /** The attributes of a character that was styled without any colour or attribute. */
  const NoAttrs := Attrs(None, None, None, {})

  /** A single display character with its attributes. */
  datatype Glyph = Glyph(ch: char, attrs: Attrs)

  /** A character with no attributes applied. */
  function Plain(c: char): Glyph
  {
    Glyph(c, NoAttrs)
  }

  /** The value of a style: its fill, empty and arrow glyphs. */
  datatype Palette = Palette(fill: Glyph, empty: Glyph, arrow: Glyph)
  {
    /** Applies `f` to the fill glyph. */
    function MapFill(f: Glyph -> Glyph): (p: Palette)
      ensures p.fill == f(fill) && p.empty == empty && p.arrow == arrow
    {
      this.(fill := f(fill))
    }

    /** Applies `f` to the empty glyph. */
    function MapEmpty(f: Glyph -> Glyph): (p: Palette)
      ensures p.empty == f(empty) && p.fill == fill && p.arrow == arrow
    {
      this.(empty := f(empty))
    }

    /** Applies `f` to the arrow glyph. */
    function MapArrow(f: Glyph -> Glyph): (p: Palette)
      ensures p.arrow == f(arrow) && p.fill == fill && p.empty == empty
    {
      this.(arrow := f(arrow))
    }
  }

  /** The palette of a style built from three characters, in fill, empty, arrow order,
      none of them carrying attributes. */
  function NewPalette(fill: char, empty: char, arrow: char): (p: Palette)
    ensures p.fill.ch == fill && p.empty.ch == empty && p.arrow.ch == arrow
    ensures p.fill.attrs == p.empty.attrs == p.arrow.attrs == NoAttrs
  {
    Palette(Plain(fill), Plain(empty), Plain(arrow))
  }

  /** The palette of a style built from three glyphs, stored verbatim in fill, empty,
      arrow order. */
  function StylizedPalette(fill: Glyph, empty: Glyph, arrow: Glyph): (p: Palette)
    ensures p.fill == fill && p.empty == empty && p.arrow == arrow
  {
    Palette(fill, empty, arrow)
  }

  /** The default palette: `=` for filled cells, a space for empty ones, `>` for the tip. */
  function DefaultPalette(): (p: Palette)
    ensures p.fill.ch == '=' && p.empty.ch == ' ' && p.arrow.ch == '>'
  {
    NewPalette('=', ' ', '>')
  }

  /** Building from plain characters is building from the same characters with no attributes. */
  lemma NewIsStylizedPlain(fill: char, empty: char, arrow: char)
    ensures NewPalette(fill, empty, arrow) == StylizedPalette(Plain(fill), Plain(empty), Plain(arrow))
  {
  }

  /** Mutators of different glyphs commute. */
  lemma MappersCommute(p: Palette, f: Glyph -> Glyph, g: Glyph -> Glyph)
    ensures p.MapFill(f).MapEmpty(g) == p.MapEmpty(g).MapFill(f)
    ensures p.MapFill(f).MapArrow(g) == p.MapArrow(g).MapFill(f)
    ensures p.MapEmpty(f).MapArrow(g) == p.MapArrow(g).MapEmpty(f)
  {
  }

  /** A style whose glyphs are updated in place. */
  class Style {
    var fillChar: Glyph
    var emptyChar: Glyph
    var arrowChar: Glyph

    /** The current glyphs of this style. */
    function View(): Palette
      reads this
    {
      Palette(fillChar, emptyChar, arrowChar)
    }

    /** `Style::default()`, which is `Style::new('=', ' ', '>')`. */
    constructor Default()
      ensures View() == DefaultPalette() == NewPalette('=', ' ', '>')
    {
      fillChar, emptyChar, arrowChar := Plain('='), Plain(' '), Plain('>');
    }

    /** A style of three plain characters, in fill, empty, arrow order. */
    constructor New(fill: char, empty: char, arrow: char)
      ensures View() == NewPalette(fill, empty, arrow)
    {
      fillChar, emptyChar, arrowChar := Plain(fill), Plain(empty), Plain(arrow);
    }

    /** A style of three glyphs stored verbatim, in fill, empty, arrow order. */
    constructor NewStylized(fill: Glyph, empty: Glyph, arrow: Glyph)
      ensures View() == StylizedPalette(fill, empty, arrow)
    {
      fillChar, emptyChar, arrowChar := fill, empty, arrow;
    }

    /** Replaces the fill glyph by `f` of it; the other glyphs stay. */
    method WithFill(f: Glyph -> Glyph)
      modifies this
      ensures fillChar == f(old(fillChar))
      ensures emptyChar == old(emptyChar) && arrowChar == old(arrowChar)
      ensures View() == old(View()).MapFill(f)
    {
      fillChar := f(fillChar);
    }

    /** Replaces the empty glyph by `f` of it; the other glyphs stay. */
    method WithEmpty(f: Glyph -> Glyph)
      modifies this
      ensures emptyChar == f(old(emptyChar))
      ensures fillChar == old(fillChar) && arrowChar == old(arrowChar)
      ensures View() == old(View()).MapEmpty(f)
    {
      emptyChar := f(emptyChar);
    }

    /** Replaces the arrow glyph by `f` of it; the other glyphs stay. */
    method WithArrow(f: Glyph -> Glyph)
      modifies this
      ensures arrowChar == f(old(arrowChar))
      ensures fillChar == old(fillChar) && emptyChar == old(emptyChar)
      ensures View() == old(View()).MapArrow(f)
    {
      arrowChar := f(arrowChar);
    }
  }
}
