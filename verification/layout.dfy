/**
  The pure half of src/progress_bar.rs: width specifiers, the sizing of the filled and
  empty parts, the bar string and the decorated line. A string is modelled as the
  sequence of glyphs it displays; the source's `String` also carries the escape codes
  of each styled glyph, which this model does not count.
*/
module Layout {

  import opened Options
  import opened Styles

  /** How many terminal columns a bar spans. */
  datatype Width = Stretch | Absolute(columns: nat)

  /** `Width::from(n)` for a column count. */
  function WidthFromColumns(n: nat): (w: Width)
    ensures w.Absolute? && forall termCols :: ResolveWidth(w, termCols) == n
  {
    Absolute(n)
  }

  /** `Width::from(s)` for a string: `"full"`, `"fill"` and `"stretch"` mean Stretch;
      every other string panics in the source, here None. */
  function WidthFromStr(s: string): (r: Option<Width>)
    ensures r.Some? <==> s in {"full", "fill", "stretch"}
    ensures r.Some? ==> r.value == Stretch
  {
    match s
    case "full" => Some(Stretch)
    case "fill" => Some(Stretch)
    case "stretch" => Some(Stretch)
    case _ => None
  }

  /** The number of columns a width stands for at render time; `termCols` is the
      terminal's column count at that moment. */
  function ResolveWidth(w: Width, termCols: nat): (columns: nat)
    ensures w.Stretch? ==> columns == termCols
    ensures w.Absolute? ==> columns == w.columns
  {
    match w
    case Stretch => termCols
    case Absolute(n) => n
  }

  /** A width given as a column count resolves to that count whatever the terminal,
      and a width parsed from a string resolves to the terminal's column count. */
  lemma ResolveConversions(n: nat, s: string, termCols: nat)
    ensures ResolveWidth(WidthFromColumns(n), termCols) == n
    ensures WidthFromStr(s).Some? ==> ResolveWidth(WidthFromStr(s).value, termCols) == termCols
  {
  }

  /** Columns reserved for everything but the fill and empty cells: the two brackets,
      the arrow and, when shown, the widest percentage suffix ` 100.0%`. */
  function Overhead(showPercent: bool): (columns: nat)
    ensures columns == |"[]"| + 1 + (if showPercent then |" 100.0%"| else 0)
  {
    if showPercent then 10 else 3
  }

  /** The number of filled and empty cells of a bar. */
  datatype Sizing = Sizing(filled: nat, empty: nat)

  lemma MulMonotone(a: nat, b: nat, c: nat)
    requires a <= b
    ensures a * c <= b * c
  {
  }

  /** A multiple of `d` no larger than `b` is at most `b / d` times `d`. */
  lemma DivLower(q: nat, b: nat, d: nat)
    requires d > 0 && q * d <= b
    ensures q <= b / d
  {
    var r := b / d;
    assert b == r * d + b % d;
    assert (r + 1) * d == r * d + d;
    if q > r {
      MulMonotone(r + 1, q, d);
    }
  }

  /** Dividing anything up to `u * d` by `d` gives at most `u`. */
  lemma DivUpper(x: nat, u: nat, d: nat)
    requires d > 0 && x <= u * d
    ensures x / d <= u
  {
    var q := x / d;
    assert x == q * d + x % d;
    assert (u + 1) * d == u * d + d;
    if q > u {
      MulMonotone(u + 1, q, d);
    }
  }

  lemma DivMonotone(a: nat, b: nat, d: nat)
    requires a <= b && d > 0
    ensures a / d <= b / d
  {
    var q := a / d;
    assert a == q * d + a % d;
    DivLower(q, b, d);
  }

  /** Scaling by `usable / d` is monotone, and scaling `d` itself gives `usable`. */
  lemma ScaleBounds(v1: nat, v2: nat, d: nat, usable: nat)
    requires v1 <= v2 <= d && d > 0
    ensures v1 * usable / d <= v2 * usable / d <= usable
    ensures d * usable / d == usable
  {
    MulMonotone(v1, v2, usable);
    DivMonotone(v1 * usable, v2 * usable, d);
    MulMonotone(v2, d, usable);
    assert d * usable == usable * d;
    DivUpper(v2 * usable, usable, d);
    DivUpper(d * usable, usable, d);
    DivLower(usable, d * usable, d);
  }

  /** The quotient `x / d` is the largest multiple count of `d` not above `x`. */
  lemma FloorDiv(x: nat, d: nat)
    requires d > 0
    ensures (x / d) * d <= x < (x / d + 1) * d
  {
    var q := x / d;
    assert x == q * d + x % d;
    assert (q + 1) * d == q * d + d;
  }

  /** The source computes `(value as f32 / max_value as f32 * usable as f32) as usize`;
      this is its exact-integer counterpart, for a nonzero maximum: the floor of
      `value / maxValue` times the usable width. The filled cells are none at value 0,
      all of them at the maximum and never more while in range. */
  function ScaledFill(value: nat, maxValue: nat, usable: nat): (filled: nat)
    requires maxValue > 0
    ensures filled * maxValue <= value * usable < (filled + 1) * maxValue
    ensures value == 0 ==> filled == 0
    ensures value <= maxValue ==> filled <= usable
    ensures value == maxValue ==> filled == usable
  {
    FloorDiv(value * usable, maxValue);
    if value <= maxValue then
      ScaleBounds(value, value, maxValue, usable);
      value * usable / maxValue
    else
      value * usable / maxValue
  }

  /** The filled cells grow with the value. */
  lemma ScaledFillMonotone(v1: nat, v2: nat, maxValue: nat, usable: nat)
    requires v1 <= v2 <= maxValue && maxValue > 0
    ensures ScaledFill(v1, maxValue, usable) <= ScaledFill(v2, maxValue, usable)
  {
    ScaleBounds(v1, v2, maxValue, usable);
  }

  /** `calculate_bar_sizing`, with the ratio `value / max_value` taken exactly. None
      stands for the source's unsigned-subtraction overflow: the width is smaller than
      the overhead, or the filled cells exceed the usable width. With a zero maximum the
      source's ratio is NaN (value 0) or infinity: NaN and infinity times zero columns
      cast to 0 filled cells, infinity times a nonzero width saturates and overflows. */
  function CalculateBarSizing(showPercent: bool, value: nat, maxValue: nat, width: nat): (r: Option<Sizing>)
    ensures r.Some? ==> width >= Overhead(showPercent)
                        && r.value.filled + r.value.empty == width - Overhead(showPercent)
    ensures r.None? ==> width < Overhead(showPercent) || value > maxValue
    ensures width >= Overhead(showPercent) && value <= maxValue ==> r.Some?
    ensures r.Some? && (value == 0 || maxValue == 0) ==> r.value.filled == 0
    ensures r.Some? && value == maxValue > 0 ==> r.value.empty == 0
    ensures r.Some? && maxValue > 0 ==>
              r.value.filled * maxValue <= value * (width - Overhead(showPercent)) < (r.value.filled + 1) * maxValue
    ensures maxValue > 0 && width >= Overhead(showPercent) ==>
              (r.None? <==> value * (width - Overhead(showPercent)) / maxValue > width - Overhead(showPercent))
    ensures maxValue == 0 && width >= Overhead(showPercent) ==>
              (r.None? <==> value > 0 && width > Overhead(showPercent))
  {
    var overhead := Overhead(showPercent);
    if width < overhead then None
    else
      var usable := width - overhead;
      if maxValue == 0 then
        if value == 0 || usable == 0 then Some(Sizing(0, usable)) else None
      else
        var filled := ScaledFill(value, maxValue, usable);
        if filled > usable then None
        else
          Some(Sizing(filled, usable - filled))
  }

  /** Out of range the source still draws while the scaled value fits: 5 of 4 on three
      usable columns truncates 3.75 to a full bar. */
  lemma OutOfRangeFullBar()
    ensures CalculateBarSizing(false, 5, 4, 6) == Some(Sizing(3, 0))
  {
    assert ScaledFill(5, 4, 3) == 3;
  }

  /** Out of range the sizing overflows once the scaled value exceeds the usable width:
      10 of 5 on ten usable columns would fill twenty. */
  lemma OutOfRangeOverflow()
    ensures CalculateBarSizing(false, 10, 5, 13).None?
  {
    assert ScaledFill(10, 5, 10) == 20;
  }

  /** The filled part never shrinks as the value grows towards the maximum. */
  lemma FilledMonotone(showPercent: bool, v1: nat, v2: nat, maxValue: nat, width: nat)
    requires v1 <= v2 <= maxValue && maxValue > 0 && width >= Overhead(showPercent)
    ensures CalculateBarSizing(showPercent, v1, maxValue, width).Some?
    ensures CalculateBarSizing(showPercent, v2, maxValue, width).Some?
    ensures CalculateBarSizing(showPercent, v1, maxValue, width).value.filled
            <= CalculateBarSizing(showPercent, v2, maxValue, width).value.filled
  {
    ScaledFillMonotone(v1, v2, maxValue, width - Overhead(showPercent));
  }

  /** `n` copies of one glyph (`str::repeat` of its display text). */
  function Repeat(g: Glyph, n: nat): (r: seq<Glyph>)
    ensures |r| == n
    ensures forall i :: 0 <= i < n ==> r[i] == g
  {
    if n == 0 then [] else [g] + Repeat(g, n - 1)
  }

  /** `generate_bar_string`: the filled cells, the arrow tip, then the empty cells. */
  function GenerateBarString(style: Palette, sizing: Sizing): (bar: seq<Glyph>)
    ensures |bar| == sizing.filled + 1 + sizing.empty
    ensures forall i :: 0 <= i < sizing.filled ==> bar[i] == style.fill
    ensures bar[sizing.filled] == style.arrow
    ensures forall i :: sizing.filled < i < |bar| ==> bar[i] == style.empty
  {
    Repeat(style.fill, sizing.filled) + [style.arrow] + Repeat(style.empty, sizing.empty)
  }

  /** Text written without attributes. */
  function Text(s: string): (r: seq<Glyph>)
    ensures |r| == |s|
    ensures forall i :: 0 <= i < |s| ==> r[i] == Plain(s[i])
  {
    if s == [] then [] else [Plain(s[0])] + Text(s[1..])
  }

  /** The characters a line of glyphs displays. */
  function Chars(line: seq<Glyph>): string
  {
    seq(|line|, i requires 0 <= i < |line| => line[i].ch)
  }

  /** The line `draw` prints: the bar in brackets and, when the percentage is shown, a
      space, the percentage's digits (`percentDigits`, the one-decimal rendering of the
      ratio times 100) and a percent sign. */
  function Draw(showPercent: bool, bar: seq<Glyph>, percentDigits: string): (line: seq<Glyph>)
    ensures |line| == |bar| + 2 + (if showPercent then |percentDigits| + 2 else 0)
    ensures line[0] == Plain('[') && line[|bar| + 1] == Plain(']')
    ensures forall i :: 0 <= i < |bar| ==> line[i + 1] == bar[i]
    ensures showPercent ==> line[|bar| + 2] == Plain(' ') && line[|line| - 1] == Plain('%')
    ensures showPercent ==> forall i :: 0 <= i < |percentDigits| ==> line[|bar| + 3 + i] == Plain(percentDigits[i])
  {
    var open, close := [Plain('[')], [Plain(']')];
    if showPercent then open + bar + close + [Plain(' ')] + Text(percentDigits) + [Plain('%')]
    else open + bar + close
  }

  /** The line a render would print, or None where the source's sizing overflows. */
  function RenderLine(value: nat, maxValue: nat, width: Width, showPercent: bool, style: Palette,
                      termCols: nat, percentDigits: string): (line: Option<seq<Glyph>>)
    ensures line.Some? && !showPercent ==> |line.value| == ResolveWidth(width, termCols)
    ensures line.Some? && showPercent ==> |line.value| + 5 == ResolveWidth(width, termCols) + |percentDigits|
    ensures line.None? <==> CalculateBarSizing(showPercent, value, maxValue, ResolveWidth(width, termCols)).None?
  {
    var columns := ResolveWidth(width, termCols);
    match CalculateBarSizing(showPercent, value, maxValue, columns)
    case None => None
    case Some(sizing) => Some(Draw(showPercent, GenerateBarString(style, sizing), percentDigits))
  }

  /** Value 2 of 4 fills half of ten usable columns. */
  lemma HalfwaySizing(showPercent: bool)
    ensures CalculateBarSizing(showPercent, 2, 4, Overhead(showPercent) + 10) == Some(Sizing(5, 5))
  {
    assert ScaledFill(2, 4, 10) == 5;
  }

  /** The characters of a half-filled ten-column bar, drawn without percentage. */
  lemma HalfwayCharsWithoutPercent()
    ensures Chars(Draw(false, GenerateBarString(DefaultPalette(), Sizing(5, 5)), "")) == "[=====>     ]"
  {
    var bar := GenerateBarString(DefaultPalette(), Sizing(5, 5));
    var line := Draw(false, bar, "");
    assert forall i :: 1 <= i < 12 ==> line[i] == bar[i - 1];
  }

  /** The characters of a half-filled ten-column bar, drawn with percentage `50.0`. */
  lemma HalfwayCharsWithPercent()
    ensures Chars(Draw(true, GenerateBarString(DefaultPalette(), Sizing(5, 5)), "50.0")) == "[=====>     ] 50.0%"
  {
    var bar := GenerateBarString(DefaultPalette(), Sizing(5, 5));
    var line := Draw(true, bar, "50.0");
    assert forall i :: 1 <= i < 12 ==> line[i] == bar[i - 1];
    assert forall i :: 14 <= i < 18 ==> line[i] == Plain("50.0"[i - 14]);
  }

  /** Two of four steps on a 13-column bar without percentage: five filled cells, the
      tip and five empty cells. */
  lemma HalfwayWithoutPercent(termCols: nat)
    ensures var line := RenderLine(2, 4, Absolute(13), false, DefaultPalette(), termCols, "");
            line.Some? && Chars(line.value) == "[=====>     ]"
  {
    HalfwaySizing(false);
    HalfwayCharsWithoutPercent();
  }

  /** The same bar on 20 columns with the percentage shown. */
  lemma HalfwayWithPercent(termCols: nat)
    ensures var line := RenderLine(2, 4, Absolute(20), true, DefaultPalette(), termCols, "50.0");
            line.Some? && Chars(line.value) == "[=====>     ] 50.0%"
  {
    HalfwaySizing(true);
    HalfwayCharsWithPercent();
  }
}
