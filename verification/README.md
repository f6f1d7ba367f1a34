# crossterm_progress_bar — a Dafny model

This project models the core of `crossterm_progress_bar`, a Rust library that draws a
one-line progress bar in a terminal and redraws it in place as progress advances. The
model covers:

- the three-glyph **style** (fill, empty and arrow tip). Each glyph is a character with
  presentation attributes. The style's mutators apply a caller-supplied function to one
  glyph;
- the **width** of a bar, either `Stretch` or `Absolute(n)`, and its two conversions,
  from a column count and from the strings `"full"`, `"fill"` and `"stretch"`;
- the **sizing** of the filled and empty parts. The overhead is 10 columns with the
  percentage shown and 3 without it;
- the **bar string** (fill cells, arrow, empty cells) and the **decorated line**
  (`[bar]`, or `[bar] NN.N%`);
- the **progress-bar state**: `value`, `max_value`, `width`, `show_percent` and `style`,
  with its constructors, its clamping progress setter and its in-place and builder setters.

Files:

- `options.dfy`: the `Option` type. `None` stands for the source's panics.
- `style.dfy` (module `Styles`): glyphs, the `Palette` value of a style, and the `Style`
  class.
- `layout.dfy` (module `Layout`): width conversions, sizing, the bar string, the line and
  the whole render computation as pure functions.
- `progress_bar.dfy` (module `Bars`): the `ProgressBar` class.

A string is modelled as the sequence of glyphs it displays. The source's `String` also
contains the escape codes that each styled glyph prints. Those codes are not counted, so
lengths here are display columns.

Sizing uses exact integer arithmetic. The filled width is the floor of
`value * (width - overhead) / max_value`. The source computes the same quantity as an
`f32` product that it then truncates, and rounding can make it differ by one cell
(see "## Left out"). Where the source's unsigned arithmetic overflows, the model returns
`None`. As in a debug build, an overflow stops the program. This happens when the width is smaller
than the overhead, or when a value above the maximum makes the filled part wider than
the usable width. With a zero maximum the model follows the source's float semantics.
A value of 0 gives `0/0 = NaN`, which casts to 0 filled cells. Any other value gives
infinity. Infinity times zero usable columns is NaN, which also casts to 0. Times a
positive width it saturates the cast, and the subtraction that follows overflows.

In three places the model follows behaviour of the code that may surprise a reader:

- A width smaller than the overhead is an overflow (here `None`), not a bar clamped to
  zero cells.
- `with_max_value` does not clamp the value. After it lowers the maximum below the
  value, the next render can overflow (`CalculateBarSizing` returns `None`;
  `Bars.ShrunkMaximumOverflows` exhibits one such bar). While the scaled value still fits,
  an out-of-range value draws a full bar instead (`Layout.OutOfRangeFullBar`).
- With the percentage shown, the line is `width - 5 + |digits|` glyphs long. That is
  exactly `width` for `100.0` and one column short for a four-character percentage such
  as `50.0`.

## Model

| member | source | states |
|---|---|---|
| `Styles.DefaultPalette` | src/progress_bar/style.rs:10-14 | the default style is `=` for fill, a space for empty and `>` for the arrow |
| `Styles.NewPalette` | src/progress_bar/style.rs:17-23 | the three characters go to fill, empty and arrow in argument order, each with no attributes |
| `Styles.StylizedPalette` | src/progress_bar/style.rs:25-35 | the three glyphs are kept verbatim in fill, empty, arrow order |
| `Styles.NewIsStylizedPlain` | src/progress_bar/style.rs:17-35 | `new(a, b, c)` is `new_stylized(plain a, plain b, plain c)` |
| `Styles.MappersCommute` | src/progress_bar/chain.rs:33-58 | applying mutators to two different glyphs gives the same style in either order |
| `Styles.Palette.MapFill` | src/progress_bar/chain.rs:33-40 | the fill glyph becomes `f(fill)`; empty and arrow are unchanged |
| `Styles.Palette.MapEmpty` | src/progress_bar/chain.rs:42-49 | the empty glyph becomes `f(empty)`; fill and arrow are unchanged |
| `Styles.Palette.MapArrow` | src/progress_bar/chain.rs:51-58 | the arrow glyph becomes `f(arrow)`; fill and empty are unchanged |
| `Styles.Style.Default` | src/progress_bar/style.rs:10-14 | a fresh style equals both the default palette and `new('=', ' ', '>')` |
| `Styles.Style.New` | src/progress_bar/style.rs:17-23 | a fresh style holds the three plain characters in fill, empty, arrow order |
| `Styles.Style.NewStylized` | src/progress_bar/style.rs:25-35 | a fresh style's glyphs are those of `StylizedPalette` of its arguments |
| `Styles.Style.WithFill` | src/progress_bar/chain.rs:33-40 | updates the fill glyph in place to `f` of its old value; the other glyphs keep their values |
| `Styles.Style.WithEmpty` | src/progress_bar/chain.rs:42-49 | updates the empty glyph in place to `f` of its old value; the other glyphs keep their values |
| `Styles.Style.WithArrow` | src/progress_bar/chain.rs:51-58 | updates the arrow glyph in place to `f` of its old value; the other glyphs keep their values |
| `Layout.WidthFromColumns` | src/progress_bar.rs:160-164 | a column count becomes an absolute width that resolves to that count whatever the terminal's size |
| `Layout.WidthFromStr` | src/progress_bar.rs:166-172 | a string is accepted exactly when it is `full`, `fill` or `stretch`, and then means Stretch; any other string is rejected (a panic in the source) |
| `Layout.ResolveWidth` | src/progress_bar.rs:91-96 | at render time Stretch takes the terminal's column count and an absolute width its own count |
| `Layout.ResolveConversions` | src/progress_bar.rs:160-172 | a width converted from `n` columns renders `n` columns whatever the terminal's size; a width parsed from a string renders the terminal's column count |
| `Layout.Overhead` | src/progress_bar.rs:125-131 | the reserved columns are the two brackets and the arrow, plus the widest percentage suffix ` 100.0%` when it is shown (10 or 3) |
| `Layout.ScaledFill` | src/progress_bar.rs:125-131 | the filled cell count is the floor of `value / max` times the usable width. It is 0 at value 0 and the whole usable width at the maximum, and never exceeds that width while the value is in range |
| `Layout.ScaledFillMonotone` | src/progress_bar.rs:125-131 | the filled cell count does not decrease as the value grows up to the maximum |
| `Layout.CalculateBarSizing` | src/progress_bar.rs:120-134 | filled + empty equals width minus overhead (10 or 3), and with a nonzero maximum the filled count is the floor of `value / max` times that usable width. Sizing fails exactly when the width is too narrow or the scaled value exceeds the usable width (with a zero maximum: any nonzero value on a nonzero usable width), so only for out-of-range values on a wide enough width. Value 0 or a zero maximum gives no filled cells; value equal to a nonzero maximum gives no empty cells |
| `Layout.OutOfRangeFullBar` | src/progress_bar.rs:126-131 | value 5 of 4 on three usable columns is not an error: 3.75 truncates to three filled cells and no empty ones |
| `Layout.OutOfRangeOverflow` | src/progress_bar.rs:126-131 | value 10 of 5 on ten usable columns would fill twenty cells, so the subtraction overflows |
| `Layout.FilledMonotone` | src/progress_bar.rs:120-134 | with the value in range, sizing succeeds and the filled part grows with the value |
| `Layout.Repeat` | src/progress_bar.rs:139-141 | `n` copies of the glyph, and nothing else |
| `Layout.GenerateBarString` | src/progress_bar.rs:136-143 | the bar has `filled + 1 + empty` glyphs: fill at `[0, filled)`, the arrow at `filled`, empty after it |
| `Layout.Draw` | src/progress_bar.rs:145-158 | the line is `[`, the bar, `]`. With the percentage shown it continues with a space, the digits and `%`. Its length follows from these parts |
| `Layout.RenderLine` | src/progress_bar.rs:86-112 | render succeeds exactly when sizing does. Without the percentage the line fills the resolved width exactly; with it, the line is `width - 5 + |digits|` long |
| `Layout.HalfwayWithoutPercent` | src/progress_bar.rs:120-155 | value 2 of 4 on 13 columns without percentage displays `[=====>     ]` |
| `Layout.HalfwayWithPercent` | src/progress_bar.rs:120-155 | value 2 of 4 on 20 columns with percentage displays `[=====>     ] 50.0%` |
| `Bars.Clamp` | src/progress_bar.rs:56-68 | the stored progress is the new value when it is in range and the maximum otherwise, so it never exceeds the maximum |
| `Bars.ClampIdempotent` | src/progress_bar.rs:55-73 | clamping an already clamped value changes nothing, and a value is kept exactly when it is in range |
| `Bars.ProgressBar.New` | src/progress_bar.rs:29-37 | a new bar is at value 0 of `max_value`, stretches, shows the percentage and has the default style |
| `Bars.ProgressBar.NewAt` | src/progress_bar.rs:40-52 | fails exactly when progress exceeds the maximum; otherwise it is the state of `new(max_value)` with the given value, so `new(m)` is `new_at(0, m)` |
| `Bars.ProgressBar.SetProgress` | src/progress_bar.rs:55-73 | value becomes the clamped input, so the bar is in range afterwards. Nothing else changes, so a second call with the same input leaves the same state. It redraws unless the input is out of range and the value already equals the maximum |
| `Bars.ProgressBar.WithShowPercent` | src/progress_bar/chain.rs:7-14 | only the percent flag changes |
| `Bars.ProgressBar.WithWidth` | src/progress_bar/chain.rs:17-23 | only the width changes |
| `Bars.ProgressBar.WithMaxValue` | src/progress_bar/chain.rs:25-29 | only the maximum changes. The value is not clamped, so the bar stays in range exactly when the value does not exceed the new maximum |
| `Bars.ShrunkMaximumOverflows` | src/progress_bar/chain.rs:25-29 | a bar at 10 of 10 whose maximum is lowered to 5 keeps value 10, and its next render on 13 columns without percentage overflows |
| `Bars.ProgressBar.SetWidth` | src/progress_bar.rs:76-79 | the builder form of WithWidth: the same state change, returning the same bar |
| `Bars.ProgressBar.SetShowPercent` | src/progress_bar.rs:81-84 | the builder form of WithShowPercent: the same state change, returning the same bar |
| `Bars.ProgressBar.Render` | src/progress_bar.rs:86-112 | computes the line that `render` prints from the current state. An in-range bar at least as wide as the overhead always renders, and without the percentage it fills its width exactly |

## Left out

- Terminal I/O is not modelled: saving and restoring the cursor, printing the styled
  line, flushing, and `clear_line` (src/progress_bar.rs:105-117). `Render` returns the
  line instead of writing it.
- The terminal size query (src/progress_bar.rs:93) is the `termCols` parameter. The
  query's failure and its 16-bit column count are not modelled.
- Render errors are not modelled: `set_progress` propagates them, and `with_show_percent`
  panics on them. `SetProgress` returns only whether a redraw happens. `WithShowPercent`
  models only the state change, without the eager line clear and re-render
  (src/progress_bar/chain.rs:10-11).
- CalculateBarSizing: the ratio `value / max_value` and its product with the usable width
  are exact, not `f32`. The source's filled count can be one lower or one higher than the
  model's at ordinary sizes (1 of 41 on 41 columns: 0 against 1; 975038 of 1000039 on 80
  columns: 78 against 77). Only with a usable width above 2^24 can an in-range sizing
  overflow in the source, which the model does not capture (16777219 rounds up to
  16777220 at the maximum).
- Render: the percentage's one-decimal float formatting (src/progress_bar.rs:152) is the
  `percentDigits` parameter and is not computed. Release builds wrap unsigned overflow
  instead of panicking; the model treats every overflow as a failure (`None`).
- Integer widths are `nat`, not `usize`. The 64-bit upper bound plays no part in the
  model's sizing.
- The debug-build diagnostic printed for an out-of-range progress
  (src/progress_bar.rs:57-58) is a side effect with no state.
- `impl Into<Width>` for the width setters: `WithWidth` and `SetWidth` take a `Width`.
  The caller converts first with `WidthFromColumns` or `WidthFromStr`, and a rejected
  string is `None` there.
- ProgressBar.style: the style is a separate `Style` object that each bar is assumed to
  own alone. The source holds it by value, so no two bars can share one; the model does not
  rule out two bars sharing a `Style`, through which a mutator would change both.
- Glyph attributes are opaque codes. Colours and the crossterm styling API are not
  modelled.
- src/error.rs, src/main.rs and the two example programs are demo and error-wrapper
  code and are not part of this model.
