/**
  The progress bar's state (src/progress_bar.rs) and its in-place setters
  (src/progress_bar/chain.rs). Terminal output is not modelled: rendering yields the
  line that would be printed.
*/
module Bars {

  import opened Options
  import opened Styles
  import opened Layout

  /** The value `set_progress(v)` stores: `v` itself when it is in range, the maximum
      otherwise. */
  function Clamp(v: nat, maxValue: nat): (r: nat)
    ensures r <= maxValue
    ensures r == v || r == maxValue
    ensures v <= maxValue ==> r == v
  {
    if v > maxValue then maxValue else v
  }

  /** Clamping twice is clamping once, and clamping an in-range value keeps it. */
  lemma ClampIdempotent(v: nat, maxValue: nat)
    ensures Clamp(Clamp(v, maxValue), maxValue) == Clamp(v, maxValue)
    ensures Clamp(v, maxValue) == v <==> v <= maxValue
  {
  }

  class ProgressBar {
    var value: nat
    var maxValue: nat
    var width: Width
    var showPercent: bool
    var style: Style

    /** The intended state: the value does not exceed the maximum. */
    predicate InRange()
      reads this
    {
      value <= maxValue
    }

    /** The state of a newly built bar at value `v` of `m`: spanning the terminal,
        showing the percentage, with the default style. */
    predicate Initial(v: nat, m: nat)
      reads this, style
    {
      value == v && maxValue == m && width == Stretch && showPercent
      && style.View() == DefaultPalette()
    }

    /** `ProgressBar::new(max_value)`: a bar at value 0. */
    constructor New(maxValue: nat)
      ensures Initial(0, maxValue) && InRange()
      ensures fresh(style)
    {
      value := 0;
      this.maxValue := maxValue;
      width := Stretch;
      showPercent := true;
      style := new Style.Default();
    }

    /** `ProgressBar::new_at(progress, max_value)`: fails (the source panics) exactly
        when the progress exceeds the maximum, and otherwise is `New(maxValue)` at value
        `progress`. */
    static method NewAt(progress: nat, maxValue: nat) returns (bar: Option<ProgressBar>)
      ensures bar.None? <==> progress > maxValue
      ensures bar.Some? ==> fresh(bar.value) && fresh(bar.value.style)
                            && bar.value.Initial(progress, maxValue) && bar.value.InRange()
    {
      if progress > maxValue {
        return None;
      }
      var b := new ProgressBar.New(maxValue);
      b.value := progress;
      bar := Some(b);
    }

    /** `set_progress(v)`: stores `v`, clamped to the maximum; an out-of-range `v` is not
        an error. `redraw` tells whether the source re-renders: always for an in-range
        `v`, and for an out-of-range one only if the value was not already the maximum. */
    method SetProgress(v: nat) returns (redraw: bool)
      modifies this
      ensures value == Clamp(v, maxValue) && InRange()
      ensures maxValue == old(maxValue) && width == old(width)
      ensures showPercent == old(showPercent) && style == old(style)
      ensures redraw <==> v <= maxValue || old(value) != maxValue
    {
      if v > maxValue {
        redraw := value != maxValue;
        if redraw {
          value := maxValue;
        }
        return;
      }
      value := v;
      redraw := true;
    }

    /** `with_show_percent(b)`, state part: only the percent flag changes. */
    method WithShowPercent(b: bool)
      modifies this
      ensures showPercent == b
      ensures value == old(value) && maxValue == old(maxValue) && width == old(width) && style == old(style)
    {
      showPercent := b;
    }

    /** `with_width(w)`: only the width changes; the conversion of a column count or a
        string into a width is WidthFromColumns or WidthFromStr. */
    method WithWidth(w: Width)
      modifies this
      ensures width == w
      ensures value == old(value) && maxValue == old(maxValue) && showPercent == old(showPercent)
      ensures style == old(style)
    {
      width := w;
    }

    /** `with_max_value(m)`: only the maximum changes, and the value is not clamped, so
        the bar stays in range exactly when its value does not exceed `m`. */
    method WithMaxValue(m: nat)
      modifies this
      ensures maxValue == m && value == old(value)
      ensures InRange() <==> old(value) <= m
      ensures width == old(width) && showPercent == old(showPercent) && style == old(style)
    {
      maxValue := m;
    }

    /** `set_width(w)`: the consuming builder form of WithWidth, returning the bar. */
    method SetWidth(w: Width) returns (self: ProgressBar)
      modifies this
      ensures self == this && width == w
      ensures value == old(value) && maxValue == old(maxValue) && showPercent == old(showPercent)
      ensures style == old(style)
    {
      WithWidth(w);
      self := this;
    }

    /** `set_show_percent(b)`: the consuming builder form of WithShowPercent. */
    method SetShowPercent(b: bool) returns (self: ProgressBar)
      modifies this
      ensures self == this && showPercent == b
      ensures value == old(value) && maxValue == old(maxValue) && width == old(width) && style == old(style)
    {
      WithShowPercent(b);
      self := this;
    }

    /** The line `render` prints from the current state (`termCols` stands for the
        terminal's column count).
        None where the source's sizing overflows; an in-range bar that is wide enough
        always renders, and without percentage it fills its width exactly. */
    method Render(termCols: nat, percentDigits: string) returns (line: Option<seq<Glyph>>)
      ensures line == RenderLine(value, maxValue, width, showPercent, style.View(), termCols, percentDigits)
      ensures InRange() && ResolveWidth(width, termCols) >= Overhead(showPercent) ==> line.Some?
      ensures line.Some? && !showPercent ==> |line.value| == ResolveWidth(width, termCols)
    {
      line := RenderLine(value, maxValue, width, showPercent, style.View(), termCols, percentDigits);
    }
  }

  /** A bar at 10 of 10 whose maximum is lowered to 5 keeps its value, and on 13 columns
      without percentage its next render overflows. */
  method ShrunkMaximumOverflows(termCols: nat, percentDigits: string) returns (line: Option<seq<Glyph>>)
    ensures line.None?
  {
    var made := ProgressBar.NewAt(10, 10);
    var bar := made.value;
    bar.WithMaxValue(5);
    bar.WithWidth(Absolute(13));
    bar.WithShowPercent(false);
    assert !bar.InRange();
    OutOfRangeOverflow();
    line := bar.Render(termCols, percentDigits);
  }
}
