# plt: a verified model of the figure-layout core

`plt` is a Rust plotting library. A `Figure` holds subplots. Each subplot has
four axes (x, y, secondary x, secondary y) and records the series and filled
regions plotted on it. Drawing a subplot works in steps:

- each axis is *finalized*: its range is resolved (falling back to the
  opposite axis), its major and minor ticks are placed, its tick labels are
  computed with a common multiplier (`x10ⁿ`) and offset, and its grid flags
  are set;
- the margins around the plot area are reserved from the text each side
  carries, and the area is shrunk, ring by ring, to the plot area;
- the series and fills are drawn in the colours two colour cycles hand out.

A separate drawing crate supplies the value types: pixel areas, points,
shapes, the backend's flipped coordinates and clip paths.

This project models those decisions in Dafny and proves what they promise.
The modules follow the crates:

- `Float` is IEEE-style `f64`: NaN, the infinities and finite reals, and
  Rust's NaN-ignoring `min`/`max`.
- `Errors` holds `PltError`, `Result` and `Outcome`.
- `Draw` is plt-draw's `Area`, `Shape`, `CairoPoint`, the odd-width line
  offset and the clip path. The product of a fraction and a `u32` pixel
  count (`t * n as f64`) is `Draw.Scale`, written as repeated addition so
  that the proofs about it stay linear; `Draw.ScaleIsProduct` proves it is
  the product.
- `Seqs` holds the iterator adaptors `zip` and `rev`.
- `Layouts` is `FractionalArea`, `SingleLayout` and `GridLayout`.
- `Subplots` covers:
  - the axis descriptors;
  - series data and the `min`/`max` folds;
  - plot validation;
  - `plot_desc` and `fill_between_desc` on a `Subplot` class;
  - the builder's limit setters.
- `Ticks` covers:
  - `superscript` and `sigdigit`;
  - the integer logic of `tick_modifiers`;
  - tick placement and the minor-tick filter;
  - the range fallback;
  - the label policies and the label-count check;
  - axis finalization.
- `Spacing` covers the margin tables and the nested areas of a subplot.
- `Figures` covers `Figure::set_layout`, finalizing all four axes in order,
  the subplot layout, colour assignment and the outline of a filled region.

Some behaviours of the code are easy to misread; the model follows the
code:

- The minimum margin of a side is three letter widths, used when that side's
  text would take less than two letter widths. Otherwise the margin is the
  gap `buffer_offset` (plt/src/figure.rs:651-661).
- `plot_desc` records every series with `pixel_perfect` false, step plots
  included (plt/src/subplot.rs:198).
- A span of zero extent gets limits equal to the span: the padding is 5% of
  zero (plt/src/subplot.rs:151-166).
- For a given number of major ticks, the count of automatic minor ticks is
  computed in `u16`, so it wraps around (plt/src/figure.rs:536-548).

## Model

| member | source | states |
|---|---|---|
| Draw.Area.XSize | plt-draw/src/lib.rs:37-40 | for an ordered area, `xmin` plus the width is `xmax` |
| Draw.Area.YSize | plt-draw/src/lib.rs:41-44 | for an ordered area, `ymin` plus the height is `ymax` |
| Draw.ScaleIsProduct | plt-draw/src/lib.rs:45-53 | the fraction of a pixel count, written as repeated addition, is the product of the fraction and the count |
| Draw.FractionalToPointCorners | plt-draw/src/lib.rs:45-53 | fraction (0,0) is the bottom-left corner and (1,1) the top-right corner of the area |
| Draw.FractionalToPointInside | plt-draw/src/lib.rs:45-53 | every fraction in the unit square maps to a point inside the area |
| Draw.FractionalToPointAffine | plt-draw/src/lib.rs:45-53 | moving the fraction by (dx, dy) moves the point by dx times the width and dy times the height |
| Draw.Shape.Scaled | plt-draw/src/lib.rs:85-95 | scaling keeps the kind of shape |
| Draw.ShapeCell.Scale | plt-draw/src/lib.rs:87-94 | in place, the shape becomes the old shape scaled by `mult` |
| Draw.ScaledComposes | plt-draw/src/lib.rs:87-94 | scaling by 1 changes nothing; scaling by a then b equals scaling by the wrapped product b·a |
| Draw.FromPointInvolution | plt-draw/src/lib.rs:712-716 | the flip to backend coordinates is its own inverse, reverses vertical order, and sends y = 0 to the figure height |
| Draw.LineOffset | plt-draw/src/lib.rs:491 | the offset is 0.5 exactly for odd widths and 0 otherwise |
| Draw.StrokePointShift | plt-draw/src/lib.rs:516-520 | an odd-width vertex is the even-width vertex of the point moved half a pixel right and up |
| Draw.ClipPath | plt-draw/src/lib.rs:685-702 | the clip path is the flipped corners, in order |
| Draw.ClipPathTracesRectangle | plt-draw/src/lib.rs:689-700 | for a non-empty area the path visits four distinct corners, and each edge (closing edge included) keeps one coordinate |
| Layouts.FractionalArea.Valid | plt/src/layout.rs:152-159 | a valid area has both extents in (0, 1] |
| Layouts.ToAreaWithinFigure | plt/src/layout.rs:144-151 | a valid area maps to pixel bounds within the figure, rounded inward from the fractional bounds |
| Layouts.UnitAreaCoversFigure | plt/src/layout.rs:22-28 | the single layout's area is valid and is the whole figure in pixels |
| Layouts.SingleLayoutSubplots | plt/src/layout.rs:22-28 | a single layout yields exactly its subplot over the unit area |
| Layouts.CellAreaGeometry | plt/src/layout.rs:40-55 | cell (row, col) spans columns col/ncols to (col+1)/ncols, with row 0 at the top |
| Layouts.CellsAdjacentInRow | plt/src/layout.rs:40-55 | horizontally neighbouring cells share their vertical edge |
| Layouts.CellsAdjacentInColumn | plt/src/layout.rs:40-55 | vertically neighbouring cells share their horizontal edge |
| Layouts.TopRowTouchesTop | plt/src/layout.rs:40-55 | the first row reaches the top of the figure |
| Layouts.LeftColumnTouchesLeft | plt/src/layout.rs:40-55 | the first column reaches the left edge |
| Layouts.CellAreaValid | plt/src/layout.rs:40-55 | every cell area passes `valid` |
| Layouts.GridLayout.constructor | plt/src/layout.rs:39-66 | an empty grid: every slot holds the blank subplot and none is drawn |
| Layouts.GridLayout.FromArray | plt/src/layout.rs:68-102 | a slot is drawn exactly when the table gives a subplot there; the others hold the blank subplot |
| Layouts.GridLayout.Insert | plt/src/layout.rs:104-120 | a bad row, then a bad column, is an error that changes nothing; otherwise only that slot is replaced and marked drawn |
| Layouts.GridLayout.Subplots | plt/src/layout.rs:122-132 | the drawn slots' subplots paired with their own areas, in row-major order |
| Layouts.FilterFromPicksMasked | plt/src/layout.rs:124-131 | the filtered positions are exactly the masked ones, strictly increasing |
| Layouts.GridSubplotAreasValid | plt/src/layout.rs:122-132 | every area a grid yields is valid, so `set_layout` accepts any grid |
| Subplots.AxisOrderEnumerates | plt/src/subplot.rs:973-977 | the iteration order lists each of the four axes exactly once |
| Subplots.FoldMin | plt/src/subplot.rs:1043-1045 | the fold never yields NaN, is below every non-NaN value, is one of them or +infinity, and is +infinity when all are NaN |
| Subplots.FoldMax | plt/src/subplot.rs:1046-1048 | the fold never yields NaN, is above every non-NaN value, is one of them or -infinity, and is -infinity when all are NaN |
| Subplots.FlattenWindows | plt/src/subplot.rs:1134 | the flattened windows list edges i and i+1 at positions 2i and 2i+1 |
| Subplots.Doubled | plt/src/subplot.rs:1135 | every y value appears twice in a row |
| Subplots.StepDataSegments | plt/src/subplot.rs:1131-1137 | step data draws each step as the segment from (edge i, y i) to (edge i+1, y i) |
| Subplots.PlotDataPairs | plt/src/subplot.rs:1035-1041 | x/y data draws the pairs (x i, y i) in order |
| Subplots.ExtremesBoundData | plt/src/subplot.rs:1043-1054 | for NaN-free data the extremes bound every value and are attained, and empty data gives (+inf, -inf) |
| Subplots.ValidatePlot | plt/src/subplot.rs:578-586 | plotting is accepted iff the lengths agree and there is no NaN; the errors are checked in the source's order, with its messages |
| Subplots.ValidateStep | plt/src/subplot.rs:630-638 | step data is accepted iff there is one more edge than values and there is no NaN, with errors in the source's order |
| Subplots.FitAxis | plt/src/subplot.rs:151-166 | only span and limits change; manual limits change nothing; automatic limits always end up set |
| Subplots.FitAxisCovers | plt/src/subplot.rs:151-166 | the new span covers the data and the old span, and the limits pad the span by 5% of its extent on each side |
| Subplots.FitAxisZeroExtent | plt/src/subplot.rs:160-163 | a zero-extent span gets limits equal to it |
| Subplots.FitAxisBySpan | plt/src/subplot.rs:151-166 | the result depends on the span alone |
| Subplots.FitAxisIdempotent | plt/src/subplot.rs:151-166 | fitting the same range twice equals fitting it once |
| Subplots.FitAxisCommutative | plt/src/subplot.rs:151-166 | the order in which two ranges are fitted does not matter |
| Subplots.FitSpanCommutes | plt/src/subplot.rs:151-166 | with automatic limits the fitted span is order-independent |
| Subplots.PlotAxesTouchesOwnAxes | plt/src/subplot.rs:145-189 | plotting changes only the two axes the series uses, fitting x to the x extremes and y to the y extremes |
| Subplots.PlotInfoOf | plt/src/subplot.rs:134-199 | the line and marker are kept iff they are enabled; data and axes are copied; `pixel_perfect` is false |
| Subplots.FillInfoOf | plt/src/subplot.rs:206-213 | the fill record copies the descriptor's curves, colour, axes and label |
| Subplots.Subplot.constructor | plt/src/subplot.rs:114-125 | a new subplot takes the descriptor's format, title and axes, with nothing plotted |
| Subplots.Subplot.PlotDesc | plt/src/subplot.rs:129-200 | the axes become the fitted axes and the record is appended; fills, format and title are unchanged |
| Subplots.Subplot.FillBetweenDesc | plt/src/subplot.rs:202-214 | the fill record is appended and nothing else changes |
| Subplots.Subplot.FillBetween | plt/src/subplot.rs:93-105 | it always succeeds and appends a fill with the default settings |
| Subplots.Subplot.Plot | plt/src/subplot.rs:570-593 | the result is the validation outcome; on failure nothing changes; on success the data is plotted |
| Subplots.Subplot.Step | plt/src/subplot.rs:622-645 | the same for step data |
| Subplots.WithLimits | plt/src/subplot.rs:245-252 | only the chosen axis changes; its policy becomes `limits`; manual limits set both span and limits; automatic limits keep them |
| Subplots.ManualLimitsSurvivePlot | plt/src/subplot.rs:245-252 | an axis given manual limits keeps them through any later plot |
| Subplots.SubplotBuilder.constructor | plt/src/subplot.rs:19-21 | the builder starts from the default descriptor |
| Subplots.SubplotBuilder.XLimits | plt/src/subplot.rs:245-252 | sets the x-axis limit policy as `WithLimits` says |
| Subplots.SubplotBuilder.YLimits | plt/src/subplot.rs:290-297 | sets the y-axis limit policy as `WithLimits` says |
| Subplots.SubplotBuilder.SecondaryXLimits | plt/src/subplot.rs:335-342 | sets the secondary x-axis limit policy as `WithLimits` says |
| Subplots.SubplotBuilder.SecondaryYLimits | plt/src/subplot.rs:380-387 | sets the secondary y-axis limit policy as `WithLimits` says |
| Subplots.SubplotBuilder.Build | plt/src/subplot.rs:223-225 | the built subplot has the descriptor's format, title and axes, with nothing plotted |
| Ticks.Superscript | plt/src/figure.rs:216-242 | one superscript digit per decimal digit, with no leading zero |
| Ticks.SuperscriptRoundTrip | plt/src/figure.rs:216-242 | reading the glyphs back as decimal digits gives n |
| Ticks.SuperscriptInjective | plt/src/figure.rs:216-242 | distinct exponents give distinct texts |
| Ticks.ExponentTextAsWritten | plt/src/figure.rs:1032-1037 | the exponent is the multiplier cast to `u16`: a negative multiplier m is drawn as m + 65536 |
| Ticks.NegativeExponentMisdrawn | plt/src/figure.rs:1032-1037 | multiplier -4 is drawn as ⁶⁵⁵³², which reads back as 65532 and is not the intended ⁻⁴ |
| Ticks.ExponentText | plt/src/figure.rs:1032-1037 | a non-negative exponent is its superscript; a negative one is a superscript minus before the digits |
| Ticks.ExponentRoundTrip | plt/src/figure.rs:1032-1037 | the corrected exponent text reads back as the multiplier, sign included |
| Ticks.ModifierTextAsWritten | plt/src/figure.rs:1032-1042 | as the source builds it: empty iff multiplier and offset are both zero; with a multiplier, "x10" then the `u16`-cast exponent text, then " + " and the offset when there is one; otherwise "+ " and the offset |
| Ticks.ModifierMisdrawn | plt/src/figure.rs:1032-1037 | multiplier -4 without an offset is drawn as "x10" followed by the digits of 65532 |
| Ticks.ModifierText | plt/src/figure.rs:1032-1042 | the corrected text: the same layout, with the signed exponent text after "x10" |
| Ticks.ModifierExponentReadsBack | plt/src/figure.rs:1032-1037 | the exponent in the corrected text reads back as the multiplier, sign included |
| Ticks.ModifierTextsAgree | plt/src/figure.rs:1032-1042 | the source's and the corrected texts agree for multipliers in [0, 65536) |
| Ticks.SigDigit | plt/src/figure.rs:179-199 | the two loops compute `SigDigitOf(num)` (zero gives `i32::MIN`) |
| Ticks.SigDigitBounds | plt/src/figure.rs:179-199 | for x > 0, 10^r ≤ x < 10^(r+1) |
| Ticks.SigDigitUnique | plt/src/figure.rs:179-199 | that exponent is the only one bracketing x |
| Ticks.SigDigitBelow | plt/src/figure.rs:179-199 | the digit is below k iff x < 10^k |
| Ticks.RoundToNonNegative | plt/src/figure.rs:212-214 | rounding keeps a non-negative number non-negative |
| Ticks.Difs | plt/src/figure.rs:259-262 | the differences of consecutive ticks, one fewer than the ticks |
| Ticks.ReduceMax | plt/src/figure.rs:264-266 | the reduction returns one of the differences and no difference is larger |
| Ticks.SolveModifiers | plt/src/figure.rs:255-297 | the offset is zero or the first tick; the precision is at most 3 |
| Ticks.TickModifiers | plt/src/figure.rs:244-320 | a NaN tick is the error "tick is NaN" (iff); no ticks give (0, 0, 0); the precision is at most 3 |
| Ticks.MultiplierMeaning | plt/src/figure.rs:281-290 | no multiplier iff the rounded last tick lies in [10^-2, 10^4); otherwise it lies in [10^m, 10^(m+1)) |
| Ticks.PrecisionMeaning | plt/src/figure.rs:292-297 | without a multiplier, the precision plus the leading digit of a rounded last tick ≥ 1 is 3 |
| Ticks.OffsetMeaning | plt/src/figure.rs:274-279 | an offset is used iff the largest step is below 10^(d−3), where d is the last tick's leading digit |
| Ticks.ZeroLastTickForcesOffset | plt/src/figure.rs:255-279 | a last tick of exactly 0 always makes the first tick the offset |
| Ticks.ZeroEndedTicksExample | plt/src/figure.rs:255-279 | the ticks -4..0 get offset -4 |
| Ticks.EvenTicks | plt/src/figure.rs:528-530 | n evenly spread ticks |
| Ticks.EvenTicksSingle | plt/src/figure.rs:528-530 | a single tick is 0/0, that is NaN |
| Ticks.EvenTicksSpacing | plt/src/figure.rs:528-530 | for n ≥ 2 the ticks start at the low end, end at the high end, are finite and are equally spaced |
| Ticks.EvenTickValue | plt/src/figure.rs:529 | tick i is lo + (hi − lo)·i/(n − 1) |
| Ticks.WrapU16 | plt/src/figure.rs:538 | counts below 65536 are unchanged |
| Ticks.MajorCount | plt/src/figure.rs:514-526 | `Count(n)` gives n; none, manual, and automatic on a secondary axis give 0 |
| Ticks.MinorCount | plt/src/figure.rs:536-548 | `Count(n)` gives n; on (or automatic on a primary axis) gives five per major tick; the others give 0 |
| Ticks.MajorTicks | plt/src/figure.rs:510-531 | manual ticks are kept as given; otherwise the count decides the number |
| Ticks.MinorTicks | plt/src/figure.rs:532-553 | the same for minor ticks |
| Ticks.RemoveMajor | plt/src/figure.rs:554-558 | the kept minor ticks come from the minor ticks and equal no major tick |
| Ticks.RemoveMajorSingle | plt/src/figure.rs:554-558 | a single minor tick is dropped exactly when it equals a major tick |
| Ticks.RemoveMajorAppend | plt/src/figure.rs:554-558 | the filter of a concatenation is the concatenation of the filters, so the kept ticks keep their order and repeats |
| Ticks.RemoveMajorKeeps | plt/src/figure.rs:554-558 | every minor tick equal to no major tick is kept |
| Ticks.RemoveMajorIdempotent | plt/src/figure.rs:554-558 | filtering twice is filtering once |
| Ticks.Opposite | plt/src/figure.rs:483-496 | the opposite axis differs and has the same orientation |
| Ticks.OppositeInvolution | plt/src/figure.rs:483-496 | the opposite of the opposite is the axis itself |
| Ticks.ResolveRange | plt/src/figure.rs:478-503 | an axis's own span and limits, else its opposite's, else (-1, 1) for both |
| Ticks.OppositeAxesShareRange | plt/src/figure.rs:478-503 | an unplotted axis draws with the range of its plotted opposite |
| Ticks.IsPrimaryAfterPlot | plt/src/figure.rs:505-508 | after a plot an axis is primary iff it was before or the new series uses it |
| Ticks.NothingPlottedNothingPrimary | plt/src/figure.rs:505-508 | with nothing plotted no axis is primary |
| Ticks.InsertTick | plt/src/figure.rs:337 | insertion adds exactly the one tick |
| Ticks.InsertTickSorted | plt/src/figure.rs:337 | inserting into sorted NaN-free ticks keeps them sorted |
| Ticks.SortTicks | plt/src/figure.rs:336-337 | sorting NaN-free ticks gives a sorted permutation |
| Ticks.TicksToLabels | plt/src/figure.rs:322-360 | NaN is the error (iff); otherwise there is one label per tick, and the labels are the formatted ticks of some sorted permutation |
| Ticks.MajorLabels | plt/src/figure.rs:560-578 | manual labels are kept with no modifiers; unlabelled axes get none; computed labels fail iff a major tick is NaN, and match the tick count and the modifiers |
| Ticks.MinorLabels | plt/src/figure.rs:579-595 | the same for minor labels, computed with the major ticks' modifiers; they fail iff a major or minor tick is NaN |
| Ticks.MatchLabels | plt/src/figure.rs:1159-1175 | no labels mean one empty label per tick; a wrong nonzero count is the error naming the axis (iff); a matching count keeps the labels |
| Ticks.ComputedLabelsMatch | plt/src/figure.rs:1159-1175 | computed major labels always pass the count check |
| Ticks.FinalizeAxis | plt/src/figure.rs:510-601 | an error is a tick-placement error; on success the ticks, filtered minor ticks, grid flags, limits, label and visibility are as the descriptor says |
| Ticks.SingleCountTickFails | plt/src/figure.rs:514-578 | `Count(1)` on a labelled axis fails with "tick is NaN" |
| Spacing.TickLengthsOf | plt/src/figure.rs:385-418 | inner ticks get no outer length and outer ticks no inner length; both directions get equal lengths; minor ticks are half the major length unless overridden |
| Spacing.PresenceOf | plt/src/figure.rs:612-642 | a side has tick labels iff it has major or minor labels, and a modifier iff there is a multiplier or an offset |
| Spacing.AddAxis | plt/src/figure.rs:603-661 | one axis adds its room to the tables, and then its side's margin is set from its side's total |
| Spacing.AddAxisStep | plt/src/figure.rs:470-680 | one more axis in drawing order gives the next closed-form table |
| Spacing.SubplotBuffers | plt/src/figure.rs:435-687 | the loop yields the closed-form tables, and a title adds the gap above the label ring |
| Spacing.MarginAtLeastTwoLetters | plt/src/figure.rs:651-661 | every margin is at least two letters wide, whatever the gap |
| Spacing.YModifierGoesOnTop | plt/src/figure.rs:629-642 | the y axis's modifier takes room on the top side, not the left |
| Spacing.SecondaryModifierAt | plt/src/figure.rs:629-642 | dropping a secondary axis's modifier changes no table entry |
| Spacing.SecondaryModifiersTakeNoRoom | plt/src/figure.rs:629-642 | secondary-axis modifiers take no room at all |
| Spacing.LayoutAreas | plt/src/figure.rs:689-724 | each ring is the previous one inset by its table, and the plot area is the innermost ring |
| Spacing.LayoutNested | plt/src/figure.rs:689-724 | when the margins fit, the rings nest and the plot area's bounds are the area's bounds less the margins |
| Figures.FirstInvalid | plt/src/figure.rs:49-51 | None iff every area is valid; otherwise the first invalid position |
| Figures.Figure.constructor | plt/src/figure.rs:24-41 | a new figure has no subplots and the given size |
| Figures.Figure.SetLayout | plt/src/figure.rs:44-58 | any invalid area is an error reporting the first one, and nothing changes; otherwise the subplots and their pixel areas are appended, inside the figure |
| Figures.CollectInOrder | plt/src/figure.rs:470-680 | succeeds iff every axis does; the error is the first failure in drawing order |
| Figures.FinalizeAxes | plt/src/figure.rs:468-680 | every axis finalized as `FinalizeAxis` says, or the error of the first axis that fails |
| Figures.BufferOffset | plt/src/figure.rs:436 | the gap is the floor of three fifths of the letter height |
| Figures.SubplotLayout | plt/src/figure.rs:420-724 | the error is the first failing axis (iff some axis fails); otherwise the areas come from the tables of the finalized axes, with the gap computed from the letter height |
| Figures.SeriesCycle | plt/src/figure.rs:798-803 | series cycle through the colour cycle, or the default marker colour when it is empty |
| Figures.FillCycle | plt/src/figure.rs:806-811 | fills cycle through the colour cycle at half opacity, or the default fill colour |
| Figures.AssignColors | plt/src/figure.rs:813-948 | each item's colours are those of the closed form `ColorsAt` over what comes before it |
| Figures.FillColorIgnoresSeries | plt/src/figure.rs:796-811 | a fill's colour does not depend on the series |
| Figures.SeriesTakeConsecutiveColors | plt/src/figure.rs:824-880 | a series with both a line and a marker and no overrides takes two consecutive cycle colours |
| Figures.FillDemandCountsDefaults | plt/src/figure.rs:944-948 | without overrides, every fill draws one default colour |
| Figures.FillOutline | plt/src/figure.rs:951 | the outline is the top curve, then the bottom curve reversed |
| Figures.FillOutlineCloses | plt/src/figure.rs:951 | the outline starts and ends at the two curves' first points, and turns at their last points |

## Left out

- Drawing is left out: the Cairo backend, text measurement, file output, and
  every draw command (grid lines, ticks, labels, curves, markers, axis lines,
  the title). The letter size and the scale factor are parameters of
  `Figures.SubplotLayout`; the gap `buffer_offset` is computed from the
  letter height by `Figures.BufferOffset`.
- Float rounding is left out: reals stand in for `f64` values without
  rounding or signed zero. `f32` DPI scaling becomes an integer `scale`, and
  `Figure::new`'s size computation is replaced by taking the pixel size.
- Ticks.TicksToLabels: label formatting (`{:.1$}`, `round_to`, the shift by
  the multiplier) is the parameter `fmt`. Only the order and number of the
  labels are modelled.
- Ticks.SolveModifiers: the per-tick precision (`decimals` and `rposition`)
  is left out, because it depends on float digits. Only its cap
  `max_precision` is modelled.
- Ticks.TickModifiers: requires at least two ticks. With one tick, `reduce`
  over no differences panics.
- Ticks.TickModifiers: requires a non-negative last tick, a non-negative
  largest difference and a non-negative recomputed value. `sigdigit` never
  returns on a negative input.
- Ticks.TickModifiers: the corner where the difference's digit is
  `i32::MIN` arises when the largest difference is zero and the last tick
  is zero (for example ticks 3, 0, 0). Then `3 - i32::MIN` wraps, `powi`
  underflows to 0, `round_to` computes 0/0, which is NaN, and
  `sigdigit(NaN)` is 0. The model gives that recomputed digit 0 directly.
- Ticks.TickModifiers: requires all ticks finite. Most tick lists with an
  infinity never return in the source, because `sigdigit` of an infinity
  loops. Some do return: for ticks -inf, -inf, 1.0 the first difference is
  NaN, `reduce` keeps it, `sigdigit(NaN)` is 0, and the source returns
  offset 0 and multiplier 0. Such inputs are outside the model.
- Ticks.SigDigit: requires `num >= 0`, because the source loops forever on a
  negative number.
- Draw.Area.XSize: the `u32` subtraction wraps as in a release build. A
  debug build panics when `xmax < xmin`.
- Draw.Area.YSize: the `u32` subtraction wraps as in a release build. A
  debug build panics when `ymax < ymin`.
- Draw.Shape.Scaled: the `u32` multiplication wraps as in a release build.
  A debug build panics on overflow.
- Ticks.MinorCount: the `u16` product of five and the major count wraps as
  in a release build. A debug build panics on overflow.
- Ticks.OffsetUsed: `max_multiplier - 3` wraps as in a release build. A
  debug build panics there when the last tick is 0.
- Spacing.SubplotBuffers: the `u32` sums of the tables are unbounded
  integers. A margin past 2^32 pixels would wrap in the source.
- Spacing.LayoutAreas: the `u32` subtractions wrap through
  `Grow`/`Shrink`. Their results are stated only when the margins fit.
- The label-count check runs over the axes in `HashMap` order, so which
  axis's error is reported first is not modelled. Each axis's check is.
- Three of the fields `figure.rs` reads are not declared in this version of
  `subplot.rs`: the plot order, a fill's colour override, and the default
  fill colour. The order is a parameter of `Figures.AssignColors`, and the
  default fill colour a parameter of `Figures.FillCycle`.
- The builder's setters other than the limits, the `Plotter` chain, which
  only fills in a `PlotDescriptor`, and the `_owned` variants, which differ
  only in ownership, are not modelled. The descriptors are given directly.
- A very small valid fractional area can round to a pixel area whose
  minimum exceeds its maximum. The model does not assume the pixel area is
  ordered, and this case is not turned into a finding.

## Findings

| source | as written | input that shows it | evidently intended | confidence | as-written member | corrected member |
|---|---|---|---|---|---|---|
| plt/src/figure.rs:1033 | the exponent of the `x10` modifier is `superscript(label_multiplier as u16)`, so a negative multiplier wraps to 65536 + m | ticks whose rounded last value has leading digit -4 (for example 0.0001 to 0.0005) get multiplier -4, drawn as x10⁶⁵⁵³² | a negative exponent is drawn with a superscript minus, x10⁻⁴ | not executed | Ticks.ModifierMisdrawn | Ticks.ModifierExponentReadsBack |
