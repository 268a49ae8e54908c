/** The figure: the subplots it holds with their pixel areas, and the parts
    of drawing a subplot that decide things rather than emit drawing
    commands: finalizing its four axes, the room around its plot area, the
    colours each series and fill is drawn with, and the outline of a
    filled region. */
module Figures {
  import opened Float
  import opened Errors
  import opened Draw
  import opened Seqs
  import opened Layouts
  import opened Subplots
  import opened Ticks
  import opened Spacing

  // ---------------------------------------------------------------------
  // Layout of the figure

  function Firsts<A, B>(ps: seq<(A, B)>): (r: seq<A>)
    ensures |r| == |ps| && forall i :: 0 <= i < |ps| ==> r[i] == ps[i].0
  {
    seq(|ps|, i requires 0 <= i < |ps| => ps[i].0)
  }

  function Seconds<A, B>(ps: seq<(A, B)>): (r: seq<B>)
    ensures |r| == |ps| && forall i :: 0 <= i < |ps| ==> r[i] == ps[i].1
  {
    seq(|ps|, i requires 0 <= i < |ps| => ps[i].1)
  }

  /** The position of the first invalid area, if any. */
  function FirstInvalid(areas: seq<FractionalArea>): (r: Option<nat>)
    ensures r.None? <==> forall i :: 0 <= i < |areas| ==> areas[i].Valid()
    ensures r.Some? ==> r.value < |areas| && !areas[r.value].Valid() &&
                        forall j :: 0 <= j < r.value ==> areas[j].Valid()
  {
    if |areas| == 0 then None
    else if !areas[0].Valid() then Some(0)
    else
      var rest := FirstInvalid(areas[1..]);
      assert forall i :: 1 <= i < |areas| ==> areas[i] == areas[1..][i - 1];
      if rest.None? then None else Some(rest.value + 1)
  }

  function PixelAreas(areas: seq<FractionalArea>, size: Size): (r: seq<Area>)
    ensures |r| == |areas| && forall i :: 0 <= i < |areas| ==> r[i] == areas[i].ToArea(size)
  {
    seq(|areas|, i requires 0 <= i < |areas| => areas[i].ToArea(size))
  }

  predicate InFigure(a: Area, size: Size)
  {
    a.xmin <= size.width && a.xmax <= size.width && a.ymin <= size.height && a.ymax <= size.height
  }

  /** A figure of a given pixel size; `S` is the subplot type. */
  class Figure<S> {
    var subplots: seq<S>
    var subplotAreas: seq<Area>
    var size: Size

    /** One pixel area per subplot, each inside the figure. */
    ghost predicate Valid()
      reads this
    {
      |subplots| == |subplotAreas| &&
      forall i :: 0 <= i < |subplotAreas| ==> InFigure(subplotAreas[i], size)
    }

    constructor (size: Size)
      ensures Valid()
      ensures subplots == [] && subplotAreas == [] && this.size == size
    {
      subplots := [];
      subplotAreas := [];
      this.size := size;
    }

    /** `set_layout`: the first invalid fractional area is an error and
        leaves the figure as it was; otherwise the layout's subplots and
        their pixel areas are appended. */
    method SetLayout(layout: seq<(S, FractionalArea)>) returns (r: Outcome)
      requires Valid()
      modifies this
      ensures Valid()
      ensures size == old(size)
      ensures r.Fail? <==> exists i :: 0 <= i < |layout| && !layout[i].1.Valid()
      ensures r.Fail? ==> (unchanged(this) &&
        var i := FirstInvalid(Seconds(layout)).value;
        var a := layout[i].1;
        r.error == InvalidSubplotArea(a.xmin, a.xmax, a.ymin, a.ymax))
      ensures r.Pass? ==> (subplots == old(subplots) + Firsts(layout) &&
        subplotAreas == old(subplotAreas) + PixelAreas(Seconds(layout), size))
    {
      var subs := Firsts(layout);
      var fracs := Seconds(layout);
      var bad := FirstInvalid(fracs);
      if bad.Some? {
        var a := fracs[bad.value];
        return Fail(InvalidSubplotArea(a.xmin, a.xmax, a.ymin, a.ymax));
      }
      var pixels := PixelAreas(fracs, size);
      forall i | 0 <= i < |pixels|
        ensures InFigure(pixels[i], size)
      {
        ToAreaWithinFigure(fracs[i], size);
      }
      subplots := subplots + subs;
      subplotAreas := subplotAreas + pixels;
      r := Pass;
    }
  }

  // ---------------------------------------------------------------------
  // Axes of a subplot

  /** Whether every axis of the subplot can be finalized. */
  predicate AxesFinalizable(axes: PerSlot<AxisDescriptor>, plots: seq<PlotInfo>, fills: seq<FillInfo>)
  {
    forall slot :: Finalizable(axes.Get(slot), ResolveRange(axes, slot).0, IsPrimary(slot, plots, fills))
  }

  /** An axis finalized with its resolved span and limits. */
  function FinalizeSlot(axes: PerSlot<AxisDescriptor>, plots: seq<PlotInfo>, fills: seq<FillInfo>,
                        slot: AxisType, fmt: (F64, Modifiers) -> string): Result<AxisFinalized>
    requires AxesFinalizable(axes, plots, fills)
  {
    var range := ResolveRange(axes, slot);
    FinalizeAxis(axes.Get(slot), range.0, range.1, IsPrimary(slot, plots, fills), fmt)
  }

  /** Every axis finalized on its own. */
  function FinalizeSlots(axes: PerSlot<AxisDescriptor>, plots: seq<PlotInfo>, fills: seq<FillInfo>,
                         fmt: (F64, Modifiers) -> string): (r: PerSlot<Result<AxisFinalized>>)
    requires AxesFinalizable(axes, plots, fills)
    ensures forall slot :: r.Get(slot) == FinalizeSlot(axes, plots, fills, slot, fmt)
  {
    PerSlot(FinalizeSlot(axes, plots, fills, X, fmt), FinalizeSlot(axes, plots, fills, Y, fmt),
            FinalizeSlot(axes, plots, fills, SecondaryX, fmt), FinalizeSlot(axes, plots, fills, SecondaryY, fmt))
  }

  /** Some axis fails with `e`, and every axis visited before it succeeds. */
  predicate FailsFirstAt(axes: PerSlot<AxisDescriptor>, plots: seq<PlotInfo>, fills: seq<FillInfo>,
                         fmt: (F64, Modifiers) -> string, e: PltError)
    requires AxesFinalizable(axes, plots, fills)
  {
    exists k :: (0 <= k < 4 && FinalizeSlot(axes, plots, fills, AXIS_ORDER[k], fmt) == Err(e) &&
      forall j :: 0 <= j < k ==> FinalizeSlot(axes, plots, fills, AXIS_ORDER[j], fmt).Ok?)
  }

  /** Collects one result per axis, visiting the axes in drawing order and
      stopping at the first failure. */
  method CollectInOrder<T>(want: PerSlot<Result<T>>, init: T) returns (r: Result<PerSlot<T>>)
    ensures r.Ok? <==> forall slot :: want.Get(slot).Ok?
    ensures r.Ok? ==> forall slot :: r.value.Get(slot) == want.Get(slot).value
    ensures r.Err? ==> exists k :: (0 <= k < 4 && want.Get(AXIS_ORDER[k]) == Err(r.error) &&
      forall j :: 0 <= j < k ==> want.Get(AXIS_ORDER[j]).Ok?)
  {
    var done := Uniform(init);
    var k := 0;
    while k < 4
      invariant 0 <= k <= 4
      invariant forall j :: 0 <= j < k ==> want.Get(AXIS_ORDER[j]).Ok?
      invariant forall j :: 0 <= j < k ==> done.Get(AXIS_ORDER[j]) == want.Get(AXIS_ORDER[j]).value
    {
      var slot := AXIS_ORDER[k];
      var f := want.Get(slot);
      if f.Err? {
        return Err(f.error);
      }
      done := done.Set(slot, f.value);
      k := k + 1;
    }
    forall slot ensures want.Get(slot).Ok? && done.Get(slot) == want.Get(slot).value
    {
      AxisOrderEnumerates(slot);
    }
    r := Ok(done);
  }

  /** The four axes finalized in order x, y, secondary x, secondary y; the
      first axis that fails stops the drawing with its error. */
  method FinalizeAxes(axes: PerSlot<AxisDescriptor>, plots: seq<PlotInfo>, fills: seq<FillInfo>,
                      fmt: (F64, Modifiers) -> string) returns (r: Result<PerSlot<AxisFinalized>>)
    requires AxesFinalizable(axes, plots, fills)
    ensures r.Ok? <==> forall slot :: FinalizeSlot(axes, plots, fills, slot, fmt).Ok?
    ensures r.Ok? ==> forall slot :: r.value.Get(slot) == FinalizeSlot(axes, plots, fills, slot, fmt).value
    ensures r.Err? ==> FailsFirstAt(axes, plots, fills, fmt, r.error)
  {
    var want := FinalizeSlots(axes, plots, fills, fmt);
    r := CollectInOrder(want, AxisFinalized("", [], [], [], [], 0, 0.0, false, false, DEFAULT_RANGE, false));
  }

  /** The room each finalized axis takes. */
  function Presences(axes: PerSlot<AxisFinalized>): PerSlot<Presence>
  {
    PerSlot(PresenceOf(axes.x), PresenceOf(axes.y), PresenceOf(axes.secondaryX), PresenceOf(axes.secondaryY))
  }

  /** `buffer_offset`, the gap between the rings: `(height as f64 * 0.6) as u32`.
      The `f64` constant 0.6 lies within 2^-54 of 3/5, too close to move the
      product of a `u32` height across an integer, so the gap is the floor of
      three fifths of the letter height. */
  function BufferOffset(height: u32): (r: nat)
    ensures 5 * r <= 3 * height as nat < 5 * r + 5
  {
    height as nat * 3 / 5
  }

  /** The plot area of a subplot drawn in `area`: its axes finalized, their
      room reserved and the area shrunk to the plot area. `letter` is the
      size of one letter, already multiplied by the scale factor. */
  method SubplotLayout(sp: Subplot, area: Area, scale: u32, letter: Size,
                       fmt: (F64, Modifiers) -> string) returns (r: Result<Boundaries>)
    requires AxesFinalizable(sp.Axes(), sp.plotInfos, sp.fillInfos)
    ensures r.Err? <==> exists slot :: FinalizeSlot(sp.Axes(), sp.plotInfos, sp.fillInfos, slot, fmt).Err?
    ensures r.Err? ==> FailsFirstAt(sp.Axes(), sp.plotInfos, sp.fillInfos, fmt, r.error)
    ensures r.Ok? ==> exists axes: PerSlot<AxisFinalized>, m: Metrics ::
      (forall slot :: axes.Get(slot) == FinalizeSlot(sp.Axes(), sp.plotInfos, sp.fillInfos, slot, fmt).value) &&
      m == Metrics(letter.width as nat, letter.height as nat, BufferOffset(letter.height),
                   TickLengthsOf(sp.format, scale).outerMajor as nat,
                   TickLengthsOf(sp.format, scale).outerMinor as nat) &&
      var b := AxisBuffers(Presences(axes), m);
      var title := if |sp.title| > 0 then m.height else 0;
      r.value == LayoutAreas(area, b.(axisLabel := AddRoom(b.axisLabel, SecondaryX, if |sp.title| > 0 then m.offset else 0)), title)
  {
    var finalized := FinalizeAxes(sp.Axes(), sp.plotInfos, sp.fillInfos, fmt);
    if finalized.Err? {
      ghost var k :| (0 <= k < 4 && FinalizeSlot(sp.Axes(), sp.plotInfos, sp.fillInfos, AXIS_ORDER[k], fmt) == Err(finalized.error) &&
        forall j :: 0 <= j < k ==> FinalizeSlot(sp.Axes(), sp.plotInfos, sp.fillInfos, AXIS_ORDER[j], fmt).Ok?);
      assert FinalizeSlot(sp.Axes(), sp.plotInfos, sp.fillInfos, AXIS_ORDER[k], fmt).Err?;
      return Err(finalized.error);
    }
    var lengths := TickLengthsOf(sp.format, scale);
    var m := Metrics(letter.width as nat, letter.height as nat, BufferOffset(letter.height), lengths.outerMajor as nat, lengths.outerMinor as nat);
    var b, title := SubplotBuffers(Presences(finalized.value), m, |sp.title| > 0);
    r := Ok(LayoutAreas(area, b, title));
  }

  // ---------------------------------------------------------------------
  // Colours

  datatype PlotKind = SeriesKind | FillKind

  /** The colours a series or fill is drawn with. */
  datatype DrawColors =
    | SeriesColors(line: Option<Color>, markerFill: Option<Color>, markerOutline: Option<Color>)
    | FillColors(fill: Color)

  /** The colours series take by default: the colour cycle, or the default
      marker colour when the cycle is empty. */
  function SeriesCycle(format: SubplotFormat): (r: seq<Color>)
    ensures |r| > 0
    ensures |format.colorCycle| > 0 ==> r == format.colorCycle
  {
    if |format.colorCycle| > 0 then format.colorCycle else [format.defaultMarkerColor]
  }

  /** The colours fills take by default: the colour cycle at half opacity,
      or the default fill colour when the cycle is empty. */
  function FillCycle(format: SubplotFormat, defaultFill: Color): (r: seq<Color>)
    ensures |r| > 0
    ensures |format.colorCycle| > 0 ==> (|r| == |format.colorCycle| &&
      forall i :: 0 <= i < |r| ==> r[i] == format.colorCycle[i].(a := 0.5))
    ensures |format.colorCycle| == 0 ==> r == [defaultFill]
  {
    if |format.colorCycle| > 0 then
      seq(|format.colorCycle|, i requires 0 <= i < |format.colorCycle| => format.colorCycle[i].(a := 0.5))
    else [defaultFill]
  }

  /** The series colours in use when `d` defaults have been drawn before. */
  function Cycled(cycle: seq<Color>, d: nat): Color
    requires |cycle| > 0
  {
    cycle[d % |cycle|]
  }

  function LineDemand(info: PlotInfo): nat
  {
    if info.line.Some? && info.line.value.colorOverride.None? then 1 else 0
  }

  function MarkerDemand(info: PlotInfo): nat
  {
    if info.marker.Some? && info.marker.value.colorOverride.None? then 1 else 0
  }

  /** How many default colours the series in `infos` draw. */
  function Demand(infos: seq<PlotInfo>): nat
  {
    if |infos| == 0 then 0
    else Demand(infos[..|infos| - 1]) + LineDemand(infos[|infos| - 1]) + MarkerDemand(infos[|infos| - 1])
  }

  /** How many default colours the fills with these overrides draw. */
  function FillDemand(overrides: seq<Option<Color>>): nat
  {
    if |overrides| == 0 then 0
    else FillDemand(overrides[..|overrides| - 1]) + (if overrides[|overrides| - 1].None? then 1 else 0)
  }

  function CountKind(order: seq<PlotKind>, kind: PlotKind): (n: nat)
    ensures n <= |order|
  {
    if |order| == 0 then 0
    else CountKind(order[..|order| - 1], kind) + (if order[|order| - 1] == kind then 1 else 0)
  }

  /** The colours of a series after `d` defaults were drawn: the line takes
      its override or the next default, then the marker fill its override or
      the next default; the outline is transparent without an outline, and
      otherwise its own override or the marker fill. */
  function ColorsOfSeries(info: PlotInfo, cycle: seq<Color>, d: nat): DrawColors
    requires |cycle| > 0
  {
    var line := if info.line.Some? then
        Some(if info.line.value.colorOverride.Some? then info.line.value.colorOverride.value else Cycled(cycle, d))
      else None;
    var d2 := d + LineDemand(info);
    var fill := if info.marker.Some? then
        Some(if info.marker.value.colorOverride.Some? then info.marker.value.colorOverride.value else Cycled(cycle, d2))
      else None;
    var outline := if info.marker.Some? then
        Some(if !info.marker.value.outline then TRANSPARENT
             else if info.marker.value.outlineFormat.colorOverride.Some? then info.marker.value.outlineFormat.colorOverride.value
             else fill.value)
      else None;
    SeriesColors(line, fill, outline)
  }

  /** The colours of the `i`-th drawn item, stated from the counts of what
      comes before it: a series draws from the series cycle after all the
      defaults the earlier series drew, a fill from the fill cycle after the
      defaults the earlier fills drew. */
  function ColorsAt(order: seq<PlotKind>, plots: seq<PlotInfo>, fillOverrides: seq<Option<Color>>,
                    format: SubplotFormat, defaultFill: Color, i: nat): DrawColors
    requires i < |order|
    requires CountKind(order, SeriesKind) <= |plots| && CountKind(order, FillKind) <= |fillOverrides|
  {
    CountPrefix(order, i + 1, SeriesKind);
    CountPrefix(order, i + 1, FillKind);
    var s := CountKind(order[..i], SeriesKind);
    var f := CountKind(order[..i], FillKind);
    assert order[..i + 1] == order[..i] + [order[i]];
    if order[i] == SeriesKind then
      ColorsOfSeries(plots[s], SeriesCycle(format), Demand(plots[..s]))
    else
      FillColors(if fillOverrides[f].Some? then fillOverrides[f].value
                 else Cycled(FillCycle(format, defaultFill), FillDemand(fillOverrides[..f])))
  }

  lemma {:induction false} CountPrefix(order: seq<PlotKind>, i: nat, kind: PlotKind)
    requires i <= |order|
    ensures CountKind(order[..i], kind) <= CountKind(order, kind)
    decreases |order|
  {
    if i < |order| {
      assert order[..|order| - 1][..i] == order[..i];
      CountPrefix(order[..|order| - 1], i, kind);
    } else {
      assert order[..i] == order;
    }
  }

  /** The drawing loop's colour choices: two default-colour iterators, one
      per cycle, advanced only when an item has no override. */
  method AssignColors(order: seq<PlotKind>, plots: seq<PlotInfo>, fillOverrides: seq<Option<Color>>,
                      format: SubplotFormat, defaultFill: Color) returns (r: seq<DrawColors>)
    requires CountKind(order, SeriesKind) <= |plots| && CountKind(order, FillKind) <= |fillOverrides|
    ensures |r| == |order|
    ensures forall i :: 0 <= i < |order| ==> r[i] == ColorsAt(order, plots, fillOverrides, format, defaultFill, i)
  {
    var cycle := SeriesCycle(format);
    var fillCycle := FillCycle(format, defaultFill);
    var nextPlot := 0;
    var nextFill := 0;
    var drawn := 0;
    var fillsDrawn := 0;
    r := [];
    for i := 0 to |order|
      invariant |r| == i
      invariant nextPlot == CountKind(order[..i], SeriesKind)
      invariant nextFill == CountKind(order[..i], FillKind)
      invariant nextPlot <= |plots| && nextFill <= |fillOverrides|
      invariant drawn == Demand(plots[..nextPlot])
      invariant fillsDrawn == FillDemand(fillOverrides[..nextFill])
      invariant forall j :: 0 <= j < i ==> r[j] == ColorsAt(order, plots, fillOverrides, format, defaultFill, j)
    {
      CountStep(order, i, SeriesKind);
      CountStep(order, i, FillKind);
      var c: DrawColors;
      if order[i] == SeriesKind {
        var info := plots[nextPlot];
        c := ColorsOfSeries(info, cycle, drawn);
        DemandStep(plots, nextPlot);
        drawn := drawn + LineDemand(info) + MarkerDemand(info);
        nextPlot := nextPlot + 1;
      } else {
        var o := fillOverrides[nextFill];
        if o.Some? {
          c := FillColors(o.value);
        } else {
          c := FillColors(fillCycle[fillsDrawn % |fillCycle|]);
          fillsDrawn := fillsDrawn + 1;
        }
        FillDemandStep(fillOverrides, nextFill);
        nextFill := nextFill + 1;
      }
      r := r + [c];
    }
  }

  lemma CountStep(order: seq<PlotKind>, i: nat, kind: PlotKind)
    requires i < |order|
    ensures CountKind(order[..i + 1], kind) == CountKind(order[..i], kind) + (if order[i] == kind then 1 else 0)
    ensures CountKind(order[..i + 1], kind) <= CountKind(order, kind)
  {
    assert order[..i + 1][..i] == order[..i];
    CountPrefix(order, i + 1, kind);
  }

  lemma DemandStep(plots: seq<PlotInfo>, n: nat)
    requires n < |plots|
    ensures Demand(plots[..n + 1]) == Demand(plots[..n]) + LineDemand(plots[n]) + MarkerDemand(plots[n])
  {
    assert plots[..n + 1][..n] == plots[..n];
  }

  lemma FillDemandStep(overrides: seq<Option<Color>>, n: nat)
    requires n < |overrides|
    ensures FillDemand(overrides[..n + 1]) == FillDemand(overrides[..n]) + (if overrides[n].None? then 1 else 0)
  {
    assert overrides[..n + 1][..n] == overrides[..n];
  }

  /** Fills and series draw from separate cycles: the colour of a fill does
      not depend on the series. */
  lemma FillColorIgnoresSeries(order: seq<PlotKind>, plots1: seq<PlotInfo>, plots2: seq<PlotInfo>,
                               fillOverrides: seq<Option<Color>>, format: SubplotFormat, defaultFill: Color, i: nat)
    requires i < |order| && order[i] == FillKind
    requires CountKind(order, SeriesKind) <= |plots1| && CountKind(order, SeriesKind) <= |plots2|
    requires CountKind(order, FillKind) <= |fillOverrides|
    ensures ColorsAt(order, plots1, fillOverrides, format, defaultFill, i) ==
            ColorsAt(order, plots2, fillOverrides, format, defaultFill, i)
  {
  }

  /** A series without overrides whose line and marker are both drawn takes
      two consecutive colours of the cycle, and the next series continues
      after them. */
  lemma SeriesTakeConsecutiveColors(info: PlotInfo, cycle: seq<Color>, d: nat)
    requires |cycle| > 0
    requires info.line.Some? && info.line.value.colorOverride.None?
    requires info.marker.Some? && info.marker.value.colorOverride.None?
    ensures ColorsOfSeries(info, cycle, d).line == Some(cycle[d % |cycle|])
    ensures ColorsOfSeries(info, cycle, d).markerFill == Some(cycle[(d + 1) % |cycle|])
    ensures Demand([info]) == 2
  {
    assert [info][..0] == [];
  }

  /** With no overrides, the k-th fill (counting from zero) takes colour
      k mod the cycle length. */
  lemma {:induction false} FillDemandCountsDefaults(overrides: seq<Option<Color>>)
    requires forall i :: 0 <= i < |overrides| ==> overrides[i].None?
    ensures FillDemand(overrides) == |overrides|
  {
    if |overrides| > 0 {
      FillDemandCountsDefaults(overrides[..|overrides| - 1]);
    }
  }

  // ---------------------------------------------------------------------
  // Filled regions

  /** The outline of a filled region through the points of its top and
      bottom curves (their `Data()`): along the top curve, then back along
      the bottom curve. */
  function FillOutline(top: seq<(F64, F64)>, bottom: seq<(F64, F64)>): (r: seq<(F64, F64)>)
    ensures |r| == |top| + |bottom|
    ensures forall i :: 0 <= i < |top| ==> r[i] == top[i]
    ensures forall i :: |top| <= i < |r| ==> r[i] == bottom[|bottom| - 1 - (i - |top|)]
  {
    top + Reverse(bottom)
  }

  /** The outline runs from the top curve's first point to the bottom
      curve's first point, so the closing edge joins the two starts, and
      the two curves meet at their last points. */
  lemma FillOutlineCloses(top: seq<(F64, F64)>, bottom: seq<(F64, F64)>)
    requires |top| > 0 && |bottom| > 0
    ensures var r := FillOutline(top, bottom);
      r[0] == top[0] && r[|r| - 1] == bottom[0] &&
      r[|top| - 1] == top[|top| - 1] && r[|top|] == bottom[|bottom| - 1]
  {
  }
}
