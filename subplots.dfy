/** A subplot's configuration and the data plotted on it: axis descriptors,
    series data with its extremes, the validation of plotted data, the
    update of axis spans and limits when data is plotted, and the builder's
    limit setters. */
module Subplots {
  import opened Float
  import opened Errors
  import opened Draw
  import opened Seqs

  type U16 = n: nat | n < 0x1_0000

  /** The four axes of a subplot. */
  datatype AxisType = X | Y | SecondaryX | SecondaryY

  /** `AxisType::iter()`: the order in which axes are processed. */
  const AXIS_ORDER: seq<AxisType> := [X, Y, SecondaryX, SecondaryY]

  /** The order lists every axis exactly once. */
  lemma AxisOrderEnumerates(t: AxisType)
    ensures |AXIS_ORDER| == 4 && t in AXIS_ORDER
    ensures forall i, j :: 0 <= i < j < |AXIS_ORDER| ==> AXIS_ORDER[i] != AXIS_ORDER[j]
  {
  }

  /** One value per axis, as the per-axis fields of a subplot and the
      per-axis tables of the drawing code hold them. */
  datatype PerSlot<T> = PerSlot(x: T, y: T, secondaryX: T, secondaryY: T)
  {
    function Get(slot: AxisType): T
    {
      match slot
      case X => x
      case Y => y
      case SecondaryX => secondaryX
      case SecondaryY => secondaryY
    }

    function Set(slot: AxisType, v: T): (r: PerSlot<T>)
      ensures r.Get(slot) == v
      ensures forall s :: s != slot ==> r.Get(s) == Get(s)
    {
      match slot
      case X => this.(x := v)
      case Y => this.(y := v)
      case SecondaryX => this.(secondaryX := v)
      case SecondaryY => this.(secondaryY := v)
    }
  }

  function Uniform<T>(v: T): PerSlot<T>
  {
    PerSlot(v, v, v, v)
  }

  datatype TickDirection = Inner | Outer | Both

  /** Where tick marks go. `On`: chosen by the library; `Auto`: only on an
      axis some plot uses; `Count(n)`: n evenly spaced marks. */
  datatype TickSpacing = On | Auto | NoTicks | Count(n: U16) | Manual(ticks: seq<F64>)

  /** Whether and how tick marks are labelled. */
  datatype TickLabels = LabelsOn | LabelsAuto | NoLabels | ManualLabels(labels: seq<string>)

  datatype Grid = Major | Full | NoGrid

  datatype Limits = AutoLimits | ManualLimits(min: F64, max: F64)

  datatype LineStyle = Solid | Dashed | ShortDashed

  datatype MarkerStyle = CircleMarker | SquareMarker

  datatype Line = Line(style: LineStyle, width: u32, colorOverride: Option<Color>)

  datatype Marker = Marker(style: MarkerStyle, size: u32, colorOverride: Option<Color>,
                           outline: bool, outlineFormat: Line)

  const DEFAULT_LINE := Line(Solid, 3, None)

  const DEFAULT_MARKER := Marker(CircleMarker, 3, None, false, Line(Solid, 2, None))

  /** The subplot formatting the modelled code reads. */
  datatype SubplotFormat = SubplotFormat(
    defaultMarkerColor: Color,
    lineWidth: u32,
    tickLength: u32,
    tickDirection: TickDirection,
    overrideMinorTickLength: Option<u32>,
    colorCycle: seq<Color>)

  const BLACK := Color(0.0, 0.0, 0.0, 1.0)

  const DEFAULT_COLOR_CYCLE: seq<Color> := [
    Color(0.271, 0.522, 0.533, 1.0),
    Color(0.839, 0.365, 0.055, 1.0),
    Color(0.596, 0.592, 0.102, 1.0),
    Color(0.694, 0.384, 0.525, 1.0),
    Color(0.800, 0.141, 0.114, 1.0)]

  const DEFAULT_FORMAT := SubplotFormat(BLACK, 2, 8, Inner, None, DEFAULT_COLOR_CYCLE)

  /** Configuration of one axis. `span` is the range of the plotted data and
      `limits` the range the axis shows; both stay `None` until data is
      plotted on the axis or limits are set by hand. */
  datatype AxisDescriptor = AxisDescriptor(
    labelText: string,
    majorTickMarks: TickSpacing,
    majorTickLabels: TickLabels,
    minorTickMarks: TickSpacing,
    minorTickLabels: TickLabels,
    grid: Grid,
    limitPolicy: Limits,
    limits: Option<(F64, F64)>,
    span: Option<(F64, F64)>,
    visible: bool)

  const DEFAULT_AXIS := AxisDescriptor("", On, LabelsAuto, On, NoLabels, NoGrid, AutoLimits, None, None, true)

  datatype SubplotDescriptor = SubplotDescriptor(format: SubplotFormat, title: string, axes: PerSlot<AxisDescriptor>)

  const DEFAULT_SUBPLOT := SubplotDescriptor(DEFAULT_FORMAT, "", Uniform(DEFAULT_AXIS))

  /** The left fold of `f64::min` from +infinity. */
  function FoldMin(s: seq<F64>): (r: F64)
    ensures !r.NaN?
    ensures forall i :: 0 <= i < |s| && !s[i].NaN? ==> Le(r, s[i])
    ensures r == PosInf || exists i :: 0 <= i < |s| && r == s[i]
    ensures (forall i :: 0 <= i < |s| ==> s[i].NaN?) ==> r == PosInf
  {
    if s == [] then PosInf else Min(FoldMin(s[..|s| - 1]), s[|s| - 1])
  }

  /** The left fold of `f64::max` from -infinity. */
  function FoldMax(s: seq<F64>): (r: F64)
    ensures !r.NaN?
    ensures forall i :: 0 <= i < |s| && !s[i].NaN? ==> Le(s[i], r)
    ensures r == NegInf || exists i :: 0 <= i < |s| && r == s[i]
    ensures (forall i :: 0 <= i < |s| ==> s[i].NaN?) ==> r == NegInf
  {
    if s == [] then NegInf else Max(FoldMax(s[..|s| - 1]), s[|s| - 1])
  }

  /** `edges.windows(2).flatten()`: every interior edge appears twice. */
  function FlattenWindows(e: seq<F64>): (r: seq<F64>)
    ensures |r| == if |e| < 2 then 0 else 2 * (|e| - 1)
    ensures forall i :: 0 <= i < |e| - 1 ==> r[2 * i] == e[i] && r[2 * i + 1] == e[i + 1]
  {
    if |e| < 2 then [] else [e[0], e[1]] + FlattenWindows(e[1..])
  }

  /** `ys.flat_map(|y| [y, y])`. */
  function Doubled(ys: seq<F64>): (r: seq<F64>)
    ensures |r| == 2 * |ys|
    ensures forall i :: 0 <= i < |ys| ==> r[2 * i] == ys[i] && r[2 * i + 1] == ys[i]
  {
    if ys == [] then [] else [ys[0], ys[0]] + Doubled(ys[1..])
  }

  /** Plotted data: x/y pairs, or a step plot given by its step edges and
      one y-value per step. The owned and borrowed variants of the library
      behave identically and are one variant each here. */
  datatype SeriesData =
    | PlotData(xdata: seq<F64>, ydata: seq<F64>)
    | StepData(edges: seq<F64>, ydata: seq<F64>)
  {
    /** The points to draw, in order. */
    function Data(): seq<(F64, F64)>
    {
      match this
      case PlotData(xs, ys) => Zip(xs, ys)
      case StepData(es, ys) => Zip(FlattenWindows(es), Doubled(ys))
    }

    function XValues(): seq<F64>
    {
      match this
      case PlotData(xs, _) => xs
      case StepData(es, _) => es
    }

    function XMin(): F64 { FoldMin(XValues()) }
    function XMax(): F64 { FoldMax(XValues()) }
    function YMin(): F64 { FoldMin(ydata) }
    function YMax(): F64 { FoldMax(ydata) }
  }

  const EMPTY_DATA := PlotData([], [])

  /** A step plot with one more edge than values draws each step as a
      horizontal segment: point `2i` is (edge i, y i) and point `2i + 1` is
      (edge i + 1, y i). */
  lemma StepDataSegments(edges: seq<F64>, ys: seq<F64>)
    requires |edges| == |ys| + 1
    ensures |StepData(edges, ys).Data()| == 2 * |ys|
    ensures forall i :: 0 <= i < |ys| ==>
      StepData(edges, ys).Data()[2 * i] == (edges[i], ys[i]) &&
      StepData(edges, ys).Data()[2 * i + 1] == (edges[i + 1], ys[i])
  {
    var d := StepData(edges, ys).Data();
    forall i | 0 <= i < |ys|
      ensures d[2 * i] == (edges[i], ys[i]) && d[2 * i + 1] == (edges[i + 1], ys[i])
    {
      assert d[2 * i] == (FlattenWindows(edges)[2 * i], Doubled(ys)[2 * i]);
      assert d[2 * i + 1] == (FlattenWindows(edges)[2 * i + 1], Doubled(ys)[2 * i + 1]);
    }
  }

  /** x/y data draws its points in order, pairing the i-th x with the i-th
      y. */
  lemma PlotDataPairs(xs: seq<F64>, ys: seq<F64>)
    requires |xs| == |ys|
    ensures |PlotData(xs, ys).Data()| == |xs|
    ensures forall i :: 0 <= i < |xs| ==> PlotData(xs, ys).Data()[i] == (xs[i], ys[i])
  {
  }

  /** For data without NaN, the extremes bound every value and are attained;
      empty data gives the fold's seeds. */
  lemma ExtremesBoundData(d: SeriesData)
    requires !HasNaN(d.XValues()) && !HasNaN(d.ydata)
    ensures forall i :: 0 <= i < |d.XValues()| ==> Le(d.XMin(), d.XValues()[i]) && Le(d.XValues()[i], d.XMax())
    ensures forall i :: 0 <= i < |d.ydata| ==> Le(d.YMin(), d.ydata[i]) && Le(d.ydata[i], d.YMax())
    ensures d.XValues() != [] ==> d.XMin() in d.XValues() && d.XMax() in d.XValues()
    ensures d.ydata != [] ==> d.YMin() in d.ydata && d.YMax() in d.ydata
    ensures d.XValues() == [] ==> d.XMin() == PosInf && d.XMax() == NegInf
  {
  }

  const PLOT_SIZE_MESSAGE := "Data is not correctly sized. x-data and y-data should be same length"
  const STEP_SIZE_MESSAGE := "Data is not correctly sized. There should be one more step than y-value"
  const X_NAN_MESSAGE := "x-data has NaN value"
  const STEP_NAN_MESSAGE := "step-data has NaN value"
  const Y_NAN_MESSAGE := "y-data has NaN value"

  /** The checks made before x/y data is plotted, in the order they are
      made: lengths, then x-values, then y-values. */
  function ValidatePlot(xs: seq<F64>, ys: seq<F64>): (r: Outcome)
    ensures r == Pass <==> |xs| == |ys| && !HasNaN(xs) && !HasNaN(ys)
    ensures |xs| != |ys| ==> r == Fail(InvalidData(PLOT_SIZE_MESSAGE))
    ensures |xs| == |ys| && HasNaN(xs) ==> r == Fail(InvalidData(X_NAN_MESSAGE))
    ensures |xs| == |ys| && !HasNaN(xs) && HasNaN(ys) ==> r == Fail(InvalidData(Y_NAN_MESSAGE))
  {
    if |xs| != |ys| then Fail(InvalidData(PLOT_SIZE_MESSAGE))
    else if HasNaN(xs) then Fail(InvalidData(X_NAN_MESSAGE))
    else if HasNaN(ys) then Fail(InvalidData(Y_NAN_MESSAGE))
    else Pass
  }

  /** The checks made before step data is plotted: one more edge than values,
      then the edges, then the values. */
  function ValidateStep(edges: seq<F64>, ys: seq<F64>): (r: Outcome)
    ensures r == Pass <==> |edges| == |ys| + 1 && !HasNaN(edges) && !HasNaN(ys)
    ensures |edges| != |ys| + 1 ==> r == Fail(InvalidData(STEP_SIZE_MESSAGE))
    ensures |edges| == |ys| + 1 && HasNaN(edges) ==> r == Fail(InvalidData(STEP_NAN_MESSAGE))
    ensures |edges| == |ys| + 1 && !HasNaN(edges) && HasNaN(ys) ==> r == Fail(InvalidData(Y_NAN_MESSAGE))
  {
    if |edges| != |ys| + 1 then Fail(InvalidData(STEP_SIZE_MESSAGE))
    else if HasNaN(edges) then Fail(InvalidData(STEP_NAN_MESSAGE))
    else if HasNaN(ys) then Fail(InvalidData(Y_NAN_MESSAGE))
    else Pass
  }

  /** How and on which axes a series is drawn. */
  datatype PlotDescriptor = PlotDescriptor(
    labelText: string,
    line: bool,
    marker: bool,
    lineFormat: Line,
    markerFormat: Marker,
    xaxis: AxisType,
    yaxis: AxisType)

  const DEFAULT_PLOT := PlotDescriptor("", true, false, DEFAULT_LINE, DEFAULT_MARKER, X, Y)

  /** A series recorded on a subplot. */
  datatype PlotInfo = PlotInfo(
    labelText: string,
    data: SeriesData,
    line: Option<Line>,
    marker: Option<Marker>,
    xaxis: AxisType,
    yaxis: AxisType,
    pixelPerfect: bool)

  datatype FillDescriptor = FillDescriptor(
    labelText: string,
    top: SeriesData,
    bottom: SeriesData,
    color: Color,
    xaxis: AxisType,
    yaxis: AxisType)

  const DEFAULT_FILL_COLOR := Color(1.0, 0.0, 0.0, 0.5)

  /** A filled area recorded on a subplot. */
  datatype FillInfo = FillInfo(
    labelText: string,
    top: SeriesData,
    bottom: SeriesData,
    color: Color,
    xaxis: AxisType,
    yaxis: AxisType)

  /** Plotting `data` over [lo, hi] on an axis: with automatic limits the
      span grows to cover the data and the limits are the span widened by 5%
      of its extent on each side; with manual limits nothing changes. */
  function FitAxis(axis: AxisDescriptor, lo: F64, hi: F64): (r: AxisDescriptor)
    ensures r.(span := axis.span, limits := axis.limits) == axis
    ensures axis.limitPolicy.ManualLimits? ==> r == axis
    ensures axis.limitPolicy.AutoLimits? ==> r.span.Some? && r.limits.Some?
  {
    match axis.limitPolicy
    case AutoLimits =>
      var span := if axis.span.Some? then (Min(axis.span.value.0, lo), Max(axis.span.value.1, hi)) else (lo, hi);
      var extent := Sub(span.1, span.0);
      axis.(span := Some(span),
            limits := Some((Sub(span.0, Mul(Fin(0.05), extent)), Add(span.1, Mul(Fin(0.05), extent)))))
    case ManualLimits(_, _) => axis
  }

  /** With automatic limits and values without NaN, the new span covers the
      old one and the plotted range; when it is finite the limits pad it by
      exactly 5% of its extent on each side, and so contain it. */
  lemma FitAxisCovers(axis: AxisDescriptor, lo: F64, hi: F64)
    requires axis.limitPolicy.AutoLimits?
    requires !lo.NaN? && !hi.NaN?
    requires axis.span.Some? ==> !axis.span.value.0.NaN? && !axis.span.value.1.NaN?
    ensures var r := FitAxis(axis, lo, hi);
      Le(r.span.value.0, lo) && Le(hi, r.span.value.1) &&
      (axis.span.Some? ==> Le(r.span.value.0, axis.span.value.0) && Le(axis.span.value.1, r.span.value.1))
    ensures var r := FitAxis(axis, lo, hi);
      r.span.value.0.Fin? && r.span.value.1.Fin? && r.span.value.0.v <= r.span.value.1.v ==>
        var ext := r.span.value.1.v - r.span.value.0.v;
        r.limits.value == (Fin(r.span.value.0.v - 0.05 * ext), Fin(r.span.value.1.v + 0.05 * ext)) &&
        r.limits.value.0.v <= r.span.value.0.v && r.span.value.1.v <= r.limits.value.1.v
  {
  }

  /** A span of zero extent gets limits equal to the span: no padding. */
  lemma FitAxisZeroExtent(axis: AxisDescriptor, v: real)
    requires axis.limitPolicy.AutoLimits? && axis.span.None?
    ensures FitAxis(axis, Fin(v), Fin(v)).limits == Some((Fin(v), Fin(v)))
  {
  }

  lemma MinCommutes(a: F64, b: F64)
    ensures Min(a, b) == Min(b, a) && Max(a, b) == Max(b, a)
  {
  }

  lemma MinAssociates(a: F64, b: F64, c: F64)
    ensures Min(Min(a, b), c) == Min(Min(a, c), b)
    ensures Max(Max(a, b), c) == Max(Max(a, c), b)
  {
  }

  lemma MinIdempotent(a: F64, b: F64)
    ensures Min(Min(a, b), b) == Min(a, b) && Max(Max(a, b), b) == Max(a, b)
  {
  }

  /** Two fits with the same span give the same axis. */
  lemma FitAxisBySpan(a1: AxisDescriptor, a2: AxisDescriptor, lo1: F64, hi1: F64, lo2: F64, hi2: F64)
    requires a1.limitPolicy.AutoLimits? && a1 == a2.(span := a1.span, limits := a1.limits)
    requires FitAxis(a1, lo1, hi1).span == FitAxis(a2, lo2, hi2).span
    ensures FitAxis(a1, lo1, hi1) == FitAxis(a2, lo2, hi2)
  {
  }

  /** Plotting the same range twice changes nothing the second time. */
  lemma {:induction false} FitAxisIdempotent(axis: AxisDescriptor, lo: F64, hi: F64)
    ensures FitAxis(FitAxis(axis, lo, hi), lo, hi) == FitAxis(axis, lo, hi)
  {
    if axis.limitPolicy.AutoLimits? {
      var once := FitAxis(axis, lo, hi);
      if axis.span.Some? {
        MinIdempotent(axis.span.value.0, lo);
        MinIdempotent(axis.span.value.1, hi);
      } else {
        MinIdempotent(lo, lo);
        MinIdempotent(hi, hi);
      }
      assert FitAxis(once, lo, hi).span == once.span;
      FitAxisBySpan(once, axis, lo, hi, lo, hi);
    }
  }

  /** The order in which two ranges are plotted does not matter. */
  lemma {:induction false} FitAxisCommutative(axis: AxisDescriptor, lo1: F64, hi1: F64, lo2: F64, hi2: F64)
    ensures FitAxis(FitAxis(axis, lo1, hi1), lo2, hi2) == FitAxis(FitAxis(axis, lo2, hi2), lo1, hi1)
  {
    if axis.limitPolicy.AutoLimits? {
      var a12 := FitAxis(axis, lo1, hi1);
      var a21 := FitAxis(axis, lo2, hi2);
      assert FitAxis(a12, lo2, hi2).span == FitAxis(a21, lo1, hi1).span by {
        FitSpanCommutes(axis, lo1, hi1, lo2, hi2);
      }
      FitAxisBySpan(a12, a21, lo2, hi2, lo1, hi1);
    }
  }

  lemma FitSpanCommutes(axis: AxisDescriptor, lo1: F64, hi1: F64, lo2: F64, hi2: F64)
    requires axis.limitPolicy.AutoLimits?
    ensures FitAxis(FitAxis(axis, lo1, hi1), lo2, hi2).span == FitAxis(FitAxis(axis, lo2, hi2), lo1, hi1).span
  {
    if axis.span.Some? {
      var (s0, s1) := axis.span.value;
      assert FitAxis(axis, lo1, hi1).span == Some((Min(s0, lo1), Max(s1, hi1)));
      assert FitAxis(axis, lo2, hi2).span == Some((Min(s0, lo2), Max(s1, hi2)));
      MinAssociates(s0, lo1, lo2);
      MinAssociates(s1, hi1, hi2);
    } else {
      MinCommutes(lo1, lo2);
      MinCommutes(hi1, hi2);
    }
  }

  /** The axes after plotting `data` as `desc` says: the x-axis is fitted to
      the data's x-range, then the y-axis (possibly the same axis, already
      fitted) to its y-range. */
  function PlotAxes(axes: PerSlot<AxisDescriptor>, desc: PlotDescriptor, data: SeriesData): PerSlot<AxisDescriptor>
  {
    var a1 := axes.Set(desc.xaxis, FitAxis(axes.Get(desc.xaxis), data.XMin(), data.XMax()));
    a1.Set(desc.yaxis, FitAxis(a1.Get(desc.yaxis), data.YMin(), data.YMax()))
  }

  /** Plotting touches only the two axes the plot uses; on distinct axes each
      is fitted to its own range. */
  lemma PlotAxesTouchesOwnAxes(axes: PerSlot<AxisDescriptor>, desc: PlotDescriptor, data: SeriesData, slot: AxisType)
    ensures slot != desc.xaxis && slot != desc.yaxis ==> PlotAxes(axes, desc, data).Get(slot) == axes.Get(slot)
    ensures desc.xaxis != desc.yaxis ==>
      PlotAxes(axes, desc, data).Get(desc.xaxis) == FitAxis(axes.Get(desc.xaxis), data.XMin(), data.XMax()) &&
      PlotAxes(axes, desc, data).Get(desc.yaxis) == FitAxis(axes.Get(desc.yaxis), data.YMin(), data.YMax())
  {
  }

  /** The record of a plotted series. Lines and markers are kept only when
      drawn; a step plot is not marked pixel-perfect. */
  function PlotInfoOf(desc: PlotDescriptor, data: SeriesData): (r: PlotInfo)
    ensures r.line.Some? <==> desc.line
    ensures r.marker.Some? <==> desc.marker
    ensures r.line.Some? ==> r.line.value == desc.lineFormat
    ensures r.marker.Some? ==> r.marker.value == desc.markerFormat
    ensures r.data == data && r.xaxis == desc.xaxis && r.yaxis == desc.yaxis && !r.pixelPerfect
  {
    PlotInfo(desc.labelText, data,
             if desc.line then Some(desc.lineFormat) else None,
             if desc.marker then Some(desc.markerFormat) else None,
             desc.xaxis, desc.yaxis, false)
  }

  function FillInfoOf(desc: FillDescriptor): (r: FillInfo)
    ensures r.top == desc.top && r.bottom == desc.bottom && r.color == desc.color
    ensures r.xaxis == desc.xaxis && r.yaxis == desc.yaxis && r.labelText == desc.labelText
  {
    FillInfo(desc.labelText, desc.top, desc.bottom, desc.color, desc.xaxis, desc.yaxis)
  }

  /** A subplot: its format, title, four axes and the series and fills
      plotted on it. */
  class Subplot {
    var format: SubplotFormat
    var plotInfos: seq<PlotInfo>
    var fillInfos: seq<FillInfo>
    var title: string
    var xaxis: AxisDescriptor
    var yaxis: AxisDescriptor
    var secondaryXaxis: AxisDescriptor
    var secondaryYaxis: AxisDescriptor

    function Axes(): PerSlot<AxisDescriptor>
      reads this
    {
      PerSlot(xaxis, yaxis, secondaryXaxis, secondaryYaxis)
    }

    constructor (desc: SubplotDescriptor)
      ensures format == desc.format && title == desc.title && Axes() == desc.axes
      ensures plotInfos == [] && fillInfos == []
    {
      format := desc.format;
      plotInfos := [];
      fillInfos := [];
      title := desc.title;
      xaxis := desc.axes.x;
      yaxis := desc.axes.y;
      secondaryXaxis := desc.axes.secondaryX;
      secondaryYaxis := desc.axes.secondaryY;
    }

    /** Replaces the descriptor of one axis. */
    method SetAxis(slot: AxisType, axis: AxisDescriptor)
      modifies this
      ensures Axes() == old(Axes()).Set(slot, axis)
      ensures format == old(format) && title == old(title)
      ensures plotInfos == old(plotInfos) && fillInfos == old(fillInfos)
    {
      match slot
      case X => xaxis := axis;
      case Y => yaxis := axis;
      case SecondaryX => secondaryXaxis := axis;
      case SecondaryY => secondaryYaxis := axis;
    }

    /** Records a series and fits the axes it uses to its data. */
    method PlotDesc(desc: PlotDescriptor, data: SeriesData)
      modifies this
      ensures Axes() == PlotAxes(old(Axes()), desc, data)
      ensures plotInfos == old(plotInfos) + [PlotInfoOf(desc, data)]
      ensures fillInfos == old(fillInfos) && format == old(format) && title == old(title)
    {
      var xa := Axes().Get(desc.xaxis);
      SetAxis(desc.xaxis, FitAxis(xa, data.XMin(), data.XMax()));
      var ya := Axes().Get(desc.yaxis);
      SetAxis(desc.yaxis, FitAxis(ya, data.YMin(), data.YMax()));
      plotInfos := plotInfos + [PlotInfoOf(desc, data)];
    }

    /** Records a filled area. Axes are not fitted to it. */
    method FillBetweenDesc(desc: FillDescriptor)
      modifies this
      ensures fillInfos == old(fillInfos) + [FillInfoOf(desc)]
      ensures Axes() == old(Axes()) && plotInfos == old(plotInfos)
      ensures format == old(format) && title == old(title)
    {
      fillInfos := fillInfos + [FillInfoOf(desc)];
    }

    /** Fills between two curves with the default fill settings; never
        fails. */
    method FillBetween(top: SeriesData, bottom: SeriesData) returns (r: Outcome)
      modifies this
      ensures r == Pass
      ensures fillInfos == old(fillInfos) + [FillInfo("", top, bottom, DEFAULT_FILL_COLOR, X, Y)]
      ensures Axes() == old(Axes()) && plotInfos == old(plotInfos)
      ensures format == old(format) && title == old(title)
    {
      FillBetweenDesc(FillDescriptor("", top, bottom, DEFAULT_FILL_COLOR, X, Y));
      r := Pass;
    }

    /** Validates and plots x/y data; on an error nothing changes. */
    method Plot(desc: PlotDescriptor, xs: seq<F64>, ys: seq<F64>) returns (r: Outcome)
      modifies this
      ensures r == ValidatePlot(xs, ys)
      ensures r.Fail? ==> unchanged(this)
      ensures r.Pass? ==>
        Axes() == PlotAxes(old(Axes()), desc, PlotData(xs, ys)) &&
        plotInfos == old(plotInfos) + [PlotInfoOf(desc, PlotData(xs, ys))] &&
        fillInfos == old(fillInfos) && format == old(format) && title == old(title)
    {
      r := ValidatePlot(xs, ys);
      if r.Pass? {
        PlotDesc(desc, PlotData(xs, ys));
      }
    }

    /** Validates and plots step data; on an error nothing changes. */
    method Step(desc: PlotDescriptor, edges: seq<F64>, ys: seq<F64>) returns (r: Outcome)
      modifies this
      ensures r == ValidateStep(edges, ys)
      ensures r.Fail? ==> unchanged(this)
      ensures r.Pass? ==>
        Axes() == PlotAxes(old(Axes()), desc, StepData(edges, ys)) &&
        plotInfos == old(plotInfos) + [PlotInfoOf(desc, StepData(edges, ys))] &&
        fillInfos == old(fillInfos) && format == old(format) && title == old(title)
    {
      r := ValidateStep(edges, ys);
      if r.Pass? {
        PlotDesc(desc, StepData(edges, ys));
      }
    }
  }

  /** The builder's limit setter for one axis: manual limits become both the
      span and the limits; automatic limits leave them as they are. Either
      way the policy is recorded. */
  function WithLimits(desc: SubplotDescriptor, slot: AxisType, limits: Limits): (r: SubplotDescriptor)
    ensures r.format == desc.format && r.title == desc.title
    ensures forall s :: s != slot ==> r.axes.Get(s) == desc.axes.Get(s)
    ensures r.axes.Get(slot).limitPolicy == limits
    ensures r.axes.Get(slot).(limitPolicy := desc.axes.Get(slot).limitPolicy,
                              span := desc.axes.Get(slot).span,
                              limits := desc.axes.Get(slot).limits) == desc.axes.Get(slot)
    ensures limits.ManualLimits? ==>
      r.axes.Get(slot).span == Some((limits.min, limits.max)) &&
      r.axes.Get(slot).limits == Some((limits.min, limits.max))
    ensures limits.AutoLimits? ==>
      r.axes.Get(slot).span == desc.axes.Get(slot).span &&
      r.axes.Get(slot).limits == desc.axes.Get(slot).limits
  {
    var a := desc.axes.Get(slot);
    var a' := match limits
      case ManualLimits(mn, mx) => a.(limits := Some((mn, mx)), span := Some((mn, mx)), limitPolicy := limits)
      case AutoLimits => a.(limitPolicy := limits);
    desc.(axes := desc.axes.Set(slot, a'))
  }

  /** Manual limits set with the builder survive any later plotting: span
      and limits stay at the chosen range. */
  lemma ManualLimitsSurvivePlot(desc: SubplotDescriptor, slot: AxisType, mn: F64, mx: F64,
                                pd: PlotDescriptor, data: SeriesData)
    ensures var axes := WithLimits(desc, slot, ManualLimits(mn, mx)).axes;
      PlotAxes(axes, pd, data).Get(slot) == axes.Get(slot) &&
      PlotAxes(axes, pd, data).Get(slot).span == Some((mn, mx)) &&
      PlotAxes(axes, pd, data).Get(slot).limits == Some((mn, mx))
  {
  }

  /** Builds the configuration of a subplot. */
  class SubplotBuilder {
    var desc: SubplotDescriptor

    constructor ()
      ensures desc == DEFAULT_SUBPLOT
    {
      desc := DEFAULT_SUBPLOT;
    }

    method XLimits(limits: Limits)
      modifies this
      ensures desc == WithLimits(old(desc), X, limits)
    {
      desc := WithLimits(desc, X, limits);
    }

    method YLimits(limits: Limits)
      modifies this
      ensures desc == WithLimits(old(desc), Y, limits)
    {
      desc := WithLimits(desc, Y, limits);
    }

    method SecondaryXLimits(limits: Limits)
      modifies this
      ensures desc == WithLimits(old(desc), SecondaryX, limits)
    {
      desc := WithLimits(desc, SecondaryX, limits);
    }

    method SecondaryYLimits(limits: Limits)
      modifies this
      ensures desc == WithLimits(old(desc), SecondaryY, limits)
    {
      desc := WithLimits(desc, SecondaryY, limits);
    }

    method Build() returns (s: Subplot)
      ensures fresh(s)
      ensures s.format == desc.format && s.title == desc.title && s.Axes() == desc.axes
      ensures s.plotInfos == [] && s.fillInfos == []
    {
      s := new Subplot(desc);
    }
  }
}
