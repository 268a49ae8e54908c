/** The room a subplot leaves around its plot area. Five tables hold, for
    each of the four sides, the pixels reserved for the gap to the next
    subplot, the axis label, the tick-label modifier, the tick labels and
    the tick marks; the axes fill them one after the other, and the subplot
    area is then shrunk side by side into nested boundaries ending in the
    plot area. Buffer sizes are unbounded integers; the area coordinates
    are `u32` and wrap around as in a release build. */
module Spacing {
  import opened Errors
  import opened Draw
  import opened Subplots
  import opened Ticks

  // ---------------------------------------------------------------------
  // Tick lengths

  datatype TickLengths = TickLengths(innerMajor: u32, outerMajor: u32, innerMinor: u32, outerMinor: u32)

  /** Tick lengths scaled by the rounded scaling factor: inner ticks point
      into the plot area, outer ones away from it, and minor ticks are half
      the major length unless their length is overridden. */
  function TickLengthsOf(format: SubplotFormat, scale: u32): (r: TickLengths)
    ensures format.tickDirection.Inner? ==> r.outerMajor == 0 && r.outerMinor == 0
    ensures format.tickDirection.Outer? ==> r.innerMajor == 0 && r.innerMinor == 0
    ensures format.tickDirection.Both? ==> r.innerMajor == r.outerMajor && r.innerMinor == r.outerMinor
    ensures !format.tickDirection.Outer? ==> r.innerMajor == MulU32(format.tickLength, scale)
    ensures !format.tickDirection.Outer? && format.overrideMinorTickLength.None? ==>
      r.innerMinor == r.innerMajor / 2
    ensures !format.tickDirection.Outer? && format.overrideMinorTickLength.Some? ==>
      r.innerMinor == MulU32(format.overrideMinorTickLength.value, scale)
  {
    var major := MulU32(format.tickLength, scale);
    var minor := if format.overrideMinorTickLength.Some?
                 then MulU32(format.overrideMinorTickLength.value, scale)
                 else major / 2;
    var inner := !format.tickDirection.Outer?;
    var outer := !format.tickDirection.Inner?;
    TickLengths(if inner then major else 0, if outer then major else 0,
                if inner then minor else 0, if outer then minor else 0)
  }

  // ---------------------------------------------------------------------
  // Buffers

  /** What of a finalized axis takes room beside the plot area. */
  datatype Presence = Presence(
    majorTicks: bool,
    minorTicks: bool,
    tickLabels: bool,
    modifier: bool,
    axisLabel: bool)

  function PresenceOf(a: AxisFinalized): (p: Presence)
    ensures p.tickLabels <==> |a.majorLabels| > 0 || |a.minorLabels| > 0
    ensures p.modifier <==> a.multiplier != 0 || a.offset != 0.0
  {
    Presence(|a.majorTicks| > 0, |a.minorTicks| > 0,
             |a.majorLabels| > 0 || |a.minorLabels| > 0,
             a.multiplier != 0 || a.offset != 0.0,
             |a.labelText| > 0)
  }

  /** Text metrics: the size of one letter and the gap `buffer_offset`
      (six tenths of the letter height), with the outer tick lengths. */
  datatype Metrics = Metrics(width: nat, height: nat, offset: nat, outerMajor: nat, outerMinor: nat)

  datatype Buffers = Buffers(
    subplot: PerSlot<nat>,
    axisLabel: PerSlot<nat>,
    modifier: PerSlot<nat>,
    tickLabel: PerSlot<nat>,
    tick: PerSlot<nat>)

  const ZERO: PerSlot<nat> := Uniform(0)

  /** Room for tick labels: five letters across beside a vertical axis, one
      line high beside a horizontal one. */
  function TickLabelSize(slot: AxisType, m: Metrics): nat
  {
    if slot == Y || slot == SecondaryY then 5 * m.width else m.height
  }

  /** The four buffers of one side next to the plot area. */
  function SideSum(b: Buffers, slot: AxisType): nat
  {
    b.tick.Get(slot) + b.tickLabel.Get(slot) + b.modifier.Get(slot) + b.axisLabel.Get(slot)
  }

  function AddRoom(t: PerSlot<nat>, slot: AxisType, n: nat): (r: PerSlot<nat>)
    ensures r.Get(slot) == t.Get(slot) + n
    ensures forall s :: s != slot ==> r.Get(s) == t.Get(s)
  {
    t.Set(slot, t.Get(slot) + n)
  }

  /** The side on which the multiplier and offset of an axis are written:
      above the plot for the y axis, below it for the x axis; the
      secondary axes reserve no room for them. */
  function ModifierSide(slot: AxisType): Option<AxisType>
  {
    match slot
    case Y => Some(SecondaryX)
    case X => Some(X)
    case _ => None
  }

  /** One pass of the loop over the axes: the buffers after axis `slot`
      with presence `p` has taken its room. */
  function AddAxis(b: Buffers, slot: AxisType, p: Presence, m: Metrics): (r: Buffers)
    ensures r.(subplot := b.subplot) == AddAxisRoom(b, slot, p, m)
    ensures r.subplot == b.subplot.Set(slot, Gap(SideSum(AddAxisRoom(b, slot, p, m), slot), m))
  {
    var t := AddAxisRoom(b, slot, p, m);
    t.(subplot := b.subplot.Set(slot, Gap(SideSum(t, slot), m)))
  }

  /** The gap to the next subplot beside a side whose buffers sum to `sum`:
      three letters when they are narrower than two, `buffer_offset`
      otherwise. */
  function Gap(sum: nat, m: Metrics): nat
  {
    if sum < 2 * m.width then 3 * m.width else m.offset
  }

  /** The room axis `slot` takes in the four tables next to the plot. */
  function AddAxisRoom(b: Buffers, slot: AxisType, p: Presence, m: Metrics): Buffers
  {
    var tick1 := if p.majorTicks then AddRoom(b.tick, slot, m.outerMajor)
                 else if p.minorTicks then AddRoom(b.tick, slot, m.outerMinor)
                 else b.tick;
    var mod1 := if p.tickLabels then AddRoom(b.modifier, slot, TickLabelSize(slot, m)) else b.modifier;
    var tick2 := if p.tickLabels then AddRoom(tick1, slot, m.offset) else tick1;
    var side := ModifierSide(slot);
    var mod2 := if p.modifier && side.Some? then AddRoom(mod1, side.value, m.height * 2 / 3) else mod1;
    var tl1 := if p.modifier && side.Some? then AddRoom(b.tickLabel, side.value, m.offset) else b.tickLabel;
    var label1 := if p.axisLabel then AddRoom(b.axisLabel, slot, m.height) else b.axisLabel;
    var tl2 := if p.axisLabel then AddRoom(tl1, slot, m.offset) else tl1;
    Buffers(b.subplot, label1, mod2, tl2, tick2)
  }

  /** Position of each axis in the order the loop visits them. */
  function OrderIndex(slot: AxisType): (i: nat)
    ensures i < 4 && AXIS_ORDER[i] == slot
  {
    match slot
    case X => 0
    case Y => 1
    case SecondaryX => 2
    case SecondaryY => 3
  }

  /** The room tick marks take on their own side. */
  function TickRoom(p: Presence, m: Metrics): nat
  {
    if p.majorTicks then m.outerMajor else if p.minorTicks then m.outerMinor else 0
  }

  /** The room the multipliers written on side `slot` take there, counting
      the axes among the first `k` visited. */
  function ModifierRoom(presence: PerSlot<Presence>, slot: AxisType, k: nat, m: Metrics): nat
  {
    (if slot == SecondaryX && OrderIndex(Y) < k && presence.y.modifier then m.height * 2 / 3 else 0) +
    (if slot == X && OrderIndex(X) < k && presence.x.modifier then m.height * 2 / 3 else 0)
  }

  function ModifierGap(presence: PerSlot<Presence>, slot: AxisType, k: nat, m: Metrics): nat
  {
    (if slot == SecondaryX && OrderIndex(Y) < k && presence.y.modifier then m.offset else 0) +
    (if slot == X && OrderIndex(X) < k && presence.x.modifier then m.offset else 0)
  }

  function Visited(s: AxisType, k: nat): bool
  {
    OrderIndex(s) < k
  }

  /** The five tables once the first `k` axes of the visiting order have
      taken their room, side by side: a visited side holds the room of its
      own axis, and every side holds the multiplier room that visited axes
      route to it. */
  function TickAt(presence: PerSlot<Presence>, m: Metrics, k: nat, s: AxisType): nat
  {
    if Visited(s, k) then TickRoom(presence.Get(s), m) + (if presence.Get(s).tickLabels then m.offset else 0)
    else 0
  }

  function ModifierAt(presence: PerSlot<Presence>, m: Metrics, k: nat, s: AxisType): nat
  {
    (if Visited(s, k) && presence.Get(s).tickLabels then TickLabelSize(s, m) else 0) +
    ModifierRoom(presence, s, k, m)
  }

  function TickLabelAt(presence: PerSlot<Presence>, m: Metrics, k: nat, s: AxisType): nat
  {
    (if Visited(s, k) && presence.Get(s).axisLabel then m.offset else 0) + ModifierGap(presence, s, k, m)
  }

  function LabelAt(presence: PerSlot<Presence>, m: Metrics, k: nat, s: AxisType): nat
  {
    if Visited(s, k) && presence.Get(s).axisLabel then m.height else 0
  }

  function SubplotAt(presence: PerSlot<Presence>, m: Metrics, k: nat, s: AxisType): nat
  {
    if !Visited(s, k) then 0
    else Gap(TickAt(presence, m, k, s) + TickLabelAt(presence, m, k, s) +
             ModifierAt(presence, m, k, s) + LabelAt(presence, m, k, s), m)
  }

  function Tabulate(f: AxisType -> nat): (t: PerSlot<nat>)
    ensures forall s :: t.Get(s) == f(s)
  {
    PerSlot(f(X), f(Y), f(SecondaryX), f(SecondaryY))
  }

  function PartialBuffers(presence: PerSlot<Presence>, m: Metrics, k: nat): Buffers
  {
    Buffers(
      Tabulate(s => SubplotAt(presence, m, k, s)),
      Tabulate(s => LabelAt(presence, m, k, s)),
      Tabulate(s => ModifierAt(presence, m, k, s)),
      Tabulate(s => TickLabelAt(presence, m, k, s)),
      Tabulate(s => TickAt(presence, m, k, s)))
  }

  /** The tables after all four axes. */
  function AxisBuffers(presence: PerSlot<Presence>, m: Metrics): Buffers
  {
    PartialBuffers(presence, m, 4)
  }

  lemma SlotsEqual(a: PerSlot<nat>, b: PerSlot<nat>)
    requires forall s :: a.Get(s) == b.Get(s)
    ensures a == b
  {
    assert a.Get(X) == b.Get(X) && a.Get(Y) == b.Get(Y);
    assert a.Get(SecondaryX) == b.Get(SecondaryX) && a.Get(SecondaryY) == b.Get(SecondaryY);
  }

  lemma TickStep(presence: PerSlot<Presence>, m: Metrics, k: nat, s: AxisType)
    requires k < 4
    ensures AddAxis(PartialBuffers(presence, m, k), AXIS_ORDER[k], presence.Get(AXIS_ORDER[k]), m).tick.Get(s) ==
            TickAt(presence, m, k + 1, s)
  {
    assert OrderIndex(AXIS_ORDER[k]) == k;
  }

  lemma ModifierStep(presence: PerSlot<Presence>, m: Metrics, k: nat, s: AxisType)
    requires k < 4
    ensures AddAxis(PartialBuffers(presence, m, k), AXIS_ORDER[k], presence.Get(AXIS_ORDER[k]), m).modifier.Get(s) ==
            ModifierAt(presence, m, k + 1, s)
  {
    assert OrderIndex(AXIS_ORDER[k]) == k;
  }

  lemma TickLabelStep(presence: PerSlot<Presence>, m: Metrics, k: nat, s: AxisType)
    requires k < 4
    ensures AddAxis(PartialBuffers(presence, m, k), AXIS_ORDER[k], presence.Get(AXIS_ORDER[k]), m).tickLabel.Get(s) ==
            TickLabelAt(presence, m, k + 1, s)
  {
    assert OrderIndex(AXIS_ORDER[k]) == k;
  }

  lemma LabelStep(presence: PerSlot<Presence>, m: Metrics, k: nat, s: AxisType)
    requires k < 4
    ensures AddAxis(PartialBuffers(presence, m, k), AXIS_ORDER[k], presence.Get(AXIS_ORDER[k]), m).axisLabel.Get(s) ==
            LabelAt(presence, m, k + 1, s)
  {
    assert OrderIndex(AXIS_ORDER[k]) == k;
  }

  lemma SubplotStep(presence: PerSlot<Presence>, m: Metrics, k: nat, s: AxisType)
    requires k < 4
    ensures AddAxis(PartialBuffers(presence, m, k), AXIS_ORDER[k], presence.Get(AXIS_ORDER[k]), m).subplot.Get(s) ==
            SubplotAt(presence, m, k + 1, s)
  {
    var slot := AXIS_ORDER[k];
    assert OrderIndex(slot) == k;
    if s == slot {
      TickStep(presence, m, k, slot);
      ModifierStep(presence, m, k, slot);
      TickLabelStep(presence, m, k, slot);
      LabelStep(presence, m, k, slot);
    } else if Visited(s, k) {
      StableWhenVisited(presence, m, k, s);
    }
  }

  /** A side visited earlier receives nothing from later axes: the y axis
      routes its multiplier to the secondary x side, visited after it, and
      the x axis to its own side. */
  lemma StableWhenVisited(presence: PerSlot<Presence>, m: Metrics, k: nat, s: AxisType)
    requires k < 4 && Visited(s, k)
    ensures TickAt(presence, m, k, s) == TickAt(presence, m, k + 1, s)
    ensures ModifierAt(presence, m, k, s) == ModifierAt(presence, m, k + 1, s)
    ensures TickLabelAt(presence, m, k, s) == TickLabelAt(presence, m, k + 1, s)
    ensures LabelAt(presence, m, k, s) == LabelAt(presence, m, k + 1, s)
  {
  }

  lemma AddAxisStepAt(presence: PerSlot<Presence>, m: Metrics, k: nat, s: AxisType)
    requires k < 4
    ensures var next := AddAxis(PartialBuffers(presence, m, k), AXIS_ORDER[k], presence.Get(AXIS_ORDER[k]), m);
      next.tick.Get(s) == TickAt(presence, m, k + 1, s) &&
      next.modifier.Get(s) == ModifierAt(presence, m, k + 1, s) &&
      next.tickLabel.Get(s) == TickLabelAt(presence, m, k + 1, s) &&
      next.axisLabel.Get(s) == LabelAt(presence, m, k + 1, s) &&
      next.subplot.Get(s) == SubplotAt(presence, m, k + 1, s)
  {
    TickStep(presence, m, k, s);
    ModifierStep(presence, m, k, s);
    TickLabelStep(presence, m, k, s);
    LabelStep(presence, m, k, s);
    SubplotStep(presence, m, k, s);
  }

  lemma AddAxisStep(presence: PerSlot<Presence>, m: Metrics, k: nat)
    requires k < 4
    ensures AddAxis(PartialBuffers(presence, m, k), AXIS_ORDER[k], presence.Get(AXIS_ORDER[k]), m) ==
            PartialBuffers(presence, m, k + 1)
  {
    var next := AddAxis(PartialBuffers(presence, m, k), AXIS_ORDER[k], presence.Get(AXIS_ORDER[k]), m);
    var want := PartialBuffers(presence, m, k + 1);
    forall s ensures next.tick.Get(s) == want.tick.Get(s) && next.modifier.Get(s) == want.modifier.Get(s) &&
                     next.tickLabel.Get(s) == want.tickLabel.Get(s) && next.axisLabel.Get(s) == want.axisLabel.Get(s) &&
                     next.subplot.Get(s) == want.subplot.Get(s)
    {
      AddAxisStepAt(presence, m, k, s);
    }
    SlotsEqual(next.tick, want.tick);
    SlotsEqual(next.modifier, want.modifier);
    SlotsEqual(next.tickLabel, want.tickLabel);
    SlotsEqual(next.axisLabel, want.axisLabel);
    SlotsEqual(next.subplot, want.subplot);
  }

  /** The buffers of a subplot, filled by visiting the axes in order, and
      the title buffer: a title takes one line above the plot and a gap
      below it. */
  method SubplotBuffers(presence: PerSlot<Presence>, m: Metrics, hasTitle: bool)
    returns (b: Buffers, title: nat)
    ensures title == (if hasTitle then m.height else 0)
    ensures b.subplot == AxisBuffers(presence, m).subplot
    ensures b.modifier == AxisBuffers(presence, m).modifier
    ensures b.tickLabel == AxisBuffers(presence, m).tickLabel
    ensures b.tick == AxisBuffers(presence, m).tick
    ensures b.axisLabel == AddRoom(AxisBuffers(presence, m).axisLabel, SecondaryX, if hasTitle then m.offset else 0)
  {
    b := Buffers(ZERO, ZERO, ZERO, ZERO, ZERO);
    assert b == PartialBuffers(presence, m, 0);
    var k := 0;
    while k < 4
      invariant 0 <= k <= 4
      invariant b == PartialBuffers(presence, m, k)
    {
      AddAxisStep(presence, m, k);
      b := AddAxis(b, AXIS_ORDER[k], presence.Get(AXIS_ORDER[k]), m);
      k := k + 1;
    }
    title := 0;
    if hasTitle {
      title := title + m.height;
      b := b.(axisLabel := AddRoom(b.axisLabel, SecondaryX, m.offset));
    } else {
      b := b.(axisLabel := AddRoom(b.axisLabel, SecondaryX, 0));
    }
  }

  /** All room on one side, the gap to the next subplot included. */
  function Margin(b: Buffers, slot: AxisType): nat
  {
    b.subplot.Get(slot) + SideSum(b, slot)
  }

  /** Every side of the plot area is at least two letters wide: a side
      whose own buffers are narrower gets a gap of three letters. */
  lemma MarginAtLeastTwoLetters(presence: PerSlot<Presence>, m: Metrics, slot: AxisType)
    ensures Margin(AxisBuffers(presence, m), slot) >= 2 * m.width
  {
  }

  /** The y axis's multiplier is written above the plot: it widens the top
      side (the secondary x side), both its modifier and its tick-label
      buffer, and the gap of that side is decided after it. */
  lemma YModifierGoesOnTop(presence: PerSlot<Presence>, m: Metrics)
    ensures var b := AxisBuffers(presence, m);
      b.modifier.secondaryX ==
        (if presence.secondaryX.tickLabels then m.height else 0) +
        (if presence.y.modifier then m.height * 2 / 3 else 0) &&
      b.tickLabel.secondaryX ==
        (if presence.secondaryX.axisLabel then m.offset else 0) +
        (if presence.y.modifier then m.offset else 0) &&
      b.modifier.y == (if presence.y.tickLabels then 5 * m.width else 0) &&
      b.subplot.secondaryX == (if SideSum(b, SecondaryX) < 2 * m.width then 3 * m.width else m.offset)
  {
  }

  lemma SecondaryModifierAt(presence: PerSlot<Presence>, m: Metrics, slot: AxisType, s: AxisType)
    requires slot == SecondaryX || slot == SecondaryY
    ensures var q := presence.Set(slot, presence.Get(slot).(modifier := false));
      TickAt(q, m, 4, s) == TickAt(presence, m, 4, s) &&
      ModifierAt(q, m, 4, s) == ModifierAt(presence, m, 4, s) &&
      TickLabelAt(q, m, 4, s) == TickLabelAt(presence, m, 4, s) &&
      LabelAt(q, m, 4, s) == LabelAt(presence, m, 4, s) &&
      SubplotAt(q, m, 4, s) == SubplotAt(presence, m, 4, s)
  {
    var q := presence.Set(slot, presence.Get(slot).(modifier := false));
    assert q.x == presence.x && q.y == presence.y;
    assert q.Get(s).tickLabels == presence.Get(s).tickLabels;
    assert q.Get(s).axisLabel == presence.Get(s).axisLabel;
    assert q.Get(s).majorTicks == presence.Get(s).majorTicks;
    assert q.Get(s).minorTicks == presence.Get(s).minorTicks;
  }

  /** The multipliers of the secondary axes take no room anywhere: the
      tables are the same whether they are shown or not. */
  lemma SecondaryModifiersTakeNoRoom(presence: PerSlot<Presence>, m: Metrics, slot: AxisType)
    requires slot == SecondaryX || slot == SecondaryY
    ensures AxisBuffers(presence.Set(slot, presence.Get(slot).(modifier := false)), m) == AxisBuffers(presence, m)
  {
    var q := presence.Set(slot, presence.Get(slot).(modifier := false));
    var b := AxisBuffers(presence, m);
    var c := AxisBuffers(q, m);
    forall s ensures c.tick.Get(s) == b.tick.Get(s) && c.modifier.Get(s) == b.modifier.Get(s) &&
                     c.tickLabel.Get(s) == b.tickLabel.Get(s) && c.axisLabel.Get(s) == b.axisLabel.Get(s) &&
                     c.subplot.Get(s) == b.subplot.Get(s)
    {
      SecondaryModifierAt(presence, m, slot, s);
    }
    SlotsEqual(c.tick, b.tick);
    SlotsEqual(c.modifier, b.modifier);
    SlotsEqual(c.tickLabel, b.tickLabel);
    SlotsEqual(c.axisLabel, b.axisLabel);
    SlotsEqual(c.subplot, b.subplot);
  }

  // ---------------------------------------------------------------------
  // Areas

  /** `u32` addition and subtraction of a buffer, wrapping around. */
  function Grow(a: u32, n: nat): (r: u32)
    ensures a as int + n < U32_LIMIT ==> r as int == a as int + n
  {
    ((a as int + n) % U32_LIMIT) as u32
  }

  function Shrink(a: u32, n: nat): (r: u32)
    ensures n <= a as int ==> r as int == a as int - n
  {
    ((a as int - n) % U32_LIMIT) as u32
  }

  /** The boundaries inside a subplot area, outermost first. */
  datatype Boundaries = Boundaries(labelArea: Area, modifierArea: Area, tickLabelArea: Area, tickArea: Area, plot: Area)

  /** Shrinks `a` by one table: `Y` on the left, secondary y on the right,
      `X` at the bottom and secondary x at the top. */
  function Inset(a: Area, t: PerSlot<nat>): Area
  {
    Area(Grow(a.xmin, t.y), Shrink(a.xmax, t.secondaryY), Grow(a.ymin, t.x), Shrink(a.ymax, t.secondaryX))
  }

  function LayoutAreas(area: Area, b: Buffers, title: nat): (r: Boundaries)
    ensures r.plot == r.tickArea
    ensures r.modifierArea == Inset(r.labelArea, b.modifier)
    ensures r.tickLabelArea == Inset(r.modifierArea, b.tickLabel)
    ensures r.tickArea == Inset(r.tickLabelArea, b.tick)
  {
    var titleBoundary := Shrink(Shrink(area.ymax, b.subplot.secondaryX), title);
    var labelArea := Area(
      Grow(Grow(area.xmin, b.subplot.y), b.axisLabel.y),
      Shrink(Shrink(area.xmax, b.subplot.secondaryY), b.axisLabel.secondaryY),
      Grow(Grow(area.ymin, b.subplot.x), b.axisLabel.x),
      Shrink(titleBoundary, b.axisLabel.secondaryX));
    var modifierArea := Inset(labelArea, b.modifier);
    var tickLabelArea := Inset(modifierArea, b.tickLabel);
    var tickArea := Inset(tickLabelArea, b.tick);
    Boundaries(labelArea, modifierArea, tickLabelArea, tickArea, tickArea)
  }

  /** Everything on the left, right, bottom and top of the plot area. */
  function Left(b: Buffers): nat { Margin(b, Y) }
  function Right(b: Buffers): nat { Margin(b, SecondaryY) }
  function Bottom(b: Buffers): nat { Margin(b, X) }
  function Top(b: Buffers, title: nat): nat { Margin(b, SecondaryX) + title }

  predicate Contains(outer: Area, inner: Area)
  {
    outer.xmin <= inner.xmin && inner.xmax <= outer.xmax &&
    outer.ymin <= inner.ymin && inner.ymax <= outer.ymax
  }

  /** When the buffers fit in the subplot area, no coordinate wraps: every
      boundary lies inside the one before, the plot area is the subplot
      area less the buffers of each side, and it is well ordered. */
  lemma LayoutNested(area: Area, b: Buffers, title: nat)
    requires area.xmin as int + Left(b) + Right(b) <= area.xmax as int
    requires area.ymin as int + Bottom(b) + Top(b, title) <= area.ymax as int
    ensures var r := LayoutAreas(area, b, title);
      Contains(area, r.labelArea) && Contains(r.labelArea, r.modifierArea) &&
      Contains(r.modifierArea, r.tickLabelArea) && Contains(r.tickLabelArea, r.tickArea) &&
      r.plot.Ordered() &&
      r.plot.xmin as int == area.xmin as int + Left(b) &&
      r.plot.xmax as int == area.xmax as int - Right(b) &&
      r.plot.ymin as int == area.ymin as int + Bottom(b) &&
      r.plot.ymax as int == area.ymax as int - Top(b, title)
  {
    LeftSideNested(area, b, title);
    RightSideNested(area, b, title);
    BottomSideNested(area, b, title);
    TopSideNested(area, b, title);
  }

  lemma LeftSideNested(area: Area, b: Buffers, title: nat)
    requires area.xmin as int + Left(b) <= area.xmax as int
    ensures var r := LayoutAreas(area, b, title);
      area.xmin <= r.labelArea.xmin <= r.modifierArea.xmin <= r.tickLabelArea.xmin <= r.tickArea.xmin &&
      r.plot.xmin as int == area.xmin as int + Left(b)
  {
    var r := LayoutAreas(area, b, title);
    assert Left(b) == b.subplot.y + b.tick.y + b.tickLabel.y + b.modifier.y + b.axisLabel.y;
    assert r.labelArea.xmin as int == area.xmin as int + b.subplot.y + b.axisLabel.y;
    assert r.modifierArea.xmin as int == r.labelArea.xmin as int + b.modifier.y;
    assert r.tickLabelArea.xmin as int == r.modifierArea.xmin as int + b.tickLabel.y;
  }

  lemma RightSideNested(area: Area, b: Buffers, title: nat)
    requires Right(b) <= area.xmax as int
    ensures var r := LayoutAreas(area, b, title);
      r.tickArea.xmax <= r.tickLabelArea.xmax <= r.modifierArea.xmax <= r.labelArea.xmax <= area.xmax &&
      r.plot.xmax as int == area.xmax as int - Right(b)
  {
    var r := LayoutAreas(area, b, title);
    assert Right(b) == b.subplot.secondaryY + b.tick.secondaryY + b.tickLabel.secondaryY + b.modifier.secondaryY + b.axisLabel.secondaryY;
    assert r.labelArea.xmax as int == area.xmax as int - b.subplot.secondaryY - b.axisLabel.secondaryY;
    assert r.modifierArea.xmax as int == r.labelArea.xmax as int - b.modifier.secondaryY;
    assert r.tickLabelArea.xmax as int == r.modifierArea.xmax as int - b.tickLabel.secondaryY;
  }

  lemma BottomSideNested(area: Area, b: Buffers, title: nat)
    requires area.ymin as int + Bottom(b) <= area.ymax as int
    ensures var r := LayoutAreas(area, b, title);
      area.ymin <= r.labelArea.ymin <= r.modifierArea.ymin <= r.tickLabelArea.ymin <= r.tickArea.ymin &&
      r.plot.ymin as int == area.ymin as int + Bottom(b)
  {
    var r := LayoutAreas(area, b, title);
    assert Bottom(b) == b.subplot.x + b.tick.x + b.tickLabel.x + b.modifier.x + b.axisLabel.x;
    assert r.labelArea.ymin as int == area.ymin as int + b.subplot.x + b.axisLabel.x;
    assert r.modifierArea.ymin as int == r.labelArea.ymin as int + b.modifier.x;
    assert r.tickLabelArea.ymin as int == r.modifierArea.ymin as int + b.tickLabel.x;
  }

  lemma TopSideNested(area: Area, b: Buffers, title: nat)
    requires Top(b, title) <= area.ymax as int
    ensures var r := LayoutAreas(area, b, title);
      r.tickArea.ymax <= r.tickLabelArea.ymax <= r.modifierArea.ymax <= r.labelArea.ymax <= area.ymax &&
      r.plot.ymax as int == area.ymax as int - Top(b, title)
  {
    var r := LayoutAreas(area, b, title);
    assert Top(b, title) == b.subplot.secondaryX + title + b.tick.secondaryX + b.tickLabel.secondaryX + b.modifier.secondaryX + b.axisLabel.secondaryX;
    assert r.labelArea.ymax as int == area.ymax as int - b.subplot.secondaryX - title - b.axisLabel.secondaryX;
    assert r.modifierArea.ymax as int == r.labelArea.ymax as int - b.modifier.secondaryX;
    assert r.tickLabelArea.ymax as int == r.modifierArea.ymax as int - b.tickLabel.secondaryX;
  }
}
