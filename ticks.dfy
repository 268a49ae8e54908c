/** The tick engine of the figure: superscript exponents, the position of a
    number's most significant digit, the offset and multiplier that make
    tick labels short, tick placement and the minor-tick filter, the
    opposite-axis fallback for spans and limits, and the label policies.
    Integer widths follow the source: `u16` counts wrap, `i32` has the
    `i32::MIN` sentinel for zero. Decimal rounding and number formatting
    are parameters (`fmt`). */
module Ticks {
  import opened Float
  import opened Errors
  import opened Subplots

  const I32_MIN: int := -0x8000_0000

  // ---------------------------------------------------------------------
  // Superscript exponents

  /** The superscript glyph of one decimal digit. */
  function SuperDigit(d: nat): (c: char)
    requires d < 10
  {
    if d == 0 then '\U{2070}'
    else if d == 1 then '\U{00B9}'
    else if d == 2 then '\U{00B2}'
    else if d == 3 then '\U{00B3}'
    else (0x2070 + d) as char
  }

  /** The digit a superscript glyph stands for, if it is one. */
  function SuperDigitValue(c: char): (r: Option<nat>)
    ensures r.Some? ==> r.value < 10 && SuperDigit(r.value) == c
  {
    if c == '\U{2070}' then Some(0)
    else if c == '\U{00B9}' then Some(1)
    else if c == '\U{00B2}' then Some(2)
    else if c == '\U{00B3}' then Some(3)
    else if '\U{2074}' <= c <= '\U{2079}' then Some(c as int - 0x2070)
    else None
  }

  lemma SuperDigitInverse(d: nat)
    requires d < 10
    ensures SuperDigitValue(SuperDigit(d)) == Some(d)
  {
  }

  /** Number of decimal digits of `n` (one for zero). */
  function NumDigits(n: nat): (r: nat)
    ensures r >= 1
  {
    if n < 10 then 1 else 1 + NumDigits(n / 10)
  }

  /** `superscript`: the decimal digits of `n` as superscript glyphs, most
      significant first. */
  function Superscript(n: U16): (r: string)
    ensures |r| == NumDigits(n)
    ensures forall i :: 0 <= i < |r| ==> SuperDigitValue(r[i]).Some?
    ensures 0 < n ==> r[0] != SuperDigit(0)
  {
    if n < 10 then [SuperDigit(n)]
    else Superscript(n / 10) + Superscript(n % 10)
  }

  /** Reads a string of superscript digits back as a number. */
  function ParseSuperscript(s: string): Option<nat>
  {
    if |s| == 0 then None
    else
      var d := SuperDigitValue(s[|s| - 1]);
      if d.None? then None
      else if |s| == 1 then d
      else
        var front := ParseSuperscript(s[..|s| - 1]);
        if front.None? then None else Some(10 * front.value + d.value)
  }

  lemma ParseAppendDigit(s: string, d: nat)
    requires d < 10
    requires ParseSuperscript(s).Some?
    ensures ParseSuperscript(s + [SuperDigit(d)]) == Some(10 * ParseSuperscript(s).value + d)
  {
    var t := s + [SuperDigit(d)];
    assert t[..|t| - 1] == s;
    SuperDigitInverse(d);
  }

  /** Reading the superscript back gives the number: the digits are all
      there and in order. */
  lemma {:induction false} SuperscriptRoundTrip(n: U16)
    ensures ParseSuperscript(Superscript(n)) == Some(n)
  {
    if n < 10 {
      SuperDigitInverse(n);
    } else {
      SuperscriptRoundTrip(n / 10);
      assert Superscript(n % 10) == [SuperDigit(n % 10)];
      ParseAppendDigit(Superscript(n / 10), n % 10);
    }
  }

  /** Different numbers have different superscripts. */
  lemma SuperscriptInjective(m: U16, n: U16)
    requires Superscript(m) == Superscript(n)
    ensures m == n
  {
    SuperscriptRoundTrip(m);
    SuperscriptRoundTrip(n);
  }

  /** The exponent text of the tick-label modifier as the source builds it:
      the `i32` multiplier is cast to `u16` before being turned into
      superscript digits, which keeps its low 16 bits. */
  function ExponentTextAsWritten(multiplier: int): (r: string)
    ensures 0 <= multiplier < 0x1_0000 ==> r == Superscript(multiplier)
    ensures -0x1_0000 <= multiplier < 0 ==> r == Superscript(multiplier + 0x1_0000)
  {
    Low16Bits(multiplier);
    Superscript(multiplier % 0x1_0000)
  }

  lemma Low16Bits(m: int)
    ensures 0 <= m < 0x1_0000 ==> m % 0x1_0000 == m
    ensures -0x1_0000 <= m < 0 ==> m % 0x1_0000 == m + 0x1_0000
  {
    if -0x1_0000 <= m < 0 {
      assert m == -1 * 0x1_0000 + (m + 0x1_0000);
    }
  }

  /** A multiplier of -4 (ticks such as 0.0001, 0.0002, ...) is drawn as the
      exponent 65532. */
  lemma NegativeExponentMisdrawn()
    ensures ExponentTextAsWritten(-4) == Superscript(65532)
    ensures ParseSuperscript(ExponentTextAsWritten(-4)) == Some(65532)
    ensures ExponentTextAsWritten(-4) != ExponentText(-4)
  {
    SuperscriptRoundTrip(65532);
  }

  const SUPERSCRIPT_MINUS: char := '\U{207B}'

  /** The exponent text with a superscript minus for negative multipliers. */
  function ExponentText(multiplier: int): (r: string)
    requires -0x1_0000 < multiplier < 0x1_0000
    ensures 0 <= multiplier ==> r == Superscript(multiplier)
    ensures multiplier < 0 ==> r == [SUPERSCRIPT_MINUS] + Superscript(-multiplier)
  {
    if multiplier < 0 then [SUPERSCRIPT_MINUS] + Superscript(-multiplier)
    else Superscript(multiplier)
  }

  /** Reads a signed superscript exponent. */
  function ParseExponent(s: string): Option<int>
  {
    if 0 < |s| && s[0] == SUPERSCRIPT_MINUS then
      var m := ParseSuperscript(s[1..]);
      if m.None? then None else Some(-(m.value as int))
    else
      var m := ParseSuperscript(s);
      if m.None? then None else Some(m.value)
  }

  /** The corrected exponent reads back as the multiplier, sign included. */
  lemma ExponentRoundTrip(multiplier: int)
    requires -0x1_0000 < multiplier < 0x1_0000
    ensures ParseExponent(ExponentText(multiplier)) == Some(multiplier)
  {
    var e := ExponentText(multiplier);
    if multiplier < 0 {
      assert e == [SUPERSCRIPT_MINUS] + Superscript(-multiplier);
      NegativeExponentRoundTrip(-multiplier);
    } else {
      assert e == Superscript(multiplier);
      UnsignedExponentRoundTrip(multiplier);
    }
  }

  lemma NegativeExponentRoundTrip(m: U16)
    requires 0 < m
    ensures ParseExponent([SUPERSCRIPT_MINUS] + Superscript(m)) == Some(-(m as int))
  {
    var s := [SUPERSCRIPT_MINUS] + Superscript(m);
    assert s[0] == SUPERSCRIPT_MINUS;
    assert s[1..] == Superscript(m);
    SuperscriptRoundTrip(m);
  }

  lemma UnsignedExponentRoundTrip(m: U16)
    ensures ParseExponent(Superscript(m)) == Some(m as int)
  {
    var s := Superscript(m);
    assert SuperDigitValue(s[0]).Some?;
    assert SuperDigitValue(SUPERSCRIPT_MINUS).None?;
    assert s[0] != SUPERSCRIPT_MINUS;
    SuperscriptRoundTrip(m);
  }

  /** The text drawn next to an axis for its label multiplier and offset,
      as the source builds it: the exponent is `ExponentTextAsWritten`, so a
      negative multiplier is drawn as a large positive exponent.
      `fmtOffset` is the offset printed with `{}`. */
  function ModifierTextAsWritten(multiplier: int, offset: real, fmtOffset: string): (r: string)
    ensures multiplier == 0 && offset == 0.0 <==> r == ""
    ensures var e := ExponentTextAsWritten(multiplier);
      multiplier != 0 ==> |r| >= 3 + |e| && r[..3 + |e|] == "x10" + e
    ensures var e := ExponentTextAsWritten(multiplier);
      multiplier != 0 && offset != 0.0 ==> r[3 + |e|..] == " + " + fmtOffset
    ensures var e := ExponentTextAsWritten(multiplier);
      multiplier != 0 && offset == 0.0 ==> |r| == 3 + |e|
    ensures multiplier == 0 && offset != 0.0 ==> r == "+ " + fmtOffset
  {
    var e := ExponentTextAsWritten(multiplier);
    if multiplier != 0 && offset != 0.0 then
      assert ("x10" + e + " + " + fmtOffset)[..3 + |e|] == "x10" + e;
      assert ("x10" + e + " + " + fmtOffset)[3 + |e|..] == " + " + fmtOffset;
      "x10" + e + " + " + fmtOffset
    else if multiplier != 0 then "x10" + e
    else if offset != 0.0 then "+ " + fmtOffset
    else ""
  }

  /** The modifier for ticks 0.0001, 0.0002, ... (multiplier -4, no offset)
      is drawn as "x10" followed by the digits of 65532. */
  lemma ModifierMisdrawn(fmtOffset: string)
    ensures ModifierTextAsWritten(-4, 0.0, fmtOffset) == "x10" + Superscript(65532)
  {
  }

  /** The corrected modifier text: as the source builds it, but with the
      signed exponent `ExponentText`. */
  function ModifierText(multiplier: int, offset: real, fmtOffset: string): (r: string)
    requires -0x1_0000 < multiplier < 0x1_0000
    ensures multiplier == 0 && offset == 0.0 <==> r == ""
    ensures var e := ExponentText(multiplier);
      multiplier != 0 ==> |r| >= 3 + |e| && r[..3 + |e|] == "x10" + e
    ensures var e := ExponentText(multiplier);
      multiplier != 0 && offset != 0.0 ==> r[3 + |e|..] == " + " + fmtOffset
    ensures var e := ExponentText(multiplier);
      multiplier != 0 && offset == 0.0 ==> |r| == 3 + |e|
    ensures multiplier == 0 && offset != 0.0 ==> r == "+ " + fmtOffset
  {
    var e := ExponentText(multiplier);
    if multiplier != 0 && offset != 0.0 then
      assert ("x10" + e + " + " + fmtOffset)[..3 + |e|] == "x10" + e;
      assert ("x10" + e + " + " + fmtOffset)[3 + |e|..] == " + " + fmtOffset;
      "x10" + e + " + " + fmtOffset
    else if multiplier != 0 then "x10" + e
    else if offset != 0.0 then "+ " + fmtOffset
    else ""
  }

  /** The exponent in the corrected modifier text reads back as the
      multiplier, sign included. */
  lemma ModifierExponentReadsBack(multiplier: int, offset: real, fmtOffset: string)
    requires -0x1_0000 < multiplier < 0x1_0000 && multiplier != 0
    ensures var r := ModifierText(multiplier, offset, fmtOffset);
      ParseExponent(r[3..3 + |ExponentText(multiplier)|]) == Some(multiplier)
  {
    var r := ModifierText(multiplier, offset, fmtOffset);
    var e := ExponentText(multiplier);
    assert r[3..3 + |e|] == ("x10" + e)[3..] == e;
    ExponentRoundTrip(multiplier);
  }

  /** The two texts agree for multipliers the `u16` cast keeps. */
  lemma ModifierTextsAgree(multiplier: int, offset: real, fmtOffset: string)
    requires 0 <= multiplier < 0x1_0000
    ensures ModifierTextAsWritten(multiplier, offset, fmtOffset) == ModifierText(multiplier, offset, fmtOffset)
  {
  }

  // ---------------------------------------------------------------------
  // Powers of ten and the most significant digit

  /** 10 to the power `k`, for any integer `k`. */
  function Pow10(k: int): real
    decreases if k < 0 then -k else k
  {
    if k == 0 then 1.0
    else if k > 0 then 10.0 * Pow10(k - 1)
    else Pow10(k + 1) / 10.0
  }

  lemma {:induction false} Pow10Positive(k: int)
    ensures Pow10(k) > 0.0
    decreases if k < 0 then -k else k
  {
    if k > 0 {
      Pow10Positive(k - 1);
    } else if k < 0 {
      Pow10Positive(k + 1);
    }
  }

  lemma Pow10Step(k: int)
    ensures Pow10(k + 1) == 10.0 * Pow10(k)
  {
    if k < 0 {
      assert Pow10(k) == Pow10(k + 1) / 10.0;
    }
  }

  lemma {:induction false} Pow10Monotone(j: int, k: int)
    requires j < k
    ensures Pow10(j) < Pow10(k)
    decreases k - j
  {
    Pow10Step(j);
    Pow10Positive(j);
    if j + 1 < k {
      Pow10Monotone(j + 1, k);
    }
  }

  /** Number of divisions by ten while `x` is at least ten. */
  function DigitsAbove(x: real): int
    decreases x.Floor
  {
    if x < 10.0 then 0
    else
      DivTenFloor(x);
      1 + DigitsAbove(x / 10.0)
  }

  lemma DivTenFloor(x: real)
    requires x >= 10.0
    ensures 0 <= (x / 10.0).Floor < x.Floor
  {
  }

  /** Number of multiplications by ten while `x` is below one. */
  function DigitsBelow(x: real): int
    requires x > 0.0
    decreases (1.0 / x).Floor
  {
    if x >= 1.0 then 0
    else
      ReciprocalShrinks(x);
      1 + DigitsBelow(10.0 * x)
  }

  lemma ReciprocalShrinks(x: real)
    requires 0.0 < x < 1.0
    ensures 0 <= (1.0 / (10.0 * x)).Floor < (1.0 / x).Floor
  {
    var y := 1.0 / x;
    assert y > 1.0 by {
      assert y * x == 1.0;
    }
    assert 1.0 / (10.0 * x) == y / 10.0 by {
      assert (y / 10.0) * (10.0 * x) == y * x;
    }
    assert 0 <= (y / 10.0).Floor;
    assert y / 10.0 < y - 0.9;
  }

  /** `sigdigit`: the decimal position of the most significant digit of a
      non-negative number, and `i32::MIN` for zero. */
  function SigDigitOf(x: real): int
    requires x >= 0.0
  {
    if x == 0.0 then I32_MIN
    else if x > 1.0 then DigitsAbove(x)
    else -DigitsBelow(x)
  }

  lemma {:induction false} DigitsAboveBounds(x: real)
    requires x >= 1.0
    ensures Pow10(DigitsAbove(x)) <= x < Pow10(DigitsAbove(x) + 1)
    decreases x.Floor
  {
    var d := DigitsAbove(x);
    if x < 10.0 {
      assert Pow10(1) == 10.0;
    } else {
      DivTenFloor(x);
      DigitsAboveBounds(x / 10.0);
      Pow10Step(d - 1);
      Pow10Step(d);
    }
  }

  lemma {:induction false} DigitsBelowBounds(x: real)
    requires 0.0 < x < 10.0
    ensures Pow10(-DigitsBelow(x)) <= x < Pow10(-DigitsBelow(x) + 1)
    decreases (1.0 / x).Floor
  {
    var d := DigitsBelow(x);
    if x >= 1.0 {
      assert Pow10(1) == 10.0;
    } else {
      ReciprocalShrinks(x);
      DigitsBelowBounds(10.0 * x);
      Pow10Step(-d);
      Pow10Step(-d + 1);
    }
  }

  /** The most significant digit of a positive `x` is at position `k`
      exactly when 10^k <= x < 10^(k+1). */
  lemma SigDigitBounds(x: real)
    requires x > 0.0
    ensures Pow10(SigDigitOf(x)) <= x < Pow10(SigDigitOf(x) + 1)
  {
    if x > 1.0 {
      DigitsAboveBounds(x);
    } else {
      DigitsBelowBounds(x);
    }
  }

  lemma SigDigitUnique(x: real, k: int)
    requires Pow10(k) <= x < Pow10(k + 1)
    ensures x > 0.0
    ensures SigDigitOf(x) == k
  {
    Pow10Positive(k);
    var s := SigDigitOf(x);
    SigDigitBounds(x);
    if s < k {
      Pow10Monotone(s + 1, k + 1);
      if s + 1 < k {
        Pow10Monotone(s + 1, k);
      }
      assert false;
    } else if s > k {
      if k + 1 < s {
        Pow10Monotone(k + 1, s);
      }
      assert false;
    }
  }

  /** For positive `x`, the most significant digit lies below position `k`
      exactly when `x` is below 10^k. */
  lemma SigDigitBelow(x: real, k: int)
    requires x > 0.0
    ensures SigDigitOf(x) < k <==> x < Pow10(k)
  {
    var s := SigDigitOf(x);
    SigDigitBounds(x);
    if s < k {
      if s + 1 < k {
        Pow10Monotone(s + 1, k);
      }
    } else if s > k {
      Pow10Monotone(k, s);
    }
  }

  /** `sigdigit` as the source computes it, by repeated division or
      multiplication by ten. A negative argument makes the second loop run
      forever, so the method requires a non-negative one. */
  method SigDigit(num: real) returns (r: int)
    requires num >= 0.0
    ensures r == SigDigitOf(num)
  {
    if num == 0.0 {
      return I32_MIN;
    }
    var n := num;
    if n > 1.0 {
      r := 0;
      while n >= 10.0
        invariant n >= 1.0
        invariant r + DigitsAbove(n) == DigitsAbove(num)
        decreases n.Floor
      {
        DivTenFloor(n);
        n := n / 10.0;
        r := r + 1;
      }
    } else {
      r := 0;
      while n < 1.0
        invariant n > 0.0
        invariant r - DigitsBelow(n) == -DigitsBelow(num)
        decreases (1.0 / n).Floor
      {
        ReciprocalShrinks(n);
        n := n * 10.0;
        r := r - 1;
      }
    }
  }

  // ---------------------------------------------------------------------
  // Offset and multiplier of tick labels

  /** `round`: half away from zero. */
  function Round(x: real): int
  {
    if x >= 0.0 then (x + 0.5).Floor else -((-x + 0.5).Floor)
  }

  /** `round_to`: rounds `x` to `place` decimal places. */
  function RoundTo(x: real, place: int): real
  {
    Pow10Positive(place);
    Round(x * Pow10(place)) as real / Pow10(place)
  }

  lemma RoundToNonNegative(x: real, place: int)
    requires x >= 0.0
    ensures RoundTo(x, place) >= 0.0
  {
    Pow10Positive(place);
    var p := Pow10(place);
    assert x * p >= 0.0;
    assert Round(x * p) >= 0;
  }

  /** The values of finite ticks. */
  function Values(ticks: seq<F64>): (v: seq<real>)
    requires AllFinite(ticks)
    ensures |v| == |ticks|
    ensures forall i :: 0 <= i < |v| ==> ticks[i] == Fin(v[i])
  {
    seq(|ticks|, i requires 0 <= i < |ticks| => ticks[i].v)
  }

  /** Differences between consecutive ticks. */
  function Difs(v: seq<real>): (d: seq<real>)
    requires |v| >= 1
    ensures |d| == |v| - 1
    ensures forall i :: 0 <= i < |d| ==> d[i] == v[i + 1] - v[i]
  {
    seq(|v| - 1, i requires 0 <= i < |v| - 1 => v[i + 1] - v[i])
  }

  /** The left fold keeping the larger of the running value and the next. */
  function ReduceMax(d: seq<real>): (m: real)
    requires |d| >= 1
    ensures exists i :: 0 <= i < |d| && m == d[i]
    ensures forall i :: 0 <= i < |d| ==> d[i] <= m
  {
    if |d| == 1 then d[0]
    else
      var front := ReduceMax(d[..|d| - 1]);
      assert forall i :: 0 <= i < |d| - 1 ==> d[..|d| - 1][i] == d[i];
      if d[|d| - 1] > front then d[|d| - 1] else front
  }

  /** The quantities `tick_modifiers` derives, in order. */
  function MaxDif(v: seq<real>): real
    requires |v| >= 2
  {
    ReduceMax(Difs(v))
  }

  function LastMultiplier(v: seq<real>): int
    requires |v| >= 1 && v[|v| - 1] >= 0.0
  {
    SigDigitOf(v[|v| - 1])
  }

  function DifMultiplier(v: seq<real>): int
    requires |v| >= 2 && v[|v| - 1] >= 0.0 && MaxDif(v) >= 0.0
  {
    if MaxDif(v) != 0.0 then SigDigitOf(MaxDif(v)) else LastMultiplier(v)
  }

  /** Whether the first tick becomes the offset. With the zero sentinel
      `i32::MIN`, `max_multiplier - 3` wraps around to `i32::MAX - 2` (a
      release build), so the offset is then always used. */
  predicate OffsetUsed(v: seq<real>)
    requires |v| >= 2 && v[|v| - 1] >= 0.0 && MaxDif(v) >= 0.0
  {
    var mm := LastMultiplier(v);
    mm == I32_MIN || DifMultiplier(v) < mm - 3
  }

  function OffsetOf(v: seq<real>): real
    requires |v| >= 2 && v[|v| - 1] >= 0.0 && MaxDif(v) >= 0.0
  {
    if OffsetUsed(v) then v[0] else 0.0
  }

  /** The number whose most significant digit decides the multiplier: the
      last tick less the offset, rounded to three digits below the largest
      tick difference. */
  function Rounded(v: seq<real>): real
    requires |v| >= 2 && v[|v| - 1] >= 0.0 && MaxDif(v) >= 0.0
  {
    RoundTo(v[|v| - 1] - OffsetOf(v), 3 - DifMultiplier(v))
  }

  /** The conditions under which `tick_modifiers` on NaN-free ticks returns
      at all: at least two ticks (one tick leaves no difference and the
      `reduce` result is unwrapped), the last tick, the largest difference
      and the rounded number non-negative (`sigdigit` loops forever on a
      negative number), and all ticks finite. */
  predicate Solvable(ticks: seq<F64>)
  {
    |ticks| >= 2 && AllFinite(ticks) &&
    var v := Values(ticks);
    v[|v| - 1] >= 0.0 && MaxDif(v) >= 0.0 &&
    (DifMultiplier(v) == I32_MIN || Rounded(v) >= 0.0)
  }

  /** Offset subtracted from every tick, power of ten factored out of the
      labels, and the most decimal places a label may show. */
  datatype Modifiers = Modifiers(offset: real, multiplier: int, maxPrecision: nat)

  /** The position of the most significant digit of the rounded number.
      When both multipliers are the zero sentinel, `3 - i32::MIN` wraps to
      `i32::MIN + 3`, the power of ten underflows to zero, the rounding
      gives NaN and `sigdigit(NaN)` is 0. */
  function Recomputed(v: seq<real>): int
    requires |v| >= 2 && v[|v| - 1] >= 0.0 && MaxDif(v) >= 0.0
    requires DifMultiplier(v) == I32_MIN || Rounded(v) >= 0.0
  {
    if DifMultiplier(v) == I32_MIN then 0 else SigDigitOf(Rounded(v))
  }

  function SolveModifiers(v: seq<real>): (m: Modifiers)
    requires |v| >= 2 && v[|v| - 1] >= 0.0 && MaxDif(v) >= 0.0
    requires DifMultiplier(v) == I32_MIN || Rounded(v) >= 0.0
    ensures m.offset == 0.0 || m.offset == v[0]
    ensures m.maxPrecision <= 3
  {
    var rec := Recomputed(v);
    var multiplier := if !(-2 <= rec <= 3) then rec else 0;
    var maxPrecision := if multiplier != 0 || rec < 0 then 3 else 3 - rec;
    Modifiers(OffsetOf(v), multiplier, maxPrecision)
  }

  /** `tick_modifiers`. The third component is the precision bound
      `max_precision`; the decimal-digit count below it is not modelled. */
  function TickModifiers(ticks: seq<F64>): (r: Result<Modifiers>)
    requires !HasNaN(ticks) && |ticks| > 0 ==> Solvable(ticks)
    ensures HasNaN(ticks) <==> r == Err(BadTickPlacement("tick is NaN"))
    ensures !HasNaN(ticks) && |ticks| == 0 ==> r == Ok(Modifiers(0.0, 0, 0))
    ensures r.Ok? ==> r.value.maxPrecision <= 3
  {
    if HasNaN(ticks) then Err(BadTickPlacement("tick is NaN"))
    else if |ticks| == 0 then Ok(Modifiers(0.0, 0, 0))
    else Ok(SolveModifiers(Values(ticks)))
  }

  /** Labels drop the power of ten exactly when the rounded number is
      outside [0.01, 10000); the power dropped is then the position of its
      most significant digit. */
  lemma MultiplierMeaning(v: seq<real>)
    requires |v| >= 2 && v[|v| - 1] >= 0.0 && MaxDif(v) >= 0.0
    requires DifMultiplier(v) != I32_MIN && Rounded(v) > 0.0
    ensures var m := SolveModifiers(v).multiplier;
      (m == 0 <==> Pow10(-2) <= Rounded(v) < Pow10(4)) &&
      (m != 0 ==> Pow10(m) <= Rounded(v) < Pow10(m + 1))
  {
    var x := Rounded(v);
    SigDigitBounds(x);
    SigDigitBelow(x, -2);
    SigDigitBelow(x, 4);
  }

  /** When labels keep their power of ten and the number is at least one,
      the digits before the point and the decimal places add up to four. */
  lemma PrecisionMeaning(v: seq<real>)
    requires |v| >= 2 && v[|v| - 1] >= 0.0 && MaxDif(v) >= 0.0
    requires DifMultiplier(v) != I32_MIN && Rounded(v) >= 1.0
    requires SolveModifiers(v).multiplier == 0
    ensures SolveModifiers(v).maxPrecision + SigDigitOf(Rounded(v)) == 3
  {
    SigDigitBelow(Rounded(v), 0);
    assert Pow10(0) == 1.0;
  }

  /** Below the smallest positive `f64` (about 4.9e-324). */
  const MIN_POSITIVE: real := Pow10(-324)

  /** With a positive last tick and distinct ticks, the first tick becomes
      the offset exactly when the largest gap between ticks is below a
      thousandth of the power of ten of the last tick's leading digit. */
  lemma OffsetMeaning(v: seq<real>)
    requires |v| >= 2 && v[|v| - 1] > 0.0 && v[|v| - 1] >= MIN_POSITIVE && MaxDif(v) > 0.0
    ensures OffsetUsed(v) <==> MaxDif(v) < Pow10(SigDigitOf(v[|v| - 1]) - 3)
  {
    Pow10Positive(-324);
    SigDigitBelow(v[|v| - 1], -324);
    SigDigitBelow(MaxDif(v), SigDigitOf(v[|v| - 1]) - 3);
  }

  /** A last tick of exactly zero makes the wrapped comparison use the
      first tick as offset whatever the tick spacing. */
  lemma ZeroLastTickForcesOffset(v: seq<real>)
    requires |v| >= 2 && v[|v| - 1] == 0.0 && MaxDif(v) >= 0.0
    ensures OffsetOf(v) == v[0]
  {
  }

  /** Ticks -4, -3, ..., 0 are labelled relative to the offset -4. */
  lemma ZeroEndedTicksExample()
    ensures var v := [-4.0, -3.0, -2.0, -1.0, 0.0];
      MaxDif(v) == 1.0 && OffsetOf(v) == -4.0
  {
    var v := [-4.0, -3.0, -2.0, -1.0, 0.0];
    var d := Difs(v);
    assert d == [1.0, 1.0, 1.0, 1.0];
    assert d[..3] == [1.0, 1.0, 1.0];
    assert d[..2] == [1.0, 1.0];
    assert d[..1] == [1.0];
  }

  // ---------------------------------------------------------------------
  // Tick placement

  /** `n` ticks evenly spaced from `lo` to `hi` in `f64` arithmetic. */
  function EvenTicks(lo: F64, hi: F64, n: nat): (r: seq<F64>)
    ensures |r| == n
  {
    seq(n, i requires 0 <= i < n =>
      Add(lo, Mul(Sub(hi, lo), Div(Fin(i as real), Fin((n - 1) as real)))))
  }

  /** One tick computes 0.0 / 0.0: it is NaN. */
  lemma EvenTicksSingle(lo: F64, hi: F64)
    ensures EvenTicks(lo, hi, 1) == [NaN]
  {
  }

  /** From two ticks on and with finite ends, the first tick is `lo`, the
      last `hi`, and consecutive ticks are the same distance apart. */
  lemma EvenTicksSpacing(lo: real, hi: real, n: nat)
    requires n >= 2
    ensures var r := EvenTicks(Fin(lo), Fin(hi), n);
      r[0] == Fin(lo) && r[n - 1] == Fin(hi) &&
      AllFinite(r) &&
      forall i :: 0 <= i < n - 1 ==> r[i + 1].v - r[i].v == (hi - lo) / (n - 1) as real
  {
    var r := EvenTicks(Fin(lo), Fin(hi), n);
    forall i | 0 <= i < n ensures r[i].Fin? {
      EvenTickValue(lo, hi, n, i);
    }
    EvenTickEnds(lo, hi, n);
    forall i | 0 <= i < n - 1
      ensures r[i + 1].v - r[i].v == (hi - lo) / (n - 1) as real
    {
      EvenTickStep(lo, hi, n, i);
    }
  }

  lemma EvenTickEnds(lo: real, hi: real, n: nat)
    requires n >= 2
    ensures EvenTicks(Fin(lo), Fin(hi), n)[0] == Fin(lo)
    ensures EvenTicks(Fin(lo), Fin(hi), n)[n - 1] == Fin(hi)
  {
    var k := (n - 1) as real;
    EvenTickValue(lo, hi, n, 0);
    EvenTickValue(lo, hi, n, n - 1);
    assert (n - 1) as real / k == 1.0;
  }

  lemma EvenTickStep(lo: real, hi: real, n: nat, i: nat)
    requires n >= 2 && i < n - 1
    ensures EvenTicks(Fin(lo), Fin(hi), n)[i + 1].v - EvenTicks(Fin(lo), Fin(hi), n)[i].v == (hi - lo) / (n - 1) as real
  {
    EvenTickValue(lo, hi, n, i);
    EvenTickValue(lo, hi, n, i + 1);
    EvenStep(lo, hi, i as real, (n - 1) as real);
  }

  lemma EvenTickValue(lo: real, hi: real, n: nat, i: nat)
    requires n >= 2 && i < n
    ensures EvenTicks(Fin(lo), Fin(hi), n)[i] == Fin(lo + (hi - lo) * (i as real / (n - 1) as real))
  {
    var q := Div(Fin(i as real), Fin((n - 1) as real));
    assert q == Fin(i as real / (n - 1) as real);
    assert Sub(Fin(hi), Fin(lo)) == Fin(hi - lo);
  }

  lemma EvenStep(lo: real, hi: real, i: real, k: real)
    requires k > 0.0
    ensures (lo + (hi - lo) * ((i + 1.0) / k)) - (lo + (hi - lo) * (i / k)) == (hi - lo) / k
  {
    assert (i + 1.0) / k == i / k + 1.0 / k;
    assert (hi - lo) * (i / k + 1.0 / k) == (hi - lo) * (i / k) + (hi - lo) * (1.0 / k);
    assert (hi - lo) * (1.0 / k) == (hi - lo) / k;
  }

  /** `u16` multiplication wraps around (a release build). */
  function WrapU16(x: nat): (r: U16)
    ensures x < 0x1_0000 ==> r == x
  {
    x % 0x1_0000
  }

  /** How many major ticks a spacing asks for; `Manual` is handled apart. */
  function MajorCount(spacing: TickSpacing, primary: bool): (n: U16)
    ensures spacing.Count? ==> n == spacing.n
    ensures spacing.NoTicks? || spacing.Manual? || (spacing.Auto? && !primary) <==> n == 0 && !spacing.Count?
  {
    match spacing
    case Count(n) => n
    case On => 5
    case Auto => if primary then 5 else 0
    case NoTicks => 0
    case Manual(_) => 0
  }

  /** How many minor ticks: five per major tick for `On` (and `Auto` on a
      used axis), the major count being cast to `u16` first. */
  function MinorCount(spacing: TickSpacing, primary: bool, nmajor: nat): (n: U16)
    ensures spacing.Count? ==> n == spacing.n
    ensures (spacing.On? || (spacing.Auto? && primary)) && nmajor * 5 < 0x1_0000 ==> n == nmajor * 5
    ensures spacing.NoTicks? || spacing.Manual? || (spacing.Auto? && !primary) ==> n == 0
  {
    match spacing
    case Count(n) => n
    case On => WrapU16((nmajor % 0x1_0000) * 5)
    case Auto => if primary then WrapU16((nmajor % 0x1_0000) * 5) else 0
    case NoTicks => 0
    case Manual(_) => 0
  }

  function MajorTicks(spacing: TickSpacing, span: (F64, F64), primary: bool): (r: seq<F64>)
    ensures spacing.Manual? ==> r == spacing.ticks
    ensures !spacing.Manual? ==> |r| == MajorCount(spacing, primary)
  {
    if spacing.Manual? then spacing.ticks
    else EvenTicks(span.0, span.1, MajorCount(spacing, primary))
  }

  function MinorTicks(spacing: TickSpacing, span: (F64, F64), primary: bool, nmajor: nat): (r: seq<F64>)
    ensures spacing.Manual? ==> r == spacing.ticks
    ensures !spacing.Manual? ==> |r| == MinorCount(spacing, primary, nmajor)
  {
    if spacing.Manual? then spacing.ticks
    else EvenTicks(span.0, span.1, MinorCount(spacing, primary, nmajor))
  }

  /** Whether `t` equals some major tick under IEEE `==`. */
  predicate InTicks(t: F64, major: seq<F64>)
  {
    exists k :: 0 <= k < |major| && Eq(major[k], t)
  }

  /** The minor ticks that are not also major ticks, in order. */
  function RemoveMajor(minor: seq<F64>, major: seq<F64>): (r: seq<F64>)
    ensures |r| <= |minor|
    ensures forall i :: 0 <= i < |r| ==> r[i] in minor && !InTicks(r[i], major)
  {
    if |minor| == 0 then []
    else (if InTicks(minor[0], major) then [] else [minor[0]]) + RemoveMajor(minor[1..], major)
  }

  /** No minor tick is dropped unless it coincides with a major one; a NaN
      minor tick equals nothing and stays. */
  lemma {:induction false} RemoveMajorKeeps(minor: seq<F64>, major: seq<F64>, t: F64)
    requires t in minor && !InTicks(t, major)
    ensures t in RemoveMajor(minor, major)
  {
    if minor[0] != t {
      RemoveMajorKeeps(minor[1..], major, t);
    }
  }

  /** A single minor tick is dropped exactly when it equals a major tick. */
  lemma RemoveMajorSingle(t: F64, major: seq<F64>)
    ensures RemoveMajor([t], major) == if InTicks(t, major) then [] else [t]
  {
    assert [t][1..] == [];
  }

  /** Removal works piece by piece: the kept ticks of a concatenation are the
      kept ticks of each part, in order and with repeats. With
      RemoveMajorSingle this determines the result for every minor list. */
  lemma {:induction false} RemoveMajorAppend(a: seq<F64>, b: seq<F64>, major: seq<F64>)
    ensures RemoveMajor(a + b, major) == RemoveMajor(a, major) + RemoveMajor(b, major)
    decreases |a|
  {
    if |a| == 0 {
      assert a + b == b;
    } else {
      assert (a + b)[0] == a[0];
      assert (a + b)[1..] == a[1..] + b;
      RemoveMajorAppend(a[1..], b, major);
    }
  }

  /** Removing the major ticks twice is removing them once. */
  lemma {:induction false} RemoveMajorIdempotent(minor: seq<F64>, major: seq<F64>)
    ensures RemoveMajor(RemoveMajor(minor, major), major) == RemoveMajor(minor, major)
  {
    if |minor| > 0 {
      RemoveMajorIdempotent(minor[1..], major);
      var rest := RemoveMajor(minor[1..], major);
      assert RemoveMajor(rest, major) == rest;
      if !InTicks(minor[0], major) {
        var r := [minor[0]] + rest;
        assert r[0] == minor[0] && r[1..] == rest;
        assert RemoveMajor(r, major) == [minor[0]] + RemoveMajor(rest, major);
      } else {
        assert RemoveMajor(minor, major) == rest;
      }
    }
  }

  // ---------------------------------------------------------------------
  // Span and limits of an axis

  /** The axis on the other side of the plot area. */
  function Opposite(slot: AxisType): (r: AxisType)
    ensures r != slot
    ensures (slot == X || slot == SecondaryX) <==> (r == X || r == SecondaryX)
  {
    match slot
    case X => SecondaryX
    case SecondaryX => X
    case Y => SecondaryY
    case SecondaryY => Y
  }

  lemma OppositeInvolution(slot: AxisType)
    ensures Opposite(Opposite(slot)) == slot
  {
  }

  const DEFAULT_RANGE: (F64, F64) := (Fin(-1.0), Fin(1.0))

  predicate HasRange(axis: AxisDescriptor)
  {
    axis.span.Some? && axis.limits.Some?
  }

  /** The span and limits an axis is drawn with: its own when it has both,
      otherwise those of the opposite axis when it has both, otherwise
      (-1, 1) for each. */
  function ResolveRange(axes: PerSlot<AxisDescriptor>, slot: AxisType): (r: ((F64, F64), (F64, F64)))
    ensures HasRange(axes.Get(slot)) ==> r == (axes.Get(slot).span.value, axes.Get(slot).limits.value)
    ensures !HasRange(axes.Get(slot)) && HasRange(axes.Get(Opposite(slot))) ==>
      r == (axes.Get(Opposite(slot)).span.value, axes.Get(Opposite(slot)).limits.value)
    ensures !HasRange(axes.Get(slot)) && !HasRange(axes.Get(Opposite(slot))) ==> r == (DEFAULT_RANGE, DEFAULT_RANGE)
  {
    var axis := axes.Get(slot);
    if HasRange(axis) then (axis.span.value, axis.limits.value)
    else
      var opposite := axes.Get(Opposite(slot));
      if HasRange(opposite) then (opposite.span.value, opposite.limits.value)
      else (DEFAULT_RANGE, DEFAULT_RANGE)
  }

  /** When only one of two opposite axes has data, both are drawn over the
      same span and limits. */
  lemma OppositeAxesShareRange(axes: PerSlot<AxisDescriptor>, slot: AxisType)
    requires HasRange(axes.Get(slot)) && !HasRange(axes.Get(Opposite(slot)))
    ensures ResolveRange(axes, Opposite(slot)) == ResolveRange(axes, slot)
  {
    OppositeInvolution(slot);
  }

  /** Whether some series or fill is plotted against the axis. */
  predicate IsPrimary(slot: AxisType, plots: seq<PlotInfo>, fills: seq<FillInfo>)
  {
    (exists i :: 0 <= i < |plots| && (plots[i].xaxis == slot || plots[i].yaxis == slot)) ||
    (exists i :: 0 <= i < |fills| && (fills[i].xaxis == slot || fills[i].yaxis == slot))
  }

  /** Plotting a series makes exactly its two axes used, in addition to
      those already used. */
  lemma IsPrimaryAfterPlot(slot: AxisType, plots: seq<PlotInfo>, fills: seq<FillInfo>, info: PlotInfo)
    ensures IsPrimary(slot, plots + [info], fills) <==>
      IsPrimary(slot, plots, fills) || info.xaxis == slot || info.yaxis == slot
  {
    var ps := plots + [info];
    if info.xaxis == slot || info.yaxis == slot {
      assert ps[|plots|] == info;
    }
    if IsPrimary(slot, plots, fills) {
      if exists i :: 0 <= i < |plots| && (plots[i].xaxis == slot || plots[i].yaxis == slot) {
        var i :| 0 <= i < |plots| && (plots[i].xaxis == slot || plots[i].yaxis == slot);
        assert ps[i] == plots[i];
      }
    }
  }

  lemma NothingPlottedNothingPrimary(slot: AxisType)
    ensures !IsPrimary(slot, [], [])
  {
  }

  // ---------------------------------------------------------------------
  // Tick labels

  /** Ticks ordered by IEEE `<=` (defined on NaN-free ticks). */
  predicate SortedTicks(s: seq<F64>)
  {
    forall i, j :: 0 <= i < j < |s| ==> Le(s[i], s[j])
  }

  function InsertTick(t: F64, s: seq<F64>): (r: seq<F64>)
    ensures |r| == |s| + 1
    ensures multiset(r) == multiset(s) + multiset{t}
  {
    if |s| == 0 then [t]
    else if Le(t, s[0]) then [t] + s
    else
      assert s == [s[0]] + s[1..];
      [s[0]] + InsertTick(t, s[1..])
  }

  lemma {:induction false} InsertTickSorted(t: F64, s: seq<F64>)
    requires !t.NaN? && SortedTicks(s) && !HasNaN(s)
    ensures SortedTicks(InsertTick(t, s)) && !HasNaN(InsertTick(t, s))
    decreases |s|
  {
    var r := InsertTick(t, s);
    if |s| == 0 {
      assert r == [t];
    } else if Le(t, s[0]) {
      forall j | 0 <= j < |s| ensures Le(t, s[j]) {
        if j > 0 { LeTransitive(t, s[0], s[j]); }
      }
      SortedCons(t, s);
      assert r == [t] + s;
    } else {
      var tail := s[1..];
      assert s == [s[0]] + tail;
      var rest := InsertTick(t, tail);
      InsertTickSorted(t, tail);
      LeTotal(t, s[0]);
      forall k | 0 <= k < |tail| ensures Le(s[0], tail[k]) {
        assert tail[k] == s[k + 1];
      }
      InsertTickBounded(s[0], t, tail);
      SortedCons(s[0], rest);
      assert r == [s[0]] + rest;
    }
  }

  /** A lower bound of `t` and of every tick of `s` bounds the insertion. */
  lemma {:induction false} InsertTickBounded(b: F64, t: F64, s: seq<F64>)
    requires Le(b, t) && forall k :: 0 <= k < |s| ==> Le(b, s[k])
    ensures forall j :: 0 <= j < |InsertTick(t, s)| ==> Le(b, InsertTick(t, s)[j])
    decreases |s|
  {
    var r := InsertTick(t, s);
    if |s| == 0 {
      assert r == [t];
    } else if Le(t, s[0]) {
      assert r == [t] + s;
    } else {
      var tail := s[1..];
      assert forall k :: 0 <= k < |tail| ==> tail[k] == s[k + 1];
      InsertTickBounded(b, t, tail);
      assert r == [s[0]] + InsertTick(t, tail);
    }
  }

  /** A NaN-free, sorted sequence stays so with a NaN-free lower bound in front. */
  lemma SortedCons(x: F64, rest: seq<F64>)
    requires !x.NaN? && SortedTicks(rest) && !HasNaN(rest)
    requires forall j :: 0 <= j < |rest| ==> Le(x, rest[j])
    ensures SortedTicks([x] + rest) && !HasNaN([x] + rest)
  {
    var r := [x] + rest;
    forall i, j | 0 <= i < j < |r| ensures Le(r[i], r[j]) {
      assert r[j] == rest[j - 1];
      if 0 < i { assert r[i] == rest[i - 1]; }
    }
    forall i | 0 <= i < |r| ensures !r[i].NaN? {
      if 0 < i { assert r[i] == rest[i - 1]; }
    }
  }

  /** The ticks sorted ascending; a permutation of the input. */
  function SortTicks(s: seq<F64>): (r: seq<F64>)
    requires !HasNaN(s)
    ensures multiset(r) == multiset(s) && |r| == |s|
    ensures SortedTicks(r) && !HasNaN(r)
  {
    if |s| == 0 then []
    else
      assert s == s[..|s| - 1] + [s[|s| - 1]];
      var init := s[..|s| - 1];
      assert !HasNaN(init) by {
        forall i | 0 <= i < |init| ensures !init[i].NaN? { assert init[i] == s[i]; }
      }
      var front := SortTicks(init);
      InsertTickSorted(s[|s| - 1], front);
      InsertTick(s[|s| - 1], front)
  }

  /** `ticks_to_labels`: one label per tick, in ascending order of the
      ticks; `fmt` renders one tick given the modifiers (rounding, shifting
      by the multiplier and printing with the precision). */
  function TicksToLabels(ticks: seq<F64>, mods: Modifiers, fmt: (F64, Modifiers) -> string): (r: Result<seq<string>>)
    ensures HasNaN(ticks) <==> r == Err(BadTickPlacement("tick is NaN"))
    ensures r.Ok? ==> |r.value| == |ticks|
    ensures r.Ok? ==> exists sorted: seq<F64> ::
      multiset(sorted) == multiset(ticks) && SortedTicks(sorted) && |sorted| == |ticks| &&
      forall i :: 0 <= i < |sorted| ==> r.value[i] == fmt(sorted[i], mods)
  {
    if HasNaN(ticks) then Err(BadTickPlacement("tick is NaN"))
    else if |ticks| == 0 then Ok([])
    else
      var sorted := SortTicks(ticks);
      Ok(seq(|sorted|, i requires 0 <= i < |sorted| => fmt(sorted[i], mods)))
  }

  /** Major labels with the multiplier and offset shown beside the axis. */
  datatype MajorLabelling = MajorLabelling(labels: seq<string>, multiplier: int, offset: real)

  predicate Labelled(policy: TickLabels, primary: bool)
  {
    policy.LabelsOn? || (policy.LabelsAuto? && primary)
  }

  /** Computed labels need the modifiers of the major ticks to exist. */
  predicate LabelsComputable(ticks: seq<F64>)
  {
    !HasNaN(ticks) && |ticks| > 0 ==> Solvable(ticks)
  }

  /** Labels of the major ticks: given by hand, computed (`On`, and `Auto`
      on a used axis) or none. */
  function MajorLabels(policy: TickLabels, major: seq<F64>, primary: bool,
                       fmt: (F64, Modifiers) -> string): (r: Result<MajorLabelling>)
    requires Labelled(policy, primary) ==> LabelsComputable(major)
    ensures policy.ManualLabels? ==> r == Ok(MajorLabelling(policy.labels, 0, 0.0))
    ensures !policy.ManualLabels? && !Labelled(policy, primary) ==> r == Ok(MajorLabelling([], 0, 0.0))
    ensures Labelled(policy, primary) ==> (r.Err? <==> HasNaN(major))
    ensures Labelled(policy, primary) && r.Ok? ==>
      |r.value.labels| == |major| &&
      r.value.multiplier == TickModifiers(major).value.multiplier &&
      r.value.offset == TickModifiers(major).value.offset
  {
    if policy.ManualLabels? then Ok(MajorLabelling(policy.labels, 0, 0.0))
    else if Labelled(policy, primary) then
      var mods := TickModifiers(major);
      if mods.Err? then Err(mods.error)
      else
        var labels := TicksToLabels(major, mods.value, fmt);
        Ok(MajorLabelling(labels.value, mods.value.multiplier, mods.value.offset))
    else Ok(MajorLabelling([], 0, 0.0))
  }

  /** Labels of the minor ticks, computed with the modifiers of the major
      ticks. */
  function MinorLabels(policy: TickLabels, major: seq<F64>, minor: seq<F64>, primary: bool,
                       fmt: (F64, Modifiers) -> string): (r: Result<seq<string>>)
    requires Labelled(policy, primary) ==> LabelsComputable(major)
    ensures policy.ManualLabels? ==> r == Ok(policy.labels)
    ensures !policy.ManualLabels? && !Labelled(policy, primary) ==> r == Ok([])
    ensures Labelled(policy, primary) ==> (r.Err? <==> HasNaN(major) || HasNaN(minor))
    ensures Labelled(policy, primary) && r.Ok? ==> |r.value| == |minor|
  {
    if policy.ManualLabels? then Ok(policy.labels)
    else if Labelled(policy, primary) then
      var mods := TickModifiers(major);
      if mods.Err? then Err(mods.error)
      else TicksToLabels(minor, mods.value, fmt)
    else Ok([])
  }

  /** The name of an axis in error messages. */
  function AxisName(slot: AxisType): string
  {
    match slot
    case Y => "y-axis"
    case X => "x-axis"
    case SecondaryY => "secondary y-axis"
    case SecondaryX => "secondary x-axis"
  }

  const LABEL_COUNT_MESSAGE := "number of tick labels does not match number of ticks on "

  /** The labels drawn beside `nticks` ticks: none given means an empty
      label per tick; otherwise there must be one per tick. */
  function MatchLabels(labels: seq<string>, nticks: nat, slot: AxisType): (r: Result<seq<string>>)
    ensures r.Ok? ==> |r.value| == nticks
    ensures r.Err? <==> |labels| != 0 && |labels| != nticks
    ensures r.Err? ==> r.error == BadTickLabels(LABEL_COUNT_MESSAGE + AxisName(slot))
    ensures |labels| == 0 ==> r.Ok? && forall i :: 0 <= i < nticks ==> r.value[i] == ""
    ensures |labels| == nticks ==> r == Ok(labels)
  {
    if |labels| == 0 then Ok(seq(nticks, _ => ""))
    else if |labels| != nticks then Err(BadTickLabels(LABEL_COUNT_MESSAGE + AxisName(slot)))
    else Ok(labels)
  }

  /** Computed labels always match their ticks: only hand-given labels can
      fail the count check. */
  lemma ComputedLabelsMatch(policy: TickLabels, major: seq<F64>, primary: bool,
                            fmt: (F64, Modifiers) -> string, slot: AxisType)
    requires !policy.ManualLabels?
    requires Labelled(policy, primary) ==> LabelsComputable(major)
    requires MajorLabels(policy, major, primary, fmt).Ok?
    ensures MatchLabels(MajorLabels(policy, major, primary, fmt).value.labels, |major|, slot).Ok?
  {
  }

  /** An axis ready to be drawn. */
  datatype AxisFinalized = AxisFinalized(
    labelText: string,
    majorTicks: seq<F64>,
    majorLabels: seq<string>,
    minorTicks: seq<F64>,
    minorLabels: seq<string>,
    multiplier: int,
    offset: real,
    majorGrid: bool,
    minorGrid: bool,
    limits: (F64, F64),
    visible: bool)

  /** The condition under which finalizing an axis terminates. */
  predicate Finalizable(axis: AxisDescriptor, span: (F64, F64), primary: bool)
  {
    var major := MajorTicks(axis.majorTickMarks, span, primary);
    (Labelled(axis.majorTickLabels, primary) || Labelled(axis.minorTickLabels, primary)) ==>
      LabelsComputable(major)
  }

  /** Ticks, labels and grid flags of one axis, from its descriptor, its
      resolved span and limits and whether it is used. */
  function FinalizeAxis(axis: AxisDescriptor, span: (F64, F64), limits: (F64, F64), primary: bool,
                        fmt: (F64, Modifiers) -> string): (r: Result<AxisFinalized>)
    requires Finalizable(axis, span, primary)
    ensures r.Ok? ==> r.value.majorTicks == MajorTicks(axis.majorTickMarks, span, primary)
    ensures r.Ok? ==> (r.value.minorTicks ==
      RemoveMajor(MinorTicks(axis.minorTickMarks, span, primary, |r.value.majorTicks|), r.value.majorTicks))
    ensures r.Ok? ==> r.value.majorGrid == !axis.grid.NoGrid? && r.value.minorGrid == axis.grid.Full?
    ensures r.Ok? ==> r.value.limits == limits && r.value.labelText == axis.labelText && r.value.visible == axis.visible
    ensures r.Err? ==> r.error.BadTickPlacement?
  {
    var major := MajorTicks(axis.majorTickMarks, span, primary);
    var minor := RemoveMajor(MinorTicks(axis.minorTickMarks, span, primary, |major|), major);
    var majorLab := MajorLabels(axis.majorTickLabels, major, primary, fmt);
    if majorLab.Err? then Err(majorLab.error)
    else
      var minorLab := MinorLabels(axis.minorTickLabels, major, minor, primary, fmt);
      if minorLab.Err? then Err(minorLab.error)
      else
        Ok(AxisFinalized(axis.labelText, major, majorLab.value.labels, minor, minorLab.value,
                         majorLab.value.multiplier, majorLab.value.offset,
                         !axis.grid.NoGrid?, axis.grid.Full?, limits, axis.visible))
  }

  /** `Count(1)` on a labelled axis fails with the NaN-tick error. */
  lemma SingleCountTickFails(axis: AxisDescriptor, span: (F64, F64), limits: (F64, F64), primary: bool,
                             fmt: (F64, Modifiers) -> string)
    requires axis.majorTickMarks == Count(1) && Labelled(axis.majorTickLabels, primary)
    ensures Finalizable(axis, span, primary)
    ensures FinalizeAxis(axis, span, limits, primary, fmt) == Err(BadTickPlacement("tick is NaN"))
  {
    EvenTicksSingle(span.0, span.1);
    assert MajorTicks(axis.majorTickMarks, span, primary)[0].NaN?;
  }
}
