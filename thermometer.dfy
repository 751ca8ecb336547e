/** flash/thermometerview.py: a thermometer-shaped gauge. The constructor
    fixes the geometry and the value-to-pixel scale, `DrawOnce` paints the
    bulb, the unit label and the ticks, and `Update` redraws the bar by
    painting two abutting rectangles in the bar's column. */
module Thermometer {
  import opened Wrappers
  import opened Rounding
  import opened Decimal
  import opened Display

  /** `int(math.ceil(min_value / 10)) * 10`: the first tick value. */
  function FirstTick(minValue: int): (t: int)
    ensures t % 10 == 0 && minValue <= t < minValue + 10
  {
    Ceil(minValue as real / 10.0) * 10
  }

  /** `range(start, max_value + 1, 10)`. */
  function TicksFrom(start: int, maxValue: int): (t: seq<int>)
    ensures forall k :: 0 <= k < |t| ==> t[k] == start + 10 * k && t[k] <= maxValue
    ensures start <= maxValue ==> maxValue < start + 10 * |t|
    decreases maxValue - start
  {
    if start > maxValue then [] else [start] + TicksFrom(start + 10, maxValue)
  }

  /** `range` stops at the first value past maxValue: step k is taken
      exactly when start + 10k is still at most maxValue. */
  lemma TicksFromLength(start: int, maxValue: int, k: nat)
    ensures k < |TicksFrom(start, maxValue)| <==> start + 10 * k <= maxValue
  {
    var t := TicksFrom(start, maxValue);
    if k < |t| {
      assert t[k] == start + 10 * k;
    } else {
      if |t| > 0 {
        assert t[0] == start && t[0] <= maxValue;
      }
      assert 10 * |t| <= 10 * k;
    }
  }

  /** The values that get a tick mark and a label. */
  function TickValues(minValue: int, maxValue: int): (ticks: seq<int>)
    ensures forall k :: 0 <= k < |ticks| ==> ticks[k] % 10 == 0 && minValue <= ticks[k] <= maxValue
  {
    TicksFrom(FirstTick(minValue), maxValue)
  }

  /** The ticks are exactly the multiples of 10 in [minValue, maxValue],
      in ascending order. */
  lemma TickValuesAreMultiplesInRange(minValue: int, maxValue: int)
    ensures var t := TickValues(minValue, maxValue);
      (forall k :: 0 <= k < |t| ==> t[k] % 10 == 0 && minValue <= t[k] <= maxValue) &&
      (forall k :: 0 < k < |t| ==> t[k] == t[k - 1] + 10) &&
      (forall v :: minValue <= v <= maxValue && v % 10 == 0 ==> v in t)
  {
    var first := FirstTick(minValue);
    var t := TickValues(minValue, maxValue);
    forall v | minValue <= v <= maxValue && v % 10 == 0
      ensures v in t
    {
      assert first <= v;
      var k := (v - first) / 10;
      assert v == first + 10 * k;
      assert t[k] == v;
    }
  }

  /** The temperature gauge of the main screen (range -15 to 45) has ticks
      at -10, 0, ..., 40. */
  lemma TemperatureGaugeTicks()
    ensures TickValues(-15, 45) == [-10, 0, 10, 20, 30, 40]
  {
    assert FirstTick(-15) == -10;
    assert TicksFrom(50, 45) == [];
  }

  /** Multiplying by a positive scale keeps the order of two values. */
  lemma ScaleKeepsOrder(scale: real, v1: real, v2: real)
    requires scale > 0.0 && v1 <= v2
    ensures scale * v1 <= scale * v2
  {
    assert scale * v2 - scale * v1 == scale * (v2 - v1);
  }

  class ThermometerView {
    /** Top-left corner of the drawing area. */
    const x: int
    const y: int
    /** Size of the drawing area. */
    const width: int
    const height: int
    /** Left edge and width of the bar. */
    const barX: int
    const barWidth: int
    /** The bulb. */
    const circleRadius: int
    const circleX: int
    const circleY: int
    /** Unit label and colours. */
    const unitLabel: string
    const color: Color
    const backgroundColor: Color
    const axisColor: Color
    /** Range of the scale. */
    const minValue: int
    const maxValue: int
    /** Pixels per unit. */
    const scale: real
    /** Screen y of the value 0. */
    const y0: int
    /** Kept for differential redraw; set once and never updated. */
    var prevY1: int

    /** How the derived fields follow from the constructor's arguments. */
    ghost predicate Valid() {
      width == 64 && height == 220 &&
      barX == x + 40 && barWidth == 9 && circleRadius == 12 &&
      circleX == barX + RoundHalfEven(barWidth as real / 2.0) &&
      circleY == y + height - circleRadius &&
      axisColor == Black &&
      minValue != maxValue &&
      scale == ((circleY - circleRadius) - y - 20) as real / (maxValue - minValue) as real &&
      y0 == circleY - circleRadius + RoundHalfEven(scale * minValue as real)
    }

    /** `ThermometerView(x, y, min_value, max_value, color, background_color, label)`;
        equal bounds would divide by zero. */
    constructor (x: int, y: int, minValue: int, maxValue: int,
                 color: Color, backgroundColor: Color, unitLabel: string)
      requires minValue != maxValue
      ensures Valid()
      ensures this.x == x && this.y == y && this.minValue == minValue && this.maxValue == maxValue
      ensures this.color == color && this.backgroundColor == backgroundColor && this.unitLabel == unitLabel
      ensures prevY1 == circleY
    {
      this.x, this.y := x, y;
      width, height := 64, 220;
      var bx, bw, r := x + 40, 9, 12;
      barX, barWidth, circleRadius := bx, bw, r;
      circleX := bx + RoundHalfEven(bw as real / 2.0);
      var cy := y + 220 - r;
      circleY := cy;
      this.unitLabel := unitLabel;
      this.color := color;
      this.backgroundColor := backgroundColor;
      axisColor := Black;
      this.minValue, this.maxValue := minValue, maxValue;
      var s := ((cy - r) - y - 20) as real / (maxValue - minValue) as real;
      scale := s;
      y0 := cy - r + RoundHalfEven(s * minValue as real);
      prevY1 := cy;
      new;
      assert scale * this.minValue as real == s * minValue as real;
    }

    /** The geometry is fixed: bar 40 pixels right of x, bulb centred
        under the bar (round(4.5) is 4) and 208 pixels below y, and 176
        pixels of track for the whole range. */
    lemma FixedGeometry()
      requires Valid()
      ensures circleX == barX + 4 && circleY == y + 208
      ensures circleY - circleRadius == y + 196
      ensures scale == 176.0 / (maxValue - minValue) as real
      ensures scale * (maxValue - minValue) as real == 176.0
      ensures scale > 0.0 <==> minValue < maxValue
    {
      RoundHalfEvenUnique(4.5, 4);
    }

    /** `_calc_y(value)`: the pixel row nearest to the exact position. */
    function CalcY(value: real): (r: int)
      ensures y0 as real - scale * value - 0.5 <= r as real <= y0 as real - scale * value + 0.5
    {
      RoundHalfEven(y0 as real - scale * value)
    }

    /** A larger value is never drawn lower on the screen. */
    lemma CalcYMonotone(v1: real, v2: real)
      requires Valid() && minValue < maxValue
      requires v1 <= v2
      ensures CalcY(v2) <= CalcY(v1)
    {
      FixedGeometry();
      ScaleKeepsOrder(scale, v1, v2);
      RoundHalfEvenMonotone(y0 as real - scale * v2, y0 as real - scale * v1);
    }

    /** The exact position of minValue is the bulb top and that of maxValue
        is 20 pixels below y; after the double rounding the row drawn is at
        most one pixel away. */
    lemma CalcYEndpointsNear()
      requires Valid()
      ensures -1 <= CalcY(minValue as real) - (circleY - circleRadius) <= 1
      ensures -1 <= CalcY(maxValue as real) - (y + 20) <= 1
    {
      FixedGeometry();
      var a := scale * minValue as real;
      var r := RoundHalfEven(a);
      assert y0 as real - a == (y + 196) as real + (r as real - a);
      assert scale * maxValue as real == a + 176.0;
      assert y0 as real - scale * maxValue as real == (y + 20) as real + (r as real - a);
    }

    /** When scale * minValue is not exactly halfway between two integers,
        the ends of the scale land exactly on the bulb top and 20 pixels
        below y. */
    lemma CalcYEndpoints()
      requires Valid()
      requires !IsTie(scale * minValue as real)
      ensures CalcY(minValue as real) == circleY - circleRadius
      ensures CalcY(maxValue as real) == y + 20
    {
      FixedGeometry();
      var a := scale * minValue as real;
      var r := RoundHalfEven(a);
      assert y0 as real - a == (y + 196) as real + (r as real - a);
      RoundHalfEvenUnique(y0 as real - a, y + 196);
      assert scale * maxValue as real == a + 176.0;
      assert y0 as real - scale * maxValue as real == (y + 20) as real + (r as real - a);
      RoundHalfEvenUnique(y0 as real - scale * maxValue as real, y + 20);
    }

    /** The tie does happen: with y = 1 and range [5, 357], scale is 1/2,
        scale * minValue is 2.5, y0 is 199, and minValue is drawn at row 196,
        one above the bulb top. */
    lemma CalcYEndpointTie()
      requires Valid() && y == 1 && minValue == 5 && maxValue == 357
      ensures IsTie(scale * minValue as real)
      ensures CalcY(minValue as real) == circleY - circleRadius - 1
    {
      FixedGeometry();
      assert scale == 0.5;
      RoundHalfEvenUnique(2.5, 2);
      assert y0 == 199;
      RoundHalfEvenUnique(196.5, 196);
    }

    /** Every value of the scale is drawn between y and the bulb centre. */
    lemma CalcYOnTrack(value: real)
      requires Valid() && minValue < maxValue
      requires minValue as real <= value <= maxValue as real
      ensures y <= CalcY(value) <= circleY
    {
      FixedGeometry();
      CalcYEndpointsNear();
      CalcYMonotone(minValue as real, value);
      CalcYMonotone(value, maxValue as real);
    }

    // -------------------------------------------------------------------
    // Static chrome (`_draw_once`)
    // -------------------------------------------------------------------

    /** The two tick segments and the right-aligned label of tick value i:
        left segment from barX - 10 to barX - 2, right segment from
        barX + 11 to barX + 19, label vertically centred on the tick. */
    function TickCall(i: int, halfFontHeight: int, textWidth: string -> int): seq<DrawCall>
    {
      var ty := CalcY(i as real);
      var s := IntToString(i);
      [Line(barX - 10, ty, barX - 2, ty, axisColor),
       Line(barX + 11, ty, barX + 19, ty, axisColor),
       Print(s, barX - 14 - textWidth(s), ty - halfFontHeight, axisColor)]
    }

    /** The layout of one tick: two horizontal segments at the tick's row,
        one left and one right of the bar, and the tick value as a label
        that ends 14 pixels left of the bar, vertically centred on the row. */
    lemma TickCallLayout(i: int, halfFontHeight: int, textWidth: string -> int)
      ensures var calls := TickCall(i, halfFontHeight, textWidth);
        && |calls| == 3 && calls[0].Line? && calls[1].Line? && calls[2].Print?
        && calls[0].y0 == calls[0].y1 == calls[1].y0 == calls[1].y1 == CalcY(i as real)
        && calls[0].x1 < barX < calls[1].x0
        && calls[2].x + textWidth(calls[2].text) == barX - 14
        && calls[2].y + halfFontHeight == CalcY(i as real)
        && ParseInt(calls[2].text) == Some(i)
    {
      IntToStringRoundTrip(i);
    }

    function TickCalls(ticks: seq<int>, halfFontHeight: int, textWidth: string -> int): seq<DrawCall>
      decreases |ticks|
    {
      if ticks == [] then []
      else TickCalls(ticks[..|ticks| - 1], halfFontHeight, textWidth) +
           TickCall(ticks[|ticks| - 1], halfFontHeight, textWidth)
    }

    /** Tick k owns the three calls at positions 3k, 3k+1 and 3k+2. */
    lemma {:induction false} TickCallsAt(ticks: seq<int>, halfFontHeight: int, textWidth: string -> int, k: nat)
      requires k < |ticks|
      ensures |TickCalls(ticks, halfFontHeight, textWidth)| == 3 * |ticks|
      ensures TickCalls(ticks, halfFontHeight, textWidth)[3 * k .. 3 * k + 3] == TickCall(ticks[k], halfFontHeight, textWidth)
      decreases |ticks|
    {
      var init := ticks[..|ticks| - 1];
      if k < |ticks| - 1 {
        TickCallsAt(init, halfFontHeight, textWidth, k);
      } else if |ticks| > 1 {
        TickCallsAt(init, halfFontHeight, textWidth, 0);
      }
    }

    /** Everything `_draw_once` issues, in order. */
    function ChromeCalls(fontHeight: int, textWidth: string -> int): seq<DrawCall> {
      ChromeHeader(textWidth) +
      TickCalls(TickValues(minValue, maxValue), RoundHalfEven(fontHeight as real / 2.0), textWidth)
    }

    /** The bulb, then the unit label left of the tick labels at the top. */
    function ChromeHeader(textWidth: string -> int): (calls: seq<DrawCall>)
      ensures |calls| == 4 && calls[0] == Circle(circleX, circleY, circleRadius, color, color)
      ensures calls[2].Text? && calls[2].text == unitLabel && calls[2].y == y
      ensures calls[2].x + textWidth(unitLabel) == barX - 14
      ensures calls[1] == calls[3] == Font(axisColor, true)
    {
      [Circle(circleX, circleY, circleRadius, color, color),
       Font(axisColor, true),
       Text(barX - 14 - textWidth(unitLabel), y, unitLabel),
       Font(axisColor, true)]
    }

    /** One more pass of the tick loop appends that tick's calls. */
    lemma TickCallsAppend(ticks: seq<int>, k: nat, halfFontHeight: int, textWidth: string -> int)
      requires k < |ticks|
      ensures TickCalls(ticks[..k + 1], halfFontHeight, textWidth) ==
              TickCalls(ticks[..k], halfFontHeight, textWidth) + TickCall(ticks[k], halfFontHeight, textWidth)
    {
      assert ticks[..k + 1][..k] == ticks[..k];
    }

    /** One pass of the tick loop: the two segments and the label of tick i. */
    method DrawTick(lcd: Lcd, i: int, halfFontHeight: int)
      requires Valid()
      modifies lcd
      ensures lcd.pixels == old(lcd.pixels)
      ensures lcd.log == old(lcd.log) + TickCall(i, halfFontHeight, lcd.textWidth)
    {
      var m, l, m2 := 2, 8, 4;
      var y1 := CalcY(i as real);
      lcd.Draw(Line(barX - m - l, y1, barX - m, y1, axisColor));
      lcd.Draw(Line(barX + barWidth + m, y1, barX + barWidth + m + l, y1, axisColor));
      var tickLabel := IntToString(i);
      lcd.Draw(Print(tickLabel, barX - m - l - m2 - lcd.textWidth(tickLabel), y1 - halfFontHeight, axisColor));
    }

    /** The tick loop of `_draw_once`: `for i in range(min_ylabel, max_value + 1, tick)`. */
    method DrawTicks(lcd: Lcd, halfFontHeight: int)
      requires Valid()
      modifies lcd
      ensures lcd.pixels == old(lcd.pixels)
      ensures lcd.log == old(lcd.log) + TickCalls(TickValues(minValue, maxValue), halfFontHeight, lcd.textWidth)
    {
      var tick := 10;
      var minYLabel := Ceil(minValue as real / 10.0) * 10;
      ghost var ticks := TicksFrom(minYLabel, maxValue);
      ghost var k: nat := 0;
      var i := minYLabel;
      while i < maxValue + 1
        invariant k <= |ticks| && i == minYLabel + 10 * k
        invariant lcd.log == old(lcd.log) + TickCalls(ticks[..k], halfFontHeight, lcd.textWidth)
        invariant lcd.pixels == old(lcd.pixels)
        decreases maxValue - i
      {
        TicksFromLength(minYLabel, maxValue, k);
        assert ticks[k] == i;
        DrawTick(lcd, i, halfFontHeight);
        TickCallsAppend(ticks, k, halfFontHeight, lcd.textWidth);
        k := k + 1;
        i := i + tick;
      }
      TicksFromLength(minYLabel, maxValue, k);
      assert ticks[..k] == ticks;
      assert ticks == TickValues(minValue, maxValue);
    }

    /** The first four calls of `_draw_once`: the bulb and the unit label. */
    method DrawHeader(lcd: Lcd)
      requires Valid()
      modifies lcd
      ensures lcd.pixels == old(lcd.pixels)
      ensures lcd.log == old(lcd.log) + ChromeHeader(lcd.textWidth)
    {
      var m, l, m2 := 2, 8, 4;
      lcd.Draw(Circle(circleX, circleY, circleRadius, color, color));
      lcd.Draw(Font(axisColor, true));
      var labelX := barX - m - l - m2 - lcd.textWidth(unitLabel);
      var labelY := y;
      lcd.Draw(Text(labelX, labelY, unitLabel));
      lcd.Draw(Font(axisColor, true));
    }

    /** `_draw_once`: bulb, unit label, then the ticks. */
    method DrawOnce(lcd: Lcd)
      requires Valid()
      modifies lcd
      ensures lcd.pixels == old(lcd.pixels)
      ensures lcd.log == old(lcd.log) + ChromeCalls(lcd.fontHeight, lcd.textWidth)
    {
      DrawHeader(lcd);
      var fontHeight := lcd.fontHeight;
      var halfFontHeight := RoundHalfEven(fontHeight as real / 2.0);
      DrawTicks(lcd, halfFontHeight);
      AppendAssoc(old(lcd.log), ChromeHeader(lcd.textWidth),
                  TickCalls(TickValues(minValue, maxValue), halfFontHeight, lcd.textWidth));
    }

    /** Appending in two steps is appending once. */
    static lemma AppendAssoc(a: seq<DrawCall>, b: seq<DrawCall>, c: seq<DrawCall>)
      ensures (a + b) + c == a + (b + c)
    {
    }

    /** `init()`: paints the static chrome once. */
    method Init(lcd: Lcd)
      requires Valid()
      modifies lcd
      ensures lcd.pixels == old(lcd.pixels)
      ensures lcd.log == old(lcd.log) + ChromeCalls(lcd.fontHeight, lcd.textWidth)
    {
      DrawOnce(lcd);
    }

    // -------------------------------------------------------------------
    // Bar redraw (`update`)
    // -------------------------------------------------------------------

    /** The two `rect` calls of `update` for bar top y1: indicator colour
        from y1 down to the bulb centre, then background from y down to y1. */
    function UpdateRects(y1: int): (rects: seq<RectCall>)
      ensures |rects| == 2
      ensures forall k :: 0 <= k < 2 ==> rects[k].x == barX && rects[k].w == barWidth
      ensures rects[0].y == y1 && rects[0].y + rects[0].h == circleY && rects[0].c == color
      ensures rects[1].y == y && rects[1].y + rects[1].h == y1 && rects[1].c == backgroundColor
    {
      [RectCall(barX, y1, barWidth, circleY - y1, color),
       RectCall(barX, y, barWidth, y1 - y, backgroundColor)]
    }

    /** What a pixel of the bar column shows after the bar top moved to y1,
        given what it showed before. */
    function BarPixel(y1: int, py: int, before: Color): Color {
      if y1 <= py < circleY then color
      else if y <= py < y1 then backgroundColor
      else before
    }

    /** Pixel (px, py) after the bar top moved to y1. */
    lemma UpdatedPixel(s: Screen, y1: int, px: int, py: int)
      requires Valid()
      ensures Paint(s, UpdateRects(y1))(px, py) ==
        if barX <= px < barX + barWidth then BarPixel(y1, py, s(px, py)) else s(px, py)
    {
      PaintPairAt(s, UpdateRects(y1)[0], UpdateRects(y1)[1], px, py);
    }

    /** `update(value)`: redraws the bar for `value`; with the bar top on
        the track, the bar column shows the indicator colour from the top
        down to the bulb centre and the background above it, and nothing
        outside the column changes. */
    method Update(lcd: Lcd, value: real)
      requires Valid()
      modifies lcd
      ensures prevY1 == old(prevY1)
      ensures lcd.log == old(lcd.log)
      ensures lcd.pixels == Paint(old(lcd.pixels), UpdateRects(CalcY(value)))
      ensures forall px, py ::
                lcd.pixels(px, py) ==
                  if barX <= px < barX + barWidth then BarPixel(CalcY(value), py, old(lcd.pixels)(px, py))
                  else old(lcd.pixels)(px, py)
    {
      var y1 := CalcY(value);
      ghost var s0 := lcd.pixels;
      var r := UpdateRects(y1);
      lcd.Rect(barX, y1, barWidth, circleY - y1, color);
      lcd.Rect(barX, y, barWidth, y1 - y, backgroundColor);
      PaintPairUnfold(s0, r[0], r[1]);
      forall px, py
        ensures lcd.pixels(px, py) ==
          (if barX <= px < barX + barWidth then BarPixel(y1, py, s0(px, py)) else s0(px, py))
      {
        UpdatedPixel(s0, y1, px, py);
      }
    }

    /** With the bar top inside the track, every pixel of the bar column
        between y and the bulb centre is painted by exactly one of the two
        rectangles, and nothing outside it is painted. */
    lemma UpdateCoversTrackOnce(y1: int, px: int, py: int)
      requires Valid() && y <= y1 <= circleY
      ensures barX <= px < barX + barWidth && y <= py < circleY ==> Covers(UpdateRects(y1), px, py) == 1
      ensures !(barX <= px < barX + barWidth && y <= py < circleY) ==> Covers(UpdateRects(y1), px, py) == 0
    {
      CoversPair(UpdateRects(y1)[0], UpdateRects(y1)[1], px, py);
    }

    /** Whatever the bar top, the bar column between y and the bulb centre
        ends up depending only on the new value: nothing stale survives. */
    lemma UpdateForgetsOldColumn(s1: Screen, s2: Screen, value: real, px: int, py: int)
      requires Valid()
      requires barX <= px < barX + barWidth && y <= py < circleY
      ensures Paint(s1, UpdateRects(CalcY(value)))(px, py) == Paint(s2, UpdateRects(CalcY(value)))(px, py)
    {
      UpdatedPixel(s1, CalcY(value), px, py);
      UpdatedPixel(s2, CalcY(value), px, py);
    }

    /** Updating twice with the same value leaves the same screen as once. */
    lemma UpdateIdempotent(s: Screen, value: real, px: int, py: int)
      requires Valid()
      ensures var r := UpdateRects(CalcY(value));
        Paint(Paint(s, r), r)(px, py) == Paint(s, r)(px, py)
    {
      var y1 := CalcY(value);
      UpdatedPixel(s, y1, px, py);
      UpdatedPixel(Paint(s, UpdateRects(y1)), y1, px, py);
    }

    /** After an update to a value on the track, a second update leaves the
        screen exactly as if the first had never happened. */
    lemma UpdateOverwritesPrevious(s: Screen, v1: real, v2: real, px: int, py: int)
      requires Valid()
      requires y <= CalcY(v1) <= circleY
      ensures Paint(Paint(s, UpdateRects(CalcY(v1))), UpdateRects(CalcY(v2)))(px, py) ==
              Paint(s, UpdateRects(CalcY(v2)))(px, py)
    {
      var y1, y2 := CalcY(v1), CalcY(v2);
      UpdatedPixel(s, y1, px, py);
      UpdatedPixel(s, y2, px, py);
      UpdatedPixel(Paint(s, UpdateRects(y1)), y2, px, py);
    }
  }
}
