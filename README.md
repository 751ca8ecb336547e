# M5Stack heat-stroke and influenza monitor: verified model of the core

The device shows two thermometer-shaped gauges (temperature and humidity)
and a risk picture. This project models the two pieces of logic behind that
screen and proves properties about them in Dafny:

* **The WBGT classifier** (`flash/main.py`). The wet-bulb globe temperature
  (WBGT) table is read from storage the first time it is needed and cached.
  `calc_wbgt` rounds the temperature to a whole degree and the humidity to a
  multiple of 5. It builds the key `"t,h"` and looks it up; a missing key
  raises `ValueError`, which the main loop turns into `None`. The main loop
  then picks a risk image: danger, severe caution or caution by WBGT bands
  31/28/25. These apply only when the raw temperature is at least 21 and the
  WBGT is known. Humidity below 40 % overrides everything with the influenza
  image. When no image is chosen, the image area is cleared.
* **ThermometerView** (`flash/thermometerview.py`). The constructor fixes the
  geometry, the scale (176 pixels for the whole range) and the row `y0` of
  the value 0. `_calc_y` maps a value to a pixel row. `_draw_once` paints the
  bulb, the unit label and a tick with a label at every multiple of 10 in
  range. `update` redraws the bar with two abutting filled rectangles.

Modules: `Wrappers` (Option, Result), `Rounding` (Python's `round`, which
rounds half to even, and `math.ceil`, both on exact reals), `Decimal`
(`'{}'.format` of an integer, its inverse, and the table key), `Display`
(the LCD: a pixel grid for filled rectangles and a log of every other
primitive), `Wbgt` (main.py) and `Thermometer` (thermometerview.py).

The display is a class `Display.Lcd`. Its field `pixels` is a function from
(x, y) to colour, and `rect(x, y, w, h, c, c)` fills the rows `[y, y+h)` of
the columns `[x, x+w)`. The cache (`Wbgt.TableCache`) and the gauge
(`Thermometer.ThermometerView`) are classes with the source's fields. The
cache has a ghost counter of storage reads.

Two results are worth knowing when reading the proofs:

* Lookup keys are decimal integers, so a key can be parsed back into its
  pair (`Decimal.FormatKey`). Hence looking up the string key is the same as
  looking up the pair directly (`Wbgt.LookupMatchesPairTable`).
* `_calc_y` rounds twice: once when `y0` is computed and once per call.
  The value `min_value` is drawn exactly at the bulb top, and `max_value`
  exactly 20 pixels below `y`, unless `scale * min_value` lies exactly
  halfway between two integers (`CalcYEndpoints`). In that case the row can
  be one pixel off (`CalcYEndpointsNear`). With `y = 1` and range [5, 357]
  this happens (`CalcYEndpointTie`). Every value of the range still lands
  between `y` and the bulb centre (`CalcYOnTrack`). So the redraw covers the
  whole track exactly once for every value in range.

## Model

| member | source | states |
|---|---|---|
| Rounding.RoundHalfEven | flash/main.py:55-56 | `round(x)` is within one half of x, is strictly closer than one half unless x is a tie, and a tie goes to the even integer |
| Rounding.RoundHalfEvenUnique | flash/main.py:55 | any integer within one half of x, even when exactly one half away, is `round(x)`: the rounding is determined by that property |
| Rounding.RoundHalfEvenMonotone | flash/thermometerview.py:52 | `round` preserves order |
| Rounding.Ceil | flash/thermometerview.py:92 | `math.ceil(x)` is the least integer not below x |
| Decimal.NatToString | flash/thermometerview.py:111 | the decimal text of a natural number is non-empty, all digits, with no leading zero |
| Decimal.NatToStringRoundTrip | flash/main.py:57 | reading back the digits of a natural number gives the number |
| Decimal.IntToString | flash/thermometerview.py:111 | the decimal text of an integer is non-empty, has no comma, and starts with '-' exactly for negatives |
| Decimal.IntToStringRoundTrip | flash/main.py:57 | parsing the decimal text of an integer gives the integer back |
| Decimal.IntToStringInjective | flash/main.py:57 | distinct integers have distinct decimal texts |
| Decimal.FirstComma | flash/main.py:57 | the first comma of a string is found, with no comma before it |
| Decimal.SplitAtFirstComma | flash/main.py:57 | in `a + "," + b` with no comma in a, the first comma separates exactly a and b |
| Decimal.FormatKey | flash/main.py:57 | the key `'{},{}'.format(t, h)` parses back to (t, h): the first comma separates the two decimal integers |
| Decimal.KeyInjective | flash/main.py:57 | distinct quantised pairs give distinct keys |
| Display.FillRect | flash/thermometerview.py:127-128 | after `rect`, every pixel inside the rectangle has the fill colour and every pixel outside is unchanged |
| Display.PaintPairAt | flash/thermometerview.py:127-128 | after two `rect` calls a pixel has the second colour if the second rectangle holds it, else the first colour if the first does, else its old colour |
| Display.PaintPairUnfold | flash/thermometerview.py:127-128 | painting a pair of rectangles is filling the first, then the second |
| Display.CoversPair | flash/thermometerview.py:127-128 | two rectangles cover a pixel once for each one holding it |
| Display.Lcd.Rect | flash/thermometerview.py:127 | a filled rectangle changes the pixels as `FillRect` says and logs nothing |
| Display.Lcd.Draw | flash/thermometerview.py:63 | any other primitive is appended to the log and changes no pixel |
| Wbgt.TableCache.constructor | flash/main.py:40 | the cache starts empty with no storage read |
| Wbgt.TableCache.Load | flash/main.py:33-37 | a load returns the stored table and counts one storage read |
| Wbgt.TableCache.Get | flash/main.py:41-49 | returns the stored table; reads storage only when the cache was empty; a later call returns the cached table with no new read; at most one read ever |
| Wbgt.TableCache.CalcWbgt | flash/main.py:52-62 | the result is the pure lookup on the stored table; no read once cached |
| Wbgt.QuantiseTemperature | flash/main.py:55 | the quantised temperature is within half a degree |
| Wbgt.QuantiseHumidity | flash/main.py:56 | the quantised humidity is a multiple of 5 within 2.5 |
| Wbgt.LookupWbgt | flash/main.py:57-62 | a miss happens exactly when the key built from the quantised pair is absent; a hit returns the value of a table key that names the quantised pair |
| Wbgt.WbgtOrUnknown | flash/main.py:100-103 | a miss becomes `None`, a hit its value |
| Wbgt.KeysDistinct | flash/main.py:57 | within any set of quantised pairs, equal keys mean equal pairs |
| Wbgt.EncodeTable | flash/main.py:57-59 | a pair-keyed table written with `"t,h"` keys has one entry per pair and no other |
| Wbgt.LookupMatchesPairTable | flash/main.py:52-62 | the string-key lookup in an encoded table equals the lookup of the quantised pair itself, hit and miss |
| Wbgt.HeatStress | flash/main.py:120-129 | danger iff temperature >= 21, WBGT known and >= 31; severe caution iff 28 <= WBGT < 31; caution iff 25 <= WBGT < 28; never influenza |
| Wbgt.SelectCategory | flash/main.py:113-134 | influenza iff humidity < 40; with humidity >= 40 the heat-stress band of `HeatStress`, so no image iff temperature < 21, WBGT unknown, or WBGT < 25 |
| Wbgt.ImagePath | flash/main.py:18-21 | each category has its own image file and no two categories share one |
| Wbgt.SelectCategoryMonotone | flash/main.py:120-129 | for temperature >= 21 and humidity >= 40, a higher WBGT never gives a milder category |
| Wbgt.WbgtCalls | flash/main.py:106-111 | the font, then the clear of the "WBGT: Unknown" area, then at that same position the value after "WBGT: ", or the text "WBGT: Unknown" when the WBGT is absent |
| Wbgt.ShowWbgt | flash/main.py:106-111 | logs the font, the clear and the WBGT text, or "Unknown" when absent |
| Wbgt.ShowRiskImage | flash/main.py:113-141 | the step-by-step `image_path` choice draws the image of the selected category, or clears the image area to the background when none is selected |
| Wbgt.RiskTick | flash/main.py:99-141 | one loop pass: the WBGT is the lookup or `None`, the text and image calls are as above, and the table is read at most once |
| Wbgt.QuantisationExamples | flash/main.py:55-56 | 20.4, 20.5, 21.5, 20.6 quantise to 20, 20, 22, 21; humidity 62, 62.5, 67.5 to 60, 60, 70 |
| Wbgt.ClassificationExamples | flash/main.py:99-134 | with WBGT 32 at (35, 35) the reading still selects influenza; a missing key selects nothing; WBGT 31 and 27 at 31 degrees select danger and caution; 20 degrees selects nothing |
| Thermometer.FirstTick | flash/thermometerview.py:92 | the first tick is the least multiple of 10 not below min_value |
| Thermometer.TicksFrom | flash/thermometerview.py:93 | `range(start, max_value + 1, 10)`: values start + 10k, all <= max_value, and none beyond is missed |
| Thermometer.TickValues | flash/thermometerview.py:92-93 | every tick value is a multiple of 10 within [min_value, max_value] |
| Thermometer.TicksFromLength | flash/thermometerview.py:93 | `range` takes step k exactly when start + 10k is at most max_value |
| Thermometer.TickValuesAreMultiplesInRange | flash/thermometerview.py:92-93 | the ticks are exactly the multiples of 10 in [min_value, max_value], ascending by 10 |
| Thermometer.TemperatureGaugeTicks | flash/thermometerview.py:92-93 | a range of -15 to 45 gives ticks -10, 0, ..., 40 |
| Thermometer.ThermometerView.constructor | flash/thermometerview.py:5-48 | the object satisfies the geometry invariant and `prev_y1` starts at the bulb centre |
| Thermometer.ThermometerView.FixedGeometry | flash/thermometerview.py:10-45 | bulb centre at bar_x + 4 (round(4.5) = 4) and y + 208, bulb top y + 196, scale 176/(max - min), positive iff min < max |
| Thermometer.ThermometerView.CalcY | flash/thermometerview.py:50-52 | `_calc_y(v)` is the row within half a pixel of y0 - scale * v |
| Thermometer.ThermometerView.CalcYMonotone | flash/thermometerview.py:42-52 | a larger value is never drawn lower |
| Thermometer.ThermometerView.CalcYEndpointsNear | flash/thermometerview.py:42-52 | min_value is drawn within one row of the bulb top, max_value within one row of y + 20 |
| Thermometer.ThermometerView.CalcYEndpoints | flash/thermometerview.py:42-52 | unless scale * min_value is a tie, min_value is drawn at the bulb top and max_value at y + 20 |
| Thermometer.ThermometerView.CalcYEndpointTie | flash/thermometerview.py:45-52 | with y = 1 and range [5, 357] the tie occurs and min_value is drawn one row above the bulb top |
| Thermometer.ThermometerView.CalcYOnTrack | flash/thermometerview.py:42-52 | every value in [min_value, max_value] is drawn between y and the bulb centre |
| Thermometer.ThermometerView.TickCallLayout | flash/thermometerview.py:94-116 | one tick is two horizontal segments at `_calc_y(i)`, left and right of the bar, and the decimal text of i ending 14 pixels left of the bar, centred on the row |
| Thermometer.ThermometerView.ChromeHeader | flash/thermometerview.py:63-86 | the bulb circle, the axis font, the unit label at the top ending 14 pixels left of the bar, and the axis font again |
| Thermometer.ThermometerView.TickCallsAt | flash/thermometerview.py:93-116 | each tick issues exactly three calls, and the k-th tick's calls are at positions 3k to 3k+2 |
| Thermometer.ThermometerView.TickCallsAppend | flash/thermometerview.py:93-116 | one more loop pass appends that tick's calls |
| Thermometer.ThermometerView.DrawTick | flash/thermometerview.py:94-116 | segments [bar_x-10, bar_x-2] and [bar_x+11, bar_x+19] at `_calc_y(i)`, and the label right-aligned at y1 - round(font_height/2) |
| Thermometer.ThermometerView.DrawTicks | flash/thermometerview.py:92-116 | the loop issues the calls of every tick value, in order, and no pixel changes |
| Thermometer.ThermometerView.DrawHeader | flash/thermometerview.py:63-86 | issues exactly the calls of `ChromeHeader` and changes no pixel |
| Thermometer.ThermometerView.DrawOnce | flash/thermometerview.py:57-116 | bulb, font, unit label, font, then all tick calls |
| Thermometer.ThermometerView.Init | flash/thermometerview.py:54-55 | the same as `_draw_once` |
| Thermometer.ThermometerView.UpdateRects | flash/thermometerview.py:127-128 | both rectangles lie in the bar column; the indicator runs from y1 down to the bulb centre, the background from y down to y1, so the two abut at y1 |
| Thermometer.ThermometerView.UpdatedPixel | flash/thermometerview.py:124-128 | after the redraw for bar top y1, a bar-column pixel is the indicator colour in [y1, circle_y), the background in [y, y1), else unchanged; outside the column nothing changes |
| Thermometer.ThermometerView.Update | flash/thermometerview.py:119-128 | paints the two rectangles; every pixel follows `UpdatedPixel`; nothing is logged; `prev_y1` is not changed |
| Thermometer.ThermometerView.UpdateCoversTrackOnce | flash/thermometerview.py:127-128 | with the bar top on the track, each bar-column pixel of [y, circle_y) is painted exactly once and no other pixel is painted |
| Thermometer.ThermometerView.UpdateForgetsOldColumn | flash/thermometerview.py:119-128 | after an update, the track part of the bar column depends only on the value |
| Thermometer.ThermometerView.UpdateIdempotent | flash/thermometerview.py:119-128 | updating twice with the same value equals updating once |
| Thermometer.ThermometerView.UpdateOverwritesPrevious | flash/thermometerview.py:119-128 | after an update to a value on the track, the next update leaves the screen as if the earlier one had not happened |

## Left out

- Floating point: temperatures, humidities, WBGT values, `scale` and `y0 - scale * v` are exact reals, so float error (for example in `humidity / 5`) is not modelled.
- `load_wbgt_table` (opening the file and JSON parsing): the table's contents are a constructor argument of the cache; the loader's file path is not modelled.
- LCD primitives other than `rect` (circle, line, text, print, textClear, image, font) are events in a log; `fontSize()` and `textWidth()` are fixed properties of the `Lcd` object; the text `'WBGT: {}'.format(wbgt)` is logged as a prefix and a number, since float formatting is not modelled.
- Display.Lcd.Rect: border and fill are one colour, because every call in the source passes the same colour for both; a rectangle with zero or negative height or width is modelled as painting nothing, which is an assumption about the firmware.
- Thermometer.ThermometerView.constructor: requires only `min_value != max_value`, the case that divides by zero; `min_value > max_value` gives a negative scale and no ticks, as the code does, and the properties of the scale take `min_value < max_value` as a precondition; the default arguments of the constructor are written out by the caller.
- Thermometer.ThermometerView.CalcYEndpoints: holds only when `scale * min_value` is not a tie, because of the double rounding described above.
- Wbgt.LookupWbgt: for arbitrary tables a hit is stated as the value of some key that names the quantised pair, not of the one key the lookup forms, because a key such as `"035,60"` names the same pair without being that key; the exact hit value is stated by `LookupMatchesPairTable`, for tables whose keys are written the canonical way.
- The rest of `main()`: creating the sensor and the gauges, `uos.mountsd`, the `buttonC` loop, `utime.sleep`, the debug `print`, the gauge updates of each pass and the top-level exception reporter are lifecycle and I/O.
- A missing sensor reading (`None`) is not modelled: in the source `temperature_view.update(None)` (flash/main.py:96) already raises a `TypeError` at `self.scale * value` (flash/thermometerview.py:52), before any WBGT comparison runs.
- `flash/dummysensor.py`: a stub accessor and a random source (`urandom.uniform`).
