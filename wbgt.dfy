/** flash/main.py: the WBGT (wet-bulb globe temperature) table, its lazy
    cache, the quantised lookup `calc_wbgt`, and the choice of the risk image
    that the main loop makes on every tick. */
module Wbgt {
  import opened Wrappers
  import opened Rounding
  import opened Decimal
  import opened Display

  /** Foreground and background colours of the screen. */
  const ForegroundColor: Color := Black
  const BackgroundColor: Color := White

  /** Risk images and the area they occupy. */
  const ImagePathDanger := "/sd/assets/heatstroke_kiken.jpg"
  const ImagePathSevereCaution := "/sd/assets/heatstroke_genjukeikai.jpg"
  const ImagePathCaution := "/sd/assets/heatstroke_keikai.jpg"
  const ImagePathInfluenza := "/sd/assets/influenza.jpg"
  const ImageX := 160
  const ImageY := 80
  const ImageWidth := 150
  const ImageHeight := 150

  /** The parsed JSON table: key `"t,h"` to WBGT value. */
  type Table = map<string, real>

  /** The `ValueError('out of table')` that a missing key raises. */
  datatype LookupError = OutOfTable

  // ---------------------------------------------------------------------
  // The lazily loaded table (`_wbgt_table` and `get_wbgt_table`)
  // ---------------------------------------------------------------------

  class TableCache {
    /** What `load_wbgt_table` reads from the SD card. */
    const storage: Table
    /** `_wbgt_table`: `None` until the first request. */
    var table: Option<Table>
    /** How many times the table has been read from storage. */
    ghost var loads: nat

    ghost predicate Valid()
      reads this
    {
      (table.None? <==> loads == 0) &&
      (table.Some? ==> loads == 1 && table.value == storage)
    }

    constructor (storage: Table)
      ensures Valid()
      ensures this.storage == storage && table == None && loads == 0
    {
      this.storage := storage;
      table := None;
      loads := 0;
    }

    /** `load_wbgt_table`: one read of the file. */
    method Load() returns (t: Table)
      modifies this`loads
      ensures t == storage
      ensures loads == old(loads) + 1
    {
      t := storage;
      loads := loads + 1;
    }

    /** `get_wbgt_table`: reads storage on the first call only; every later
        call returns the cached table without reading again. */
    method Get() returns (t: Table)
      requires Valid()
      modifies this
      ensures Valid()
      ensures t == storage && table == Some(storage)
      ensures loads == 1
      ensures old(table).Some? ==> loads == old(loads) && t == old(table).value
      ensures old(table).None? ==> loads == old(loads) + 1
    {
      if table.None? {
        var loaded := Load();
        table := Some(loaded);
      }
      t := table.value;
    }

    /** `calc_wbgt(temperature, humidity)`. */
    method CalcWbgt(temperature: real, humidity: real) returns (r: Result<real, LookupError>)
      requires Valid()
      modifies this
      ensures Valid() && loads == 1
      ensures old(table).Some? ==> loads == old(loads)
      ensures r == LookupWbgt(storage, temperature, humidity)
    {
      var t := Get();
      var qt := QuantiseTemperature(temperature);
      var qh := QuantiseHumidity(humidity);
      var key := FormatKey(qt, qh);
      if key in t {
        r := Ok(t[key]);
      } else {
        r := Err(OutOfTable);
      }
    }
  }

  // ---------------------------------------------------------------------
  // Quantisation and lookup (`calc_wbgt` once the table is in hand)
  // ---------------------------------------------------------------------

  /** `int(round(temperature))`: the nearest whole degree. */
  function QuantiseTemperature(temperature: real): (q: int)
    ensures temperature - 0.5 <= q as real <= temperature + 0.5
  {
    RoundHalfEven(temperature)
  }

  /** `int(round(humidity / 5) * 5)`: the nearest multiple of 5. */
  function QuantiseHumidity(humidity: real): (q: int)
    ensures q % 5 == 0
    ensures humidity - 2.5 <= q as real <= humidity + 2.5
  {
    RoundHalfEven(humidity / 5.0) * 5
  }

  /** The quantised reading and the table's answer for it. */
  function LookupWbgt(table: Table, temperature: real, humidity: real): (r: Result<real, LookupError>)
    ensures r.Err? <==> FormatKey(QuantiseTemperature(temperature), QuantiseHumidity(humidity)) !in table
    ensures r.Ok? ==>
      exists k :: k in table && ParseKey(k) == Some((QuantiseTemperature(temperature), QuantiseHumidity(humidity)))
                && table[k] == r.value
  {
    var qt, qh := QuantiseTemperature(temperature), QuantiseHumidity(humidity);
    var key := FormatKey(qt, qh);
    if key in table then Ok(table[key]) else Err(OutOfTable)
  }

  /** The `except ValueError: wbgt = None` around the call. */
  function WbgtOrUnknown(r: Result<real, LookupError>): (w: Option<real>)
    ensures w.Some? <==> r.Ok?
    ensures w.Some? ==> w.value == r.value
  {
    match r
    case Ok(v) => Some(v)
    case Err(_) => None
  }

  /** No two pairs of a set share a key. */
  lemma KeysDistinct(qs: set<(int, int)>)
    ensures forall q1, q2 :: q1 in qs && q2 in qs && FormatKey(q1.0, q1.1) == FormatKey(q2.0, q2.1) ==> q1 == q2
  {
    forall q1, q2 | q1 in qs && q2 in qs && FormatKey(q1.0, q1.1) == FormatKey(q2.0, q2.1)
      ensures q1 == q2
    {
      KeyInjective(q1.0, q1.1, q2.0, q2.1);
    }
  }

  /** A table keyed by the quantised pair itself, written out in the
      string-keyed form of the JSON file. */
  function EncodeTable(pairs: map<(int, int), real>): (m: Table)
    ensures forall q :: q in pairs ==> FormatKey(q.0, q.1) in m && m[FormatKey(q.0, q.1)] == pairs[q]
    ensures forall k :: k in m ==> exists q :: q in pairs && k == FormatKey(q.0, q.1)
  {
    KeysDistinct(pairs.Keys);
    Rekey(pairs, (q: (int, int)) => FormatKey(q.0, q.1))
  }

  /** The pair-keyed table under a key function that keeps pairs apart. */
  function Rekey(pairs: map<(int, int), real>, key: ((int, int)) -> string): (m: Table)
    requires forall q1, q2 :: q1 in pairs && q2 in pairs && key(q1) == key(q2) ==> q1 == q2
    ensures forall q :: q in pairs ==> key(q) in m && m[key(q)] == pairs[q]
    ensures forall k :: k in m ==> exists q :: q in pairs && k == key(q)
  {
    var m := map q | q in pairs :: key(q) := pairs[q];
    assert forall q :: q in pairs ==> key(q) in m;
    m
  }

  /** Looking up the string key in the encoded table is the same as looking
      up the quantised pair directly: the string form loses nothing. */
  lemma LookupMatchesPairTable(pairs: map<(int, int), real>, temperature: real, humidity: real)
    ensures var q := (QuantiseTemperature(temperature), QuantiseHumidity(humidity));
      LookupWbgt(EncodeTable(pairs), temperature, humidity) ==
        if q in pairs then Ok(pairs[q]) else Err(OutOfTable)
  {
    var q := (QuantiseTemperature(temperature), QuantiseHumidity(humidity));
    var m := EncodeTable(pairs);
    var key := FormatKey(q.0, q.1);
    if key in m {
      var q' :| q' in pairs && key == FormatKey(q'.0, q'.1);
      KeyInjective(q.0, q.1, q'.0, q'.1);
    }
  }

  // ---------------------------------------------------------------------
  // Risk category (the `image_path` chain of the main loop)
  // ---------------------------------------------------------------------

  datatype Category = Caution | SevereCaution | Danger | InfluenzaCaution

  /** The heat-stress bands, evaluated only when the raw temperature is at
      least 21 and the WBGT is known. */
  function HeatStress(temperature: real, wbgt: Option<real>): (c: Option<Category>)
    ensures c == Some(Danger) <==> temperature >= 21.0 && wbgt.Some? && wbgt.value >= 31.0
    ensures c == Some(SevereCaution) <==> temperature >= 21.0 && wbgt.Some? && 28.0 <= wbgt.value < 31.0
    ensures c == Some(Caution) <==> temperature >= 21.0 && wbgt.Some? && 25.0 <= wbgt.value < 28.0
    ensures c != Some(InfluenzaCaution)
  {
    if temperature >= 21.0 && wbgt.Some? then
      if wbgt.value >= 31.0 then Some(Danger)
      else if wbgt.value >= 28.0 then Some(SevereCaution)
      else if wbgt.value >= 25.0 then Some(Caution)
      else None
    else None
  }

  /** The image chosen for a reading: humidity below 40 % always shows the
      influenza warning; otherwise the heat-stress band, if any. */
  function SelectCategory(temperature: real, humidity: real, wbgt: Option<real>): (c: Option<Category>)
    ensures humidity < 40.0 ==> c == Some(InfluenzaCaution)
    ensures c == Some(InfluenzaCaution) <==> humidity < 40.0
    ensures c == None <==> humidity >= 40.0 && (temperature < 21.0 || wbgt.None? || wbgt.value < 25.0)
    ensures humidity >= 40.0 ==> c == HeatStress(temperature, wbgt)
  {
    if humidity < 40.0 then Some(InfluenzaCaution) else HeatStress(temperature, wbgt)
  }

  /** Orders the heat-stress outcomes from no warning to danger. */
  function Severity(c: Option<Category>): nat {
    match c
    case None => 0
    case Some(Caution) => 1
    case Some(SevereCaution) => 2
    case Some(Danger) => 3
    case Some(InfluenzaCaution) => 4
  }

  /** With temperature at least 21 and humidity at least 40, a higher WBGT
      never selects a milder category. */
  lemma SelectCategoryMonotone(temperature: real, humidity: real, w1: real, w2: real)
    requires temperature >= 21.0 && humidity >= 40.0 && w1 <= w2
    ensures Severity(SelectCategory(temperature, humidity, Some(w1))) <= Severity(SelectCategory(temperature, humidity, Some(w2)))
    ensures Severity(SelectCategory(temperature, humidity, Some(w2))) <= 3
  {
  }

  /** The image file shown for each category; no two categories share one. */
  function ImagePath(c: Category): (p: string)
    ensures p == ImagePathDanger <==> c == Danger
    ensures p == ImagePathSevereCaution <==> c == SevereCaution
    ensures p == ImagePathCaution <==> c == Caution
    ensures p == ImagePathInfluenza <==> c == InfluenzaCaution
  {
    match c
    case Danger => ImagePathDanger
    case SevereCaution => ImagePathSevereCaution
    case Caution => ImagePathCaution
    case InfluenzaCaution => ImagePathInfluenza
  }

  /** The primitives that show the WBGT line of text. */
  function WbgtCalls(wbgt: Option<real>): (calls: seq<DrawCall>)
    ensures |calls| == 3 && calls[0] == Font(ForegroundColor, false)
    ensures calls[1] == TextClear(160, 30, "WBGT: Unknown")
    ensures wbgt.Some? ==> calls[2] == TextNumber(calls[1].x, calls[1].y, "WBGT: ", wbgt.value)
    ensures wbgt.None? ==> calls[2] == Text(calls[1].x, calls[1].y, calls[1].text)
  {
    [Font(ForegroundColor, false), TextClear(160, 30, "WBGT: Unknown")] +
    match wbgt
    case Some(w) => [TextNumber(160, 30, "WBGT: ", w)]
    case None => [Text(160, 30, "WBGT: Unknown")]
  }

  /** Shows the WBGT value, or "Unknown" when the table had no entry. */
  method ShowWbgt(lcd: Lcd, wbgt: Option<real>)
    modifies lcd
    ensures lcd.log == old(lcd.log) + WbgtCalls(wbgt)
    ensures lcd.pixels == old(lcd.pixels)
  {
    lcd.Draw(Font(ForegroundColor, false));
    lcd.Draw(TextClear(160, 30, "WBGT: Unknown"));
    if wbgt.Some? {
      lcd.Draw(TextNumber(160, 30, "WBGT: ", wbgt.value));
    } else {
      lcd.Draw(Text(160, 30, "WBGT: Unknown"));
    }
  }

  /** Chooses `image_path` step by step as the main loop does, then draws
      the image, or clears the image area when there is none. */
  method ShowRiskImage(lcd: Lcd, temperature: real, humidity: real, wbgt: Option<real>)
    modifies lcd
    ensures var c := SelectCategory(temperature, humidity, wbgt);
      lcd.log == old(lcd.log) + (if c.Some? then [Image(ImageX, ImageY, ImagePath(c.value))] else [])
    ensures var c := SelectCategory(temperature, humidity, wbgt);
      lcd.pixels == if c.None? then FillRect(old(lcd.pixels), ImageX, ImageY, ImageWidth, ImageHeight, BackgroundColor)
                    else old(lcd.pixels)
  {
    var imagePath: Option<string> := None;
    if temperature >= 21.0 && wbgt.Some? {
      if wbgt.value >= 31.0 {
        imagePath := Some(ImagePathDanger);
      } else if wbgt.value >= 28.0 {
        imagePath := Some(ImagePathSevereCaution);
      } else if wbgt.value >= 25.0 {
        imagePath := Some(ImagePathCaution);
      }
    }
    if humidity < 40.0 {
      imagePath := Some(ImagePathInfluenza);
    }

    ghost var c := SelectCategory(temperature, humidity, wbgt);
    assert imagePath == if c.Some? then Some(ImagePath(c.value)) else None;
    if imagePath.Some? {
      lcd.Draw(Image(ImageX, ImageY, imagePath.value));
    } else {
      lcd.Rect(ImageX, ImageY, ImageWidth, ImageHeight, BackgroundColor);
    }
  }

  /** One pass of the main loop after the gauges are updated: compute the
      WBGT (a miss becomes `None`), show it, then show or clear the risk
      image. */
  method RiskTick(lcd: Lcd, cache: TableCache, temperature: real, humidity: real)
    returns (wbgt: Option<real>)
    requires cache.Valid()
    modifies lcd, cache
    ensures cache.Valid() && cache.loads == 1
    ensures old(cache.table).Some? ==> cache.loads == old(cache.loads)
    ensures wbgt == WbgtOrUnknown(LookupWbgt(cache.storage, temperature, humidity))
    ensures var c := SelectCategory(temperature, humidity, wbgt);
      lcd.log == old(lcd.log) + WbgtCalls(wbgt) +
        (if c.Some? then [Image(ImageX, ImageY, ImagePath(c.value))] else [])
    ensures var c := SelectCategory(temperature, humidity, wbgt);
      lcd.pixels == if c.None? then FillRect(old(lcd.pixels), ImageX, ImageY, ImageWidth, ImageHeight, BackgroundColor)
                    else old(lcd.pixels)
  {
    var r := cache.CalcWbgt(temperature, humidity);
    match r {
      case Ok(v) => wbgt := Some(v);
      case Err(OutOfTable) => wbgt := None;
    }
    ShowWbgt(lcd, wbgt);
    ShowRiskImage(lcd, temperature, humidity, wbgt);
  }

  // ---------------------------------------------------------------------
  // Boundary cases of the quantisation and the classification
  // ---------------------------------------------------------------------

  /** Temperatures 20.4, 20.5 and 20.6 quantise to 20, 20 and 21 (the tie
      goes to the even degree); humidities 62, 62.5 and 67.5 to 60, 60, 70. */
  lemma QuantisationExamples()
    ensures QuantiseTemperature(20.4) == 20
    ensures QuantiseTemperature(20.5) == 20
    ensures QuantiseTemperature(21.5) == 22
    ensures QuantiseTemperature(20.6) == 21
    ensures QuantiseHumidity(62.0) == 60
    ensures QuantiseHumidity(62.5) == 60
    ensures QuantiseHumidity(67.5) == 70
  {
    RoundHalfEvenUnique(20.4, 20);
    RoundHalfEvenUnique(20.5, 20);
    RoundHalfEvenUnique(21.5, 22);
    RoundHalfEvenUnique(20.6, 21);
    RoundHalfEvenUnique(62.0 / 5.0, 12);
    RoundHalfEvenUnique(62.5 / 5.0, 12);
    RoundHalfEvenUnique(67.5 / 5.0, 14);
  }

  /** A one-entry table giving WBGT 32 at 35 degrees and 35 %: the reading
      (35, 35) still selects the influenza warning, while (35, 60) misses
      the table and selects nothing. */
  lemma ClassificationExamples()
    ensures FormatKey(35, 35) == "35,35"
    ensures LookupWbgt(map["35,35" := 32.0], 35.0, 35.0) == Ok(32.0)
    ensures SelectCategory(35.0, 35.0, Some(32.0)) == Some(InfluenzaCaution)
    ensures LookupWbgt(map["35,35" := 32.0], 35.0, 60.0) == Err(OutOfTable)
    ensures SelectCategory(35.0, 60.0, None) == None
    ensures SelectCategory(31.0, 60.0, Some(31.0)) == Some(Danger)
    ensures SelectCategory(31.0, 60.0, Some(27.0)) == Some(Caution)
    ensures SelectCategory(20.0, 60.0, Some(31.0)) == None
  {
    assert NatToString(35) == "35" by {
      assert NatToString(3) == "3";
      assert DigitChar(5) == '5';
    }
    RoundHalfEvenUnique(35.0, 35);
    RoundHalfEvenUnique(35.0 / 5.0, 7);
    RoundHalfEvenUnique(60.0 / 5.0, 12);
    assert NatToString(60) == "60" by {
      assert NatToString(6) == "6";
      assert DigitChar(0) == '0';
    }
    assert FormatKey(35, 60) == "35,60";
  }
}
