/** The M5Stack LCD as the core sees it. Filled rectangles are modelled down
    to the pixel; every other primitive (circle, line, text, image, font
    selection) is recorded as an event in the order it was issued. */
module Display {

  /** A packed RGB colour, as the firmware's colour constants are. */
  type Color = int

  const Black: Color := 0x000000
  const White: Color := 0xFFFFFF

  /** The colour of every pixel, indexed by (x, y). */
  type Screen = (int, int) -> Color

  /** True when pixel (px, py) lies in the rectangle with top-left corner
      (x, y), width w and height h; a rectangle with w <= 0 or h <= 0 holds
      no pixel. */
  predicate InRect(x: int, y: int, w: int, h: int, px: int, py: int) {
    x <= px < x + w && y <= py < y + h
  }

  /** The screen after filling a rectangle with colour c. */
  function FillRect(s: Screen, x: int, y: int, w: int, h: int, c: Color): (t: Screen)
    ensures forall px, py :: InRect(x, y, w, h, px, py) ==> t(px, py) == c
    ensures forall px, py :: !InRect(x, y, w, h, px, py) ==> t(px, py) == s(px, py)
  {
    (px: int, py: int) => if InRect(x, y, w, h, px, py) then c else s(px, py)
  }

  /** One `rect` call: position, size and colour. */
  datatype RectCall = RectCall(x: int, y: int, w: int, h: int, c: Color)

  /** The screen after the rectangles are filled in order. */
  function Paint(s: Screen, rects: seq<RectCall>): Screen
    decreases |rects|
  {
    if rects == [] then s
    else Paint(FillRect(s, rects[0].x, rects[0].y, rects[0].w, rects[0].h, rects[0].c), rects[1..])
  }

  /** How many of the rectangles contain pixel (px, py). */
  function Covers(rects: seq<RectCall>, px: int, py: int): nat
    decreases |rects|
  {
    if rects == [] then 0
    else (if InRect(rects[0].x, rects[0].y, rects[0].w, rects[0].h, px, py) then 1 else 0) + Covers(rects[1..], px, py)
  }

  /** Filling two rectangles in order: a pixel shows the second colour if
      the second rectangle holds it, else the first colour if the first
      does, else what it showed before. */
  lemma PaintPairAt(s: Screen, a: RectCall, b: RectCall, px: int, py: int)
    ensures Paint(s, [a, b])(px, py) ==
      if InRect(b.x, b.y, b.w, b.h, px, py) then b.c
      else if InRect(a.x, a.y, a.w, a.h, px, py) then a.c
      else s(px, py)
  {
    var s1 := FillRect(s, a.x, a.y, a.w, a.h, a.c);
    var s2 := FillRect(s1, b.x, b.y, b.w, b.h, b.c);
    assert [a, b][1..] == [b] && [b][1..] == [];
    assert Paint(s, [a, b]) == Paint(s1, [b]) == Paint(s2, []) == s2;
  }

  /** Filling a pair of rectangles is filling one, then the other. */
  lemma PaintPairUnfold(s: Screen, a: RectCall, b: RectCall)
    ensures Paint(s, [a, b]) == FillRect(FillRect(s, a.x, a.y, a.w, a.h, a.c), b.x, b.y, b.w, b.h, b.c)
  {
    var s1 := FillRect(s, a.x, a.y, a.w, a.h, a.c);
    var s2 := FillRect(s1, b.x, b.y, b.w, b.h, b.c);
    assert [a, b][1..] == [b] && [b][1..] == [];
    assert Paint(s, [a, b]) == Paint(s1, [b]) == Paint(s2, []) == s2;
  }

  /** Two rectangles cover a pixel once for each of them that holds it. */
  lemma CoversPair(a: RectCall, b: RectCall, px: int, py: int)
    ensures Covers([a, b], px, py) ==
      (if InRect(a.x, a.y, a.w, a.h, px, py) then 1 else 0) +
      (if InRect(b.x, b.y, b.w, b.h, px, py) then 1 else 0)
  {
    assert [a, b][1..] == [b] && [b][1..] == [];
    assert Covers([b], px, py) == (if InRect(b.x, b.y, b.w, b.h, px, py) then 1 else 0) + Covers([], px, py);
  }

  /** Display primitives other than filled rectangles. */
  datatype DrawCall =
    | Circle(cx: int, cy: int, radius: int, color: Color, fill: Color)
    | Line(x0: int, y0: int, x1: int, y1: int, color: Color)
    | Font(color: Color, transparent: bool)
    | Text(x: int, y: int, text: string)
    | TextNumber(x: int, y: int, prefix: string, number: real)
    | TextClear(x: int, y: int, text: string)
    | Print(text: string, x: int, y: int, color: Color)
    | Image(x: int, y: int, path: string)

  class Lcd {
    /** What is on the panel. */
    var pixels: Screen
    /** Every non-rectangle primitive issued so far, oldest first. */
    var log: seq<DrawCall>
    /** Height in pixels of the current font, as `fontSize()` reports it. */
    const fontHeight: int
    /** `textWidth(s)` in the current font. */
    const textWidth: string -> int

    constructor (initial: Screen, fontHeight: int, textWidth: string -> int)
      ensures pixels == initial && log == []
      ensures this.fontHeight == fontHeight && this.textWidth == textWidth
    {
      pixels := initial;
      log := [];
      this.fontHeight := fontHeight;
      this.textWidth := textWidth;
    }

    /** `lcd.rect(x, y, w, h, c, c)`: border and fill in the same colour. */
    method Rect(x: int, y: int, w: int, h: int, c: Color)
      modifies this
      ensures pixels == FillRect(old(pixels), x, y, w, h, c)
      ensures log == old(log)
    {
      pixels := FillRect(pixels, x, y, w, h, c);
    }

    /** Issues any other primitive. */
    method Draw(call: DrawCall)
      modifies this
      ensures log == old(log) + [call]
      ensures pixels == old(pixels)
    {
      log := log + [call];
    }
  }
}
