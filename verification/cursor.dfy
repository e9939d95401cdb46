/**
 * The text-cursor state machine inside the polling loop of the board's
 * firmware (src/main.rs). Each pass reads five buttons, moves the text
 * position by a fixed stride per pressed direction button, leaves the loop
 * when the Y button is pressed, and otherwise clamps the position to the
 * screen before drawing.
 */
module Cursor {

  /** Screen height and width in pixels: the inclusive upper clamp bounds. */
  const H: int := 240
  const W: int := 240

  /** Pixels the text moves per pressed direction button per pass. */
  const Stride: int := 5

  /** Where the text starts before the first pass. */
  const StartX: int := 10
  const StartY: int := 100

  /** The signed 32-bit integer type the firmware gives text_x and text_y. */
  newtype i32 = v: int | -0x8000_0000 <= v < 0x8000_0000

  /** A digital input level. Every button has a pull-up, so Low means pressed. */
  datatype Level = Low | High

  /** The levels of the five buttons read in one pass of the loop. */
  datatype Sample = Sample(up: Level, down: Level, left: Level, right: Level, yKey: Level)

  /** No button pressed. */
  const Idle: Sample := Sample(High, High, High, High, High)

  /**
   * The position held in (text_x, text_y) at the end of a pass: either the
   * loop breaks on Y, keeping the moved but unclamped position, or it clamps
   * the position and goes on to draw it.
   */
  datatype Pass = Exit(x: int, y: int) | Next(x: int, y: int)

  /** The clamped screen area, with inclusive upper bounds. */
  predicate InBounds(x: int, y: int) {
    0 <= x <= W && 0 <= y <= H
  }

  /** The distance between two points of one axis. */
  function Dist(a: int, b: int): int {
    if a < b then b - a else a - b
  }

  /**
   * One axis of the position update: move back by Stride when `minus` is
   * pressed, then forward by Stride when `plus` is pressed.
   */
  function Shift(v: int, minus: Level, plus: Level): (r: int)
    ensures r - v == (if plus == Low then Stride else 0) - (if minus == Low then Stride else 0)
  {
    var moved := if minus == Low then v - Stride else v;
    if plus == Low then moved + Stride else moved
  }

  /**
   * The clamp of both coordinates: the point of [0, hi] nearest to v. The
   * chained clamp of text_y has this form; the two-statement clamp of text_x
   * (lower bound first, then upper) computes the same value because 0 <= hi.
   */
  function Clamp(v: int, hi: int): (r: int)
    requires 0 <= hi
    ensures 0 <= r <= hi
    ensures forall w :: 0 <= w <= hi ==> Dist(v, r) <= Dist(v, w)
    ensures 0 <= v <= hi ==> r == v
  {
    if v < 0 then 0 else if v > hi then hi else v
  }

  /**
   * One pass of the loop from position (x, y) under the button levels `s`:
   * the vertical then the horizontal adjustment, the Y-button exit, and the
   * clamp of both coordinates.
   */
  function Step(x: int, y: int, s: Sample): (p: Pass)
    ensures p.Exit? <==> s.yKey == Low
    ensures p.Next? ==> InBounds(p.x, p.y)
  {
    var y1 := Shift(y, s.up, s.down);
    var x1 := Shift(x, s.left, s.right);
    if s.yKey == Low then Exit(x1, y1) else Next(Clamp(x1, W), Clamp(y1, H))
  }

  /** The starting position lies inside the clamped area. */
  lemma StartInBounds()
    ensures InBounds(StartX, StartY)
  {
  }

  /** Clamping an already clamped value changes nothing. */
  lemma ClampIdempotent(v: int, hi: int)
    requires 0 <= hi
    ensures Clamp(Clamp(v, hi), hi) == Clamp(v, hi)
  {
  }

  /**
   * The horizontal coordinate depends only on the left, right and Y buttons
   * and the old horizontal coordinate, and the vertical one only on the up,
   * down and Y buttons and the old vertical coordinate.
   */
  lemma AxisIndependence(x1: int, x2: int, y1: int, y2: int, s1: Sample, s2: Sample)
    ensures s1.left == s2.left && s1.right == s2.right && s1.yKey == s2.yKey ==>
              Step(x1, y1, s1).x == Step(x1, y2, s2).x
    ensures s1.up == s2.up && s1.down == s2.down && s1.yKey == s2.yKey ==>
              Step(x1, y1, s1).y == Step(x2, y1, s2).y
  {
  }

  /**
   * A single direction button moves the text by exactly Stride along its own
   * axis, stopping at the edge of the screen.
   */
  lemma SinglePress(x: int, y: int)
    requires InBounds(x, y)
    ensures y - Stride >= 0 ==> Step(x, y, Idle.(up := Low)) == Next(x, y - Stride)
    ensures y - Stride < 0 ==> Step(x, y, Idle.(up := Low)) == Next(x, 0)
    ensures y + Stride <= H ==> Step(x, y, Idle.(down := Low)) == Next(x, y + Stride)
    ensures y + Stride > H ==> Step(x, y, Idle.(down := Low)) == Next(x, H)
    ensures x - Stride >= 0 ==> Step(x, y, Idle.(left := Low)) == Next(x - Stride, y)
    ensures x - Stride < 0 ==> Step(x, y, Idle.(left := Low)) == Next(0, y)
    ensures x + Stride <= W ==> Step(x, y, Idle.(right := Low)) == Next(x + Stride, y)
    ensures x + Stride > W ==> Step(x, y, Idle.(right := Low)) == Next(W, y)
  {
  }

  /**
   * Pressing both buttons of an axis is the same as pressing neither, from
   * any position: the two moves cancel before any clamp, so even at an edge
   * the position does not change.
   */
  lemma OppositesCancel(x: int, y: int, s: Sample)
    ensures Step(x, y, s.(up := Low, down := Low)) == Step(x, y, s.(up := High, down := High))
    ensures Step(x, y, s.(left := Low, right := Low)) == Step(x, y, s.(left := High, right := High))
    ensures InBounds(x, y) ==> Step(x, y, Idle.(up := Low, down := Low, left := Low, right := Low)) == Next(x, y)
  {
  }

  /** With no button pressed, a position inside the screen is kept. */
  lemma IdleIsFixpoint(x: int, y: int)
    ensures InBounds(x, y) <==> Step(x, y, Idle) == Next(x, y)
  {
  }

  /**
   * The Y button only cuts the pass short: the moves happen as in a pass
   * without Y, but the loop exits before the clamp, so the position it
   * leaves behind is the unclamped one.
   */
  lemma ExitBeforeClamp(x: int, y: int, s: Sample)
    requires s.yKey == Low
    ensures Step(x, y, s) == Exit(Shift(x, s.left, s.right), Shift(y, s.up, s.down))
    ensures Step(x, y, s.(yKey := High)) == Next(Clamp(Step(x, y, s).x, W), Clamp(Step(x, y, s).y, H))
    ensures InBounds(x, y) ==> -Stride <= Step(x, y, s).x <= W + Stride && -Stride <= Step(x, y, s).y <= H + Stride
    ensures Step(0, 0, Idle.(up := Low, left := Low, yKey := Low)) == Exit(-Stride, -Stride)
  {
  }

  /**
   * The upper bounds are inclusive: a clamped coordinate equals the screen
   * size exactly when the moved coordinate reached or passed it.
   */
  lemma UpperBoundsInclusive(x: int, y: int, s: Sample)
    requires s.yKey == High
    ensures Step(x, y, s).x == W <==> Shift(x, s.left, s.right) >= W
    ensures Step(x, y, s).y == H <==> Shift(y, s.up, s.down) >= H
  {
  }
}
