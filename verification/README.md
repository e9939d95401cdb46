# pico_snake text demo: the cursor loop

This project models the one piece of logic in the firmware's `main` (src/main.rs)
for an RP2040 board with a 240×240 display and a set of pulled-up buttons: the
polling loop that moves a line of text around the screen.

- `Cursor` holds one pass of the loop as the pure function `Step`. The state is
  the pair (`text_x`, `text_y`), which starts at (10, 100). A pass reads the U, D, L
  and R buttons and the Y button. A pin that reads low is a pressed button.
  U subtracts 5 from `text_y`, D adds 5, L subtracts 5 from `text_x` and R adds 5.
  These are four independent `if`s, so several can apply in one pass. If Y is
  pressed, the loop breaks at that point and the moved position is not clamped.
  Otherwise `text_x` is clamped to [0, 240] and `text_y` to [0, 240].
- `DemoLoop` holds the loop over a sequence of button samples, one sample per
  pass. The spec functions `Run` (the loop) and `Demo` (the backlight switch-on,
  the loop and the shutdown) describe it, and the method `TextDemo` implements
  it with the firmware's own statements on 32-bit locals: the four `if`s, the
  `break`, the two-step clamp of `text_x` and the chained clamp of `text_y`. The
  display and the backlight pin appear only as a trace of `Effect`s. That trace
  holds the backlight switched on, then a clear and a text draw per pass, then
  the final clear and the backlight switched off.

The firmware's loop never ends unless Y is pressed. The model runs over a finite
sequence of samples, so a sequence without a Y press describes a prefix of an
endless run.

The locals are modelled as the `i32` newtype, so every addition and subtraction
in `TextDemo` is checked against the 32-bit range. A position inside the screen
moves at most one stride, 5 pixels, outside it before the clamp or the exit.
So the arithmetic never overflows.

Other parts of the repository hold a snake game, a chunked pixel transfer and
the `display` module; src/main.rs only declares `display`. They are not part of
this model.

## Model

| member | source | states |
|---|---|---|
| Cursor.Clamp | src/main.rs:116-118 | the clamped value lies in [0, hi] and is the point of [0, hi] nearest the input; a value already in range is kept |
| Cursor.Shift | src/main.rs:98-109 | one axis moves by exactly 5 pixels per pressed button of that axis, back for U or L and forward for D or R, so a pair of opposite presses moves it by 0 |
| Cursor.Step | src/main.rs:97-118 | a pass exits exactly when Y is pressed, whatever the direction buttons do; a pass that does not exit leaves the position inside [0, W] × [0, H] |
| Cursor.StartInBounds | src/main.rs:91-92 | the start position (10, 100) lies inside the clamped area, so the bounds hold before the first pass |
| Cursor.ClampIdempotent | src/main.rs:116-118 | clamping twice is clamping once |
| Cursor.AxisIndependence | src/main.rs:98-109 | the new x depends only on the old x and the L, R and Y buttons; the new y only on the old y and the U, D and Y buttons |
| Cursor.SinglePress | src/main.rs:98-118 | each direction button alone moves the text by exactly 5 pixels along its own axis, or to the edge when 5 pixels would leave the screen |
| Cursor.OppositesCancel | src/main.rs:98-118 | U with D, and L with R, act as if neither were pressed, from any position; both moves happen before the clamp, so a position at an edge stays put |
| Cursor.IdleIsFixpoint | src/main.rs:116-118 | with no button pressed, a pass keeps the position if and only if it is inside the screen |
| Cursor.ExitBeforeClamp | src/main.rs:110-118 | with Y pressed, the pass leaves exactly the moved position, and makes the same moves as without Y but skips the clamp; the position it leaves is at most one stride outside the screen, and it can be outside, e.g. (-5, -5) from (0, 0) with U and L |
| Cursor.UpperBoundsInclusive | src/main.rs:116-118 | a clamped coordinate equals 240 exactly when the moved coordinate reached or passed 240, so the upper bounds are inclusive |
| DemoLoop.Run | src/main.rs:97-126 | reference definition of the loop from a given position: a pass without Y adds a clear and a draw at the clamped position, a pass with Y ends the loop with the moved position; its own contract gives an even trace of at most two effects per sample, exactly two per sample when the loop did not exit; exit at the first Y press, in-screen draws and bounds are stated by RunExitsAtFirstY, RunDrawsInBounds and RunStaysInBounds |
| DemoLoop.Demo | src/main.rs:95-129 | reference definition of the whole demo: backlight on, Run from (10, 100), then after an exit a clear and backlight off; its own contract gives the leading backlight switch-on and, after an exit, the trailing clear and switch-off; the rest of its shape is stated by DemoDrawsInBounds and DemoShape, and TextDemo is proved equal to it |
| DemoLoop.FirstExit | src/main.rs:110-113 | the index returned is the first sample with Y pressed, or the number of samples when there is none |
| DemoLoop.RunExitsAtFirstY | src/main.rs:97-126 | the loop exits exactly when some sample has Y pressed, and its trace holds exactly one clear followed by one in-screen draw per pass before that sample, none for the exiting pass |
| DemoLoop.RunDrawsInBounds | src/main.rs:115-123 | every pass before the exit clears the screen and then draws the text at a position inside the screen, from any start |
| DemoLoop.RunStaysInBounds | src/main.rs:91-118 | from a position inside the screen, the loop ends inside it unless it exited, and always within one stride of it |
| DemoLoop.DemoDrawsInBounds | src/main.rs:115-123 | right after the backlight switch-on, each pass of the demo before the first Y press contributes a clear and then a draw of the text at a position inside the screen |
| DemoLoop.DemoShape | src/main.rs:95-129 | the demo exits if and only if some sample has Y pressed; its trace starts with the backlight switch-on, holds one clear and one in-screen draw per pass before the first Y press, and after an exit ends with a clear and the backlight switch-off |
| DemoLoop.TextDemo | src/main.rs:91-129 | the loop on 32-bit locals, with the firmware's own statements, returns the final position, the exit flag and the effect trace that `Demo` specifies; without an exit the final position is inside the screen |

## Left out

- Board and peripheral initialisation, pin assignment, the construction of the button inputs and the SPI bus configuration (src/main.rs:39-75). These are hardware setup with no logic.
- Construction of the display driver (src/main.rs:76-87), the text string and the font style (src/main.rs:89-90). Clearing the screen and drawing the text are recorded as effects. Their results are not modelled, and neither is the panic that `.unwrap()` raises on a display error.
- The `display` module (`SPIDeviceInterface`). Its source is not part of this model.
- The snake game and the chunked pixel transfer. They do not appear in src/main.rs.
- The commented-out 100 ms delay (src/main.rs:125). It is not active code.
- Logging with `info!` (src/main.rs:42). It is output only.
