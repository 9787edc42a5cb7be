# Ultrasonic wall radar: a Dafny model

The firmware is an Arduino sketch (`main.h`) that reads four ultrasonic
distance sensors (front, back, right, left), draws each wall as a line on a
128 x 32 monochrome display that moves toward the centre as the wall comes
closer, and briefly lights an LED when a motion input fires more than once in
a one-second period. This project models the three pieces of logic in it and
proves their properties:

- `ranger.dfy` (module `Ranger`): the conversion of an echo pulse width in
  microseconds into whole centimetres, `(duration / 2) / 29.1` truncated.
- `mapper.dfy` (module `Mapper`): the mapping of a distance to the row or
  column of its wall's line, `centre -/+ (int)(cm / 400 * (extent / 2) + 0.5)`.
- `renderer.dfy` (module `Renderer`): `drawLines` as four segments, which
  pixels they light, and the range label `maxRange / 100` with its `M`.
- `latch.dfy` (module `MotionLatch`): the edge counter, the motion flag and the
  LED. `Step` gives the effect of one edge interrupt, timer tick or loop pass
  as a value. The class `Sketch` holds the three globals and updates them in
  place, with one method per callback, each proved to perform `Step`.
- `ratio.dfy` (module `Ratio`): two arithmetic helper lemmas.

The sketch computes in `double`. The model states each conversion against the
exact rational expression the sketch writes, using Dafny's `real` and its
`Floor`, and computes it with integers. For a non-negative value, truncation
is the floor. The offset `(int)(cm / 400 * k + 0.5)` is exactly
`(2*k*cm + 400) div 800`, and the distance is exactly
`((duration div 2) * 10) div 291`.

The arithmetic is `int` where it matters:

- Half the screen height is `31 / 2`, an `int` division, so 15, not the
  15.5 that "half the screen height" in the comment on main.h:75 suggests.
  At 400 cm the front line is therefore at row 1, not row 0. The side lines
  use `127 / 2 = 63`.
- No clamping is applied. A reading beyond 400 cm pushes a line off the screen.

## Model

| member | source | states |
|---|---|---|
| `Ranger.Centimetres` | main.h:173-177 | the returned `cm` is the floor of the exact quotient of the integer-halved duration by 29.1 |
| `Ranger.CentimetresOfNoEcho` | main.h:171-174 | a zero-length echo (also what `pulseIn` reports on timeout) reads 0 cm |
| `Ranger.CentimetresZeroIff` | main.h:174 | the reading is 0 cm if and only if the echo is shorter than 60 microseconds |
| `Ranger.CentimetresMonotone` | main.h:174 | a longer echo never reads as a shorter distance |
| `Ranger.CentimetresStep` | main.h:174 | 582 more microseconds of echo add exactly 10 cm |
| `Mapper.Half` | main.h:75 | `extent / 2` is integer division: twice the half is the extent or one less |
| `Mapper.Offset` | main.h:75 | the offset is the floor of `cm / 400 * (extent / 2) + 0.5` computed exactly |
| `Mapper.OffsetMonotone` | main.h:75 | the offset is non-decreasing in the distance |
| `Mapper.OffsetInRange` | main.h:75 | within 0..400 cm the offset is at most half the extent; it is 0 at 0 cm and half the extent at 400 cm |
| `Mapper.OffsetShift` | main.h:75 | 400 cm more always adds exactly half the extent to the offset |
| `Mapper.CoordinatesAtZero` | main.h:75-109 | at 0 cm `FrontY`, `BackY`, `RightX` and `LeftX` (the four coordinates of main.h:76, 87, 98, 109) are 16, 15, 64 and 63 |
| `Mapper.CoordinatesAtMaxRange` | main.h:75-109 | at 400 cm the lines are at front 1, back 30, right 127, left 0 |
| `Mapper.CoordinatesOnScreen` | main.h:75-109 | for 0..400 cm front is in 1..16, back in 15..30, right in 64..127, left in 0..63 |
| `Mapper.CoordinatesMonotone` | main.h:70-109 | front and left never increase and back and right never decrease as the distance grows |
| `Mapper.CoordinatesMirror` | main.h:75-109 | front + back is 31 and right + left is 127 for every reading |
| `Mapper.CoordinatesUnclamped` | main.h:75-109 | each further 400 cm moves the lines 15 rows or 63 columns outward, so 800 cm puts all four off the screen |
| `Renderer.DrawLines` | main.h:149-155 | four segments: two horizontal at rows front and back, two vertical at columns right and left; in the 0..128 x 0..32 box a pixel is lit exactly when its row is front or back or its column is right or left |
| `Renderer.WallLinesVisible` | main.h:74-126 | `WallLines`, the readings mapped and handed to `drawLines` (main.h:125-126), shows every wall as a full on-screen row or column for readings within 400 cm |
| `Renderer.RangeMetres` | main.h:140 | `maxRange / 100` is the range in whole metres, 4 |
| `Renderer.RangeLabel` | main.h:139-141 | the corner label is "4M" |
| `MotionLatch.StepEffects` | main.h:130-195 | `Step` gives the effect of one event and `Marker` whether it shows "+" (main.h:134-135): an edge adds one to the counter and nothing else; a tick always clears the counter and sets flag and LED high exactly when more than one edge was counted; a pass always leaves the flag low and shows the marker exactly when it was high |
| `MotionLatch.RunKeepsLedShowingFlag` | main.h:130-195 | if the LED shows the flag, it still does after any sequence of events |
| `MotionLatch.RunWithinPeriod` | main.h:180-183 | between ticks the counter grows by the number of edges and the flag can only be lowered |
| `MotionLatch.PeriodLatchesMotion` | main.h:185-195 | a period that starts with a cleared counter ends with it cleared; the flag is then high exactly when more than one edge arrived or an earlier latch was not consumed |
| `MotionLatch.QuietPeriodLatchesIff` | main.h:185-195 | from a cleared counter and a low flag, a period latches motion if and only if at least two edges arrive |
| `MotionLatch.ThreeEdgesThenPass` | main.h:130-195 | three edges then a tick latch motion with the LED lit; the next loop pass shows "+" and turns the LED off |
| `MotionLatch.Sketch.constructor` | main.h:12-13 | power-up state: counter 0, flag low, LED low |
| `MotionLatch.Sketch.StateChange` | main.h:180-183 | `number` grows by exactly one; flag and LED are unchanged |
| `MotionLatch.Sketch.Handle` | main.h:185-195 | the counter is 0 afterwards; flag and LED go high when the old counter exceeded 1 and are otherwise unchanged |
| `MotionLatch.Sketch.ConsumeMotion` | main.h:130-136 | the flag is low afterwards; the marker is shown and the LED written low exactly when the flag was high; the counter is unchanged |

## Left out

- Display output (`clearDisplay`, `setCursor`, `println`, `drawLine`, `drawPixel`, `display`): these are calls into the display library. Only the geometry of `drawLines`, the "+" marker (as `ConsumeMotion`'s result) and the range label are modelled. The centre pixel at (63, 15) and the text positions are not.
- The debug overlay (`debugMode`): its flag is constant `false`, and it only prints numbers.
- Clipping: `drawLines` ends its lines at x = 128 and y = 32, one past the display. The library clips them; `DrawLines` keeps the end points as written.
- `setup`: pin modes, `attachInterrupt`, `MsTimer2` registration and display initialisation are hardware configuration.
- The trigger pulse and `pulseIn` in `distance`, including its timeout: the echo duration is an input, a natural number, because `pulseIn` returns an unsigned count.
- `inches = (duration / 2) / 74` is stored in a global that nothing reads, so it is not modelled.
- Floating point: the sketch uses 32-bit `double`. The model uses exact rationals, so float rounding near a rounding boundary is not covered. That includes an exact `.5` in the offset, e.g. at cm = 40 for the height, and the inexact binary value of 29.1.
- Mapper.Offset: the `(int)` cast of very large values (beyond 16-bit `int`) is not modelled. Readings are bounded by `pulseIn`'s one-second timeout, which is about 17,000 cm, and there the offset stays far inside the range.
- Sketch.StateChange: the counter is an unbounded natural number. The 16-bit `int` overflow after 32767 edges is undefined behaviour in C and out of reach within one 1000 ms period.
- Interleaving: `number` is not `volatile` and nothing is locked. Each callback and the loop's consume step is modelled as one atomic step, not as a preemptible sequence of instructions.
- The 1000 ms timer period and any real time: a period is the events between two ticks.
