# TFT_Touch in Dafny

A model of `TFT_Touch`, an Arduino driver for resistive touch screens on a
"2046"-family controller, together with proofs about it. The driver
bit-bangs a synchronous serial link to the controller. Each conversion
selects the chip, shifts out an 8-bit command most significant bit first,
gives one extra clock pulse, and shifts in a 12-bit result most significant
bit first. It then gives three trailing pulses, deselects the chip and idles
the data-in line low.

`Pressed` works in four steps:

1. It takes a first X and Y sample.
2. It re-samples X and Y twice and rejects the press at the first sample
   that strays more than `_RAWERR` from the first one of its axis.
3. It accepts only raw values strictly inside the calibration window.
4. It turns them into a pixel with Arduino `map` and `constrain`, routing
   and flipping the axes as the rotation selects.

Modules:

- `Calibration`: the compile-time defaults.
- `Arith`: a few facts about multiplication and division.
- `Bits`: binary values, most significant bit first, and their encoding.
- `Protocol`:
  - the link as a sequence of pin events, and the frame of one conversion;
  - what the controller sees of a frame: the bits latched at each rising
    clock edge, and the bits sampled;
  - the conversions read from the controller's data output.
- `Transform`:
  - the noise check;
  - the calibration window;
  - `map`, `constrain` and pixel placement;
  - the rotation table;
  - the zone value.
- `Touch`: the driver object, class `TftTouch`.

The driver's fields are the class's fields, and its methods update them in
place. The pins are abstracted:

- `dataLine` gives the level the controller's data output presents to each
  successive sample.
- `cursor` counts the samples taken.
- `trace` records every pin operation in order. A pin operation is a level
  driven on chip select, clock or data in, or a sample of the data output.

`Pressed` is one function in the C++. The model splits it along its own
structure:

- `ReadFrame` is one conversion of the press.
- `Recheck` is one repeat of the X and Y comparison.
- `ReadContact` holds all the sampling and the noise check.
- `Locate` is the accepting branch.

Points where the code decides behaviour and the model follows it:

- **Axis routing.** The accepting branch tests `!_axis`. So at rotations 1
  and 3 (`_axis == 0`):
  - raw X feeds the y pixel, scaled to `_xres`;
  - raw Y feeds the x pixel, scaled to `_yres`.

  Calibration.h gives `_XRES` and `_YRES` as the portrait width and
  height. Yet at the default rotation 1, the x pixel is scaled to `_yres`.
  The model follows the code.
- **Noise check.** Every later sample is compared with the *first* sample
  of its axis, not with the previous one.
- **Live reads.** `ReadRawX` reads channel `_axis` and `ReadRawY` reads
  channel `!_axis`, as written. Channel `_axis` is the one whose reading
  feeds the y pixel in `Pressed`, at every orientation
  (`Transform.PlaceByChannel`). At rotations 0 and 2 (`_axis == 1`) it is
  channel 1, which `Pressed` stores as `_yraw`. So there `ReadRawX()` and
  `RawX()` read different channels.
- **Pixel bounds.** After routing, a pixel lies within the resolution of
  the dimension it was scaled to. With the axes routed across, `_xcoord`
  lies in `[0, _yres]`, not in `[0, _xres]`.
- **Flipped edge.** A flipped coordinate can equal its bound, for example
  320 on a 320-pixel-wide screen (`Transform.FlippedReachesBound`). The zone of
  such a pixel coincides with the zone of the first pixel of the next row
  (`Transform.ZoneAtRightEdge`).

## Model

| member | source | states |
|---|---|---|
| Touch.TftTouch.constructor | TFT_Touch.cpp:16-40 | Sets the default calibration window and resolution. Applies the default rotation, which gives axes routed across and no flips. Idles the lines: chip select high, clock low, data in low. |
| Touch.TftTouch.Pressed | TFT_Touch.cpp:43-80 | The first X and Y conversions are stored whatever happens. The result is true exactly when every later sample is within RAWERR of the first sample of its axis and both raw values lie strictly inside the window. When true, the pixel is the placement of the raw values; when false, the pixel is unchanged. Exactly the conversions up to the first failing check are read, and they are recorded on the wire. |
| Touch.TftTouch.ReadContact | TFT_Touch.cpp:46-57 | Stores the first two conversions. Reports whether the press is steady. Reads exactly as many conversions as the checks need before one fails. |
| Touch.TftTouch.Recheck | TFT_Touch.cpp:53-57 | One repeat reports whether both fresh samples are near the first ones. It reads a Y sample only when the X sample was near. |
| Touch.TftTouch.ReadFrame | TFT_Touch.cpp:46-57 | The `n`-th conversion of a press, on channel `n % 2`. It extends the press's frames by one and returns that conversion's result. |
| Touch.TftTouch.Locate | TFT_Touch.cpp:60-73 | For raw values inside the window, the stored pixel is exactly their placement under the current window and orientation. |
| Touch.TftTouch.ReadAxis | TFT_Touch.cpp:83-105 | One conversion on the given channel. It consumes 12 samples, returns their most-significant-first value and appends exactly that channel's frame. No other field changes. |
| Touch.TftTouch.ReadData | TFT_Touch.cpp:108-119 | Takes exactly 12 samples, each followed by one clock pulse. Returns their value read most significant bit first. |
| Touch.TftTouch.OutputData | TFT_Touch.cpp:122-131 | Drives the 8 bits of the byte on data in, most significant first, each followed by one clock pulse. |
| Touch.TftTouch.PulseClock | TFT_Touch.cpp:96 | One pulse: clock high, then clock low. |
| Touch.TftTouch.ReadRawX | TFT_Touch.cpp:134-137 | A live conversion on channel `_axis`. The cached raw values and pixel are untouched. |
| Touch.TftTouch.ReadRawY | TFT_Touch.cpp:140-143 | A live conversion on channel `!_axis`. The cached raw values and pixel are untouched. |
| Touch.TftTouch.Zone | TFT_Touch.cpp:170-173 | The zone equals `_xcoord + _ycoord * _xres` exactly, and is below 2^32. |
| Touch.TftTouch.RawX | TFT_Touch.cpp:146-149 | Returns the cached raw X. It has no contract. |
| Touch.TftTouch.RawY | TFT_Touch.cpp:152-155 | Returns the cached raw Y. It has no contract. |
| Touch.TftTouch.X | TFT_Touch.cpp:158-161 | Returns the cached x pixel. It has no contract. |
| Touch.TftTouch.Y | TFT_Touch.cpp:164-167 | Returns the cached y pixel. It has no contract. |
| Touch.TftTouch.SetResolution | TFT_Touch.cpp:176-180 | Sets the resolution and nothing else. |
| Touch.TftTouch.SetCal | TFT_Touch.cpp:183-191 | Sets the four window bounds and the resolution and nothing else. |
| Touch.TftTouch.SetRotation | TFT_Touch.cpp:193-217 | Selectors 0-3 set the three orientation flags from the table. Any other selector leaves them unchanged. |
| Transform.Rotation | TFT_Touch.cpp:195-215 | Axes are routed across exactly at odd rotations. x is flipped against the default at rotations 0 and 3, and y at rotations 2 and 3. |
| Transform.RotationInjective | TFT_Touch.cpp:195-215 | Distinct rotations give distinct orientations, and conversely. |
| Transform.RotationHalfTurn | TFT_Touch.cpp:195-215 | Rotation `r + 2` keeps the routing of rotation `r` and inverts both flips. |
| Transform.PlaceHalfTurn | TFT_Touch.cpp:62-73 | A touch placed at rotation `r + 2` is the mirror image, on both axes, of its placement at rotation `r`. |
| Transform.Constrain | TFT_Touch.cpp:63-64 | The result lies in `[low, high]`, and a value already inside is unchanged. |
| Transform.Map | TFT_Touch.cpp:63-64 | Arduino `map` with C's truncating division. The start of the input range goes to the start of the output range, and the end to the end. |
| Transform.MapTruncates | TFT_Touch.cpp:69-70 | `map` is odd about the start of the input range: readings mirrored about `inMin` give outputs mirrored about `outMin`. This is what truncating division gives, and rounding down would not. |
| Transform.MapInWindow | TFT_Touch.cpp:63-64 | Requires a raw value strictly inside the window. That makes `hi - lo` at least 2, so no division by zero occurs. Then `map` is the interpolated pixel rounded down. It lies in `[0, res]` and is below `res` when `res > 0`. |
| Transform.Scale | TFT_Touch.cpp:69-70 | `constrain(map(...))` equals `map(...)`, so the constrain never changes the value. The result is the floor of the linear interpolation and lies in `[0, res]`. |
| Transform.MapFitsInLong | TFT_Touch.cpp:63-64 | The intermediate product inside `map` never overflows a 32-bit `long`. |
| Transform.ScaleMonotone | TFT_Touch.cpp:69-70 | A larger raw value never gives a smaller scaled value, before any flip. |
| Transform.Place | TFT_Touch.cpp:62-73 | Each coordinate lies in `[0, bound]`, where the bound is the resolution of the dimension the coordinate was scaled to. This holds after flips too. |
| Transform.ChannelReading | TFT_Touch.cpp:46-47 | The first reading of a channel: channel 0 is stored as raw X, channel 1 as raw Y. It has no contract. |
| Transform.PlaceByChannel | TFT_Touch.cpp:62-73 | The y pixel depends only on the reading of channel `_axis`, and the x pixel only on the reading of the other channel. |
| Transform.PlaceEdges | TFT_Touch.cpp:65-72 | An unflipped coordinate stays below its bound, and a flipped one stays above zero. |
| Transform.FlippedReachesBound | TFT_Touch.cpp:65-71 | A flipped coordinate can equal its bound: at rotation 0 on the default window, the raw X value 1 gives x pixel 320. |
| Transform.FramesRead | TFT_Touch.cpp:53-57 | Between 3 and 6 conversions are read per press, and fewer than 6 only when the press is not steady. |
| Transform.FramesReadStops | TFT_Touch.cpp:53-57 | Every check before the last conversion read passed. The last check passed exactly when the press is steady. |
| Transform.Near | TFT_Touch.cpp:53-57 | A later sample within RAWERR of the first sample of its axis. It has no contract of its own; `SteadyEveryLater` and `FramesReadStops` state its use. |
| Transform.Steady | TFT_Touch.cpp:53-57 | All four later samples pass their check. Its meaning is stated by `SteadyEveryLater`. |
| Transform.SteadyEveryLater | TFT_Touch.cpp:53-57 | A press is steady exactly when every later sample, X and Y alternating, is near the first sample of its axis. |
| Transform.MacroAbs | TFT_Touch.cpp:53 | The reject test as computed when `abs` is a macro that evaluates its argument twice. It has no contract; `MacroAbsPassesStray` states its consequence. |
| Transform.MacroAbsPassesStray | TFT_Touch.cpp:53 | Under the macro, first sample 100 with re-reads 99 then 500 is not rejected, although 500 is not near 100. |
| Transform.InWindow | TFT_Touch.cpp:60 | Both raw values lie strictly inside the window. Whenever they do, each side of the window spans at least 2, so `map` never divides by zero. |
| Transform.DefaultWindowAccepts | Calibration.h:6-9 | The default window accepts raw values 1 to 4094 on each axis, and no others. |
| Transform.DefaultOrientation | Calibration.h:17-20 | The default rotation routes the axes across without flips. With the default flips, only rotations 0 and 3 flip x, and only rotations 2 and 3 flip y. |
| Transform.Zone | TFT_Touch.cpp:172 | The 32-bit zone arithmetic never wraps: the result is exactly `x + y * xres`. |
| Transform.ZoneFits | TFT_Touch.cpp:172 | With 16-bit operands, `x + y * xres` lies below 2^32. |
| Transform.ZoneDecodes | TFT_Touch.cpp:172 | For `x < xres`, dividing the zone by `xres` gives back `y`, and the remainder gives back `x`. |
| Transform.ZoneInjective | TFT_Touch.cpp:172 | For pixels with `x < xres`, equal zones mean equal pixels, and conversely. |
| Transform.ZoneAtRightEdge | TFT_Touch.cpp:172 | The pixel `(xres, y)` shares its zone with `(0, y + 1)`. |
| Bits.Value | TFT_Touch.cpp:113-117 | The value of `n` bits lies below 2^n. |
| Bits.ValueOfEncode | TFT_Touch.cpp:126-130 | Decoding the `n` bits that are shifted out gives the value reduced to `n` bits. |
| Bits.EncodeOfValue | TFT_Touch.cpp:126-130 | Encoding the value of a bit string, at its own width, gives back the bit string. |
| Bits.RoundTrip | TFT_Touch.cpp:126-130 | A value below 2^n survives encoding to `n` bits and decoding. |
| Bits.EncodeInit | TFT_Touch.cpp:128 | Dropping the last bit of an encoding gives the encoding of the value shifted right by one. The last bit is the low bit. |
| Protocol.Conversion | TFT_Touch.cpp:108-119 | A conversion result is below 4096. |
| Protocol.Command | TFT_Touch.cpp:88-94 | 0x90 for channel 1 and 0xD0 for channel 0. Its fields are stated by `CommandFields`. |
| Protocol.CommandFields | TFT_Touch.cpp:88-94 | The command fits a byte with the top bit set and the low four bits clear. Its channel field, bits 6 to 4, is 1 for channel 1 and 5 for channel 0. The two channels' commands differ. |
| Protocol.WordValue | TFT_Touch.cpp:113-117 | The word read is the most-significant-first value of the bits sampled, in order. |
| Protocol.HeldWord | TFT_Touch.cpp:113-117 | After `k` bits, the shift-and-add sum equals the word read so far, shifted left by the number of bits still to come. |
| Protocol.WordBound | TFT_Touch.cpp:113-117 | An `n`-bit word lies below 2^n. |
| Protocol.CapturedBits | TFT_Touch.cpp:113-117 | Sampling `n` bits one at a time, each followed by a pulse, records the capture of exactly those bits. |
| Protocol.AxisFrame | TFT_Touch.cpp:87-102 | A frame with a 12-bit result has 71 pin events. |
| Protocol.FrameAssembly | TFT_Touch.cpp:87-102 | The frame is exactly the pin operations in the order the driver performs them. |
| Protocol.Frames | TFT_Touch.cpp:46-57 | A run of `n` conversions has `71 n` pin events. |
| Protocol.FramesStep | TFT_Touch.cpp:46-57 | Reading one more conversion appends the frame of the next channel in X, Y order. |
| Protocol.FrameClocks | TFT_Touch.cpp:87-100 | A frame has 24 rising clock edges. The first 8 latch the channel's command byte, most significant bit first: 0xD0 for channel 0, 0x90 for channel 1. The other 16 see data in low. |
| Protocol.FrameSamples | TFT_Touch.cpp:96-100 | The samples a frame takes are exactly its result bits, in order. |
| Protocol.ConversionOnTheWire | TFT_Touch.cpp:83-119 | Decoding the samples of a frame gives the conversion result the driver returns. |
| Protocol.FrameSelection | TFT_Touch.cpp:87-102 | A frame selects the chip first and keeps it selected throughout. It ends by deselecting the chip and setting data in low. |
| Protocol.FrameLatched | TFT_Touch.cpp:87-102 | The controller latches the command bits. The last command bit, which is 0, then holds through the extra pulse, the result and the trailer. |
| Protocol.ShiftLatched | TFT_Touch.cpp:126-130 | The controller latches exactly the bits shifted out, one per rising edge, and none is sampled. |
| Protocol.CaptureLatched | TFT_Touch.cpp:113-117 | Reading bits leaves data in alone, and samples exactly those bits. |
| Protocol.TrailerOnTheWire | TFT_Touch.cpp:98-102 | The trailer gives three rising edges with data in low and takes no samples. |

## Left out

- `pinMode` calls and pin numbers on the wire: the trace names the line's
  role, not its pin number. The pin numbers are kept as constants of the
  object.
- Electrical behaviour of the controller:
  - the data output is an arbitrary stream of levels, one per sample;
  - the analog conversion itself is not modelled.
- `delay(1)` between the sampling rounds. It is timing only.
- Touch.TftTouch.Pressed, Touch.TftTouch.ReadContact and
  Touch.TftTouch.Recheck take `abs` as the mathematical absolute value.
  Arduino.h is not part of this model. On AVR cores `abs` is a macro that
  evaluates its argument twice. Each check at TFT_Touch.cpp:53-57 then
  takes two conversions. It tests the sign of the difference with the first
  and compares the difference with the second. So a re-read that strays
  more than `_RAWERR` in the opposite direction passes: first sample 100,
  re-reads 99 then 500 (`Transform.MacroAbsPassesStray`). The
  noise-rejection contracts of these three methods hold only where `abs`
  is a function.
- TFT_Touch.h is not part of this model, so the field widths are assumed:
  - raw values are 12-bit;
  - window bounds, resolution and pixels are 16-bit unsigned;
  - the orientation flags are booleans.
- The constructor leaves the cached raw values and pixel unset, and the
  model leaves them arbitrary.
- `RawX`, `RawY`, `X` and `Y` return a field each. Their models carry no
  contract.
- `Protocol.LatchedAppend` and `Protocol.SampledAppend` model no source
  line. They are algebra of the controller-side decoders, used by
  `FrameClocks` and `FrameSamples`.
- `_XYSWAP`: it is defined but never used.
- The licence and original-header comment at the end of TFT_Touch.cpp.
