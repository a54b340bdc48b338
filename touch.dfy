/**
 * The driver object for a touch screen on a "2046"-family controller:
 * configuration, the last accepted sample, and the bit-banged conversion
 * protocol. The controller and the pins are abstracted: `dataLine` gives the
 * level the controller's data output presents to each successive sample, and
 * `trace` records every pin operation the driver performs.
 */
module Touch {
  import opened Bits
  import opened Protocol
  import opened Transform
  import opened Calibration

  type Byte = x: int | 0 <= x < 0x100

  class TftTouch {
    /** Pin numbers of chip select, clock, data in and data out, fixed at construction. */
    const csPin: Byte
    const clkPin: Byte
    const dinPin: Byte
    const doutPin: Byte

    /** The level of the controller's data output at the `k`-th sample. */
    const dataLine: nat -> bool
    /** How many samples the driver has taken. */
    var cursor: nat
    /** Every pin operation the driver has performed, in order. */
    var trace: seq<Event>

    var xmin: U16
    var xmax: U16
    var ymin: U16
    var ymax: U16
    var xres: U16
    var yres: U16

    var axis: bool
    var xflip: bool
    var yflip: bool

    /** The first samples of the last press. */
    var xraw: Raw
    var yraw: Raw
    /** The pixel of the last accepted press. */
    var xcoord: U16
    var ycoord: U16

    function Cal(): Window
      reads this
    {
      Window(xmin, xmax, ymin, ymax, xres, yres)
    }

    function Orient(): Orientation
      reads this
    {
      Orientation(axis, xflip, yflip)
    }

    /**
     * Takes the defaults for the calibration window and the resolution,
     * applies the default rotation, and idles the lines: chip deselected,
     * clock low, data in low.
     */
    constructor (csPin: Byte, clkPin: Byte, dinPin: Byte, doutPin: Byte, dataLine: nat -> bool)
      ensures this.csPin == csPin && this.clkPin == clkPin
      ensures this.dinPin == dinPin && this.doutPin == doutPin
      ensures this.dataLine == dataLine && cursor == 0
      ensures Cal() == DefaultWindow()
      ensures Orient() == Rotation(ROTATION) == Orientation(false, false, false)
      ensures trace == [Drive(ChipSelect, true), Drive(Clock, false), Drive(DataIn, false)]
    {
      this.csPin := csPin;
      this.clkPin := clkPin;
      this.dinPin := dinPin;
      this.doutPin := doutPin;
      this.dataLine := dataLine;
      cursor := 0;
      trace := [];
      xmin := XMIN;
      xmax := XMAX;
      ymin := YMIN;
      ymax := YMAX;
      xres := XRES;
      yres := YRES;
      new;
      SetRotation(ROTATION);
      DigitalWrite(ChipSelect, true);
      DigitalWrite(Clock, false);
      DigitalWrite(DataIn, false);
    }

    // The pin operations.

    method DigitalWrite(line: Line, high: bool)
      modifies this`trace
      ensures trace == old(trace) + [Drive(line, high)]
    {
      trace := trace + [Drive(line, high)];
    }

    method DigitalRead() returns (bit: bool)
      modifies this`trace, this`cursor
      ensures bit == dataLine(old(cursor)) && cursor == old(cursor) + 1
      ensures trace == old(trace) + [Sample(bit)]
    {
      bit := dataLine(cursor);
      cursor := cursor + 1;
      trace := trace + [Sample(bit)];
    }

    /** One clock pulse: clock high, then low. */
    method PulseClock()
      modifies this`trace
      ensures trace == old(trace) + Pulse
    {
      DigitalWrite(Clock, true);
      DigitalWrite(Clock, false);
    }

    // The conversion protocol.

    /** Reads the 12 result bits, most significant first, one clock pulse after each. */
    method ReadData() returns (data: nat)
      modifies this`trace, this`cursor
      ensures cursor == old(cursor) + 12
      ensures data == Conversion(dataLine, old(cursor))
      ensures trace == old(trace) + Capture(DataBits(dataLine, old(cursor), 12))
    {
      ghost var at, t0 := cursor, trace;
      data := 0;
      var index := 12;
      while index > 0
        invariant 0 <= index <= 12
        invariant cursor == at + (12 - index)
        invariant data == Held(dataLine, at, 12 - index, index)
        invariant trace == t0 + Captured(dataLine, at, 12 - index)
      {
        var bit := DigitalRead();
        if bit {
          data := data + Pow2(index - 1);
        }
        PulseClock();
        index := index - 1;
      }
      HeldWord(dataLine, at, 12, 0);
      CapturedBits(dataLine, at, 12);
    }

    /** Sends the 8 bits of `data`, most significant first, one clock pulse after each. */
    method OutputData(data: Byte)
      modifies this`trace
      ensures trace == old(trace) + Shift(Encode(data, 8))
    {
      ghost var bits := Encode(data, 8);
      var index := 8;
      while index > 0
        invariant 0 <= index <= 8
        invariant trace == old(trace) + Shift(bits[..8 - index])
      {
        DigitalWrite(DataIn, Bit(data, index - 1));
        PulseClock();
        index := index - 1;
        assert bits[..8 - index][..7 - index] == bits[..7 - index];
      }
      assert bits[..8] == bits;
    }

    /**
     * One conversion of channel `channel`: the command for the channel, one
     * extra pulse, the 12-bit result, three trailing pulses; chip selected
     * only for the frame. No field of the driver's state changes.
     */
    method ReadAxis(channel: bool) returns (data: Raw)
      modifies this`trace, this`cursor
      ensures cursor == old(cursor) + 12
      ensures data == Conversion(dataLine, old(cursor))
      ensures trace == old(trace) + AxisFrame(channel, DataBits(dataLine, old(cursor), 12))
    {
      FrameAssembly(trace, channel, DataBits(dataLine, cursor, 12));
      DigitalWrite(ChipSelect, false);
      CommandFields(channel);
      var command: Byte := Command(channel);
      OutputData(command);
      PulseClock();
      data := ReadData();
      PulseClock();
      PulseClock();
      PulseClock();
      DigitalWrite(ChipSelect, true);
      DigitalWrite(DataIn, false);
    }

    /**
     * A live conversion on channel `axis`: the channel whose reading feeds the
     * y pixel in `Pressed`. At rotations 0 and 2 this is the channel `Pressed`
     * stores as `yraw`. The cached press is untouched.
     */
    method ReadRawX() returns (r: U16)
      modifies this`trace, this`cursor
      ensures r == Conversion(dataLine, old(cursor))
      ensures cursor == old(cursor) + 12
      ensures trace == old(trace) + AxisFrame(axis, DataBits(dataLine, old(cursor), 12))
    {
      r := ReadAxis(axis);
    }

    /**
     * A live conversion on channel `!axis`: the channel whose reading feeds the
     * x pixel in `Pressed`. At rotations 0 and 2 this is the channel `Pressed`
     * stores as `xraw`. The cached press is untouched.
     */
    method ReadRawY() returns (r: U16)
      modifies this`trace, this`cursor
      ensures r == Conversion(dataLine, old(cursor))
      ensures cursor == old(cursor) + 12
      ensures trace == old(trace) + AxisFrame(!axis, DataBits(dataLine, old(cursor), 12))
    {
      r := ReadAxis(!axis);
    }

    // Press detection.

    /**
     * Samples X and Y, re-samples each twice and gives up at the first
     * sample that strays more than RAWERR from the first one of its axis;
     * then accepts only raw values strictly inside the calibration window,
     * and stores their pixel. The first samples are kept whatever happens;
     * the pixel changes only on acceptance.
     */
    method Pressed() returns (pressed: bool)
      modifies this`xraw, this`yraw, this`xcoord, this`ycoord, this`trace, this`cursor
      ensures xraw == Readings(dataLine, old(cursor))[0]
      ensures yraw == Readings(dataLine, old(cursor))[1]
      ensures pressed == (Steady(Readings(dataLine, old(cursor))) && InWindow(Cal(), xraw, yraw))
      ensures pressed ==> Pixel(xcoord, ycoord) == Place(xraw, yraw, Cal(), Orient())
      ensures !pressed ==> xcoord == old(xcoord) && ycoord == old(ycoord)
      ensures cursor == old(cursor) + 12 * FramesRead(Readings(dataLine, old(cursor)))
      ensures trace == old(trace) + Frames(dataLine, old(cursor), FramesRead(Readings(dataLine, old(cursor))))
    {
      var steady := ReadContact();
      if !steady {
        return false;
      }
      if (yraw > ymin && yraw < ymax) && (xraw > xmin && xraw < xmax) {
        Locate();
        return true;
      } else {
        return false;
      }
    }

    /**
     * Samples X, then Y, then checks twice that fresh samples stay within
     * RAWERR of the first ones, stopping at the first that strays.
     */
    method ReadContact() returns (steady: bool)
      modifies this`xraw, this`yraw, this`trace, this`cursor
      ensures xraw == Readings(dataLine, old(cursor))[0]
      ensures yraw == Readings(dataLine, old(cursor))[1]
      ensures steady == Steady(Readings(dataLine, old(cursor)))
      ensures cursor == old(cursor) + 12 * FramesRead(Readings(dataLine, old(cursor)))
      ensures trace == old(trace) + Frames(dataLine, old(cursor), FramesRead(Readings(dataLine, old(cursor))))
    {
      ghost var at, t0 := cursor, trace;
      ghost var r := Readings(dataLine, at);
      FramesStep(dataLine, at, 0, t0);
      xraw := ReadFrame(false, t0, at, 0);
      yraw := ReadFrame(true, t0, at, 1);
      steady := Recheck(t0, at, 2);
      if !steady {
        assert !Steady(r);
        return;
      }
      steady := Recheck(t0, at, 4);
      assert steady == Steady(r);
    }

    /** One repeat of the X and Y samples, compared with the first ones; Y is skipped once X strays. */
    method Recheck(ghost t0: seq<Event>, ghost at: nat, ghost k: nat) returns (near: bool)
      requires k == 2 || k == 4
      requires cursor == at + 12 * k && trace == t0 + Frames(dataLine, at, k)
      modifies this`trace, this`cursor
      ensures near == (Near(xraw, Conversion(dataLine, at + 12 * k))
                       && Near(yraw, Conversion(dataLine, at + 12 * (k + 1))))
      ensures var n := if Near(xraw, Conversion(dataLine, at + 12 * k)) then k + 2 else k + 1;
        cursor == at + 12 * n && trace == t0 + Frames(dataLine, at, n)
    {
      var later := ReadFrame(false, t0, at, k);
      if Abs(xraw - later) > RAWERR {
        return false;
      }
      later := ReadFrame(true, t0, at, k + 1);
      return Abs(yraw - later) <= RAWERR;
    }

    /** The `n`-th conversion of a press, on the channel that conversion uses. */
    method ReadFrame(channel: bool, ghost t0: seq<Event>, ghost at: nat, ghost n: nat) returns (data: Raw)
      requires channel == (n % 2 == 1)
      requires cursor == at + 12 * n && trace == t0 + Frames(dataLine, at, n)
      modifies this`trace, this`cursor
      ensures cursor == at + 12 * (n + 1)
      ensures data == Conversion(dataLine, at + 12 * n)
      ensures trace == t0 + Frames(dataLine, at, n + 1)
    {
      FramesStep(dataLine, at, n, t0);
      data := ReadAxis(channel);
    }

    /**
     * Stores the pixel of the current raw values, which lie inside the
     * calibration window: each raw value scaled with `map` and `constrain`
     * onto the resolution of the pixel it feeds, then flipped as set.
     */
    method Locate()
      requires InWindow(Cal(), xraw, yraw)
      modifies this`xcoord, this`ycoord
      ensures Pixel(xcoord, ycoord) == Place(xraw, yraw, Cal(), Orient())
    {
      if !axis {
        ycoord := Constrain(Map(xraw, xmin, xmax, 0, xres), 0, xres);
        xcoord := Constrain(Map(yraw, ymin, ymax, 0, yres), 0, yres);
        if xflip {
          xcoord := yres - xcoord;
        }
        if yflip {
          ycoord := xres - ycoord;
        }
      } else {
        xcoord := Constrain(Map(xraw, xmin, xmax, 0, xres), 0, xres);
        ycoord := Constrain(Map(yraw, ymin, ymax, 0, yres), 0, yres);
        if xflip {
          xcoord := xres - xcoord;
        }
        if yflip {
          ycoord := yres - ycoord;
        }
      }
    }

    // Accessors of the last press.

    function RawX(): Raw
      reads this
    {
      xraw
    }

    function RawY(): Raw
      reads this
    {
      yraw
    }

    function X(): U16
      reads this
    {
      xcoord
    }

    function Y(): U16
      reads this
    {
      ycoord
    }

    /** The zone of the last accepted pixel, `x + y * xres`, which never wraps in 32 bits. */
    function Zone(): (z: nat)
      reads this
      ensures z == xcoord + ycoord * xres && z < 0x1_0000_0000
    {
      Transform.Zone(xcoord, ycoord, xres)
    }

    // Configuration.

    /** Sets the screen resolution and nothing else. */
    method SetResolution(xres: U16, yres: U16)
      modifies this`xres, this`yres
      ensures this.xres == xres && this.yres == yres
    {
      this.xres := xres;
      this.yres := yres;
    }

    /** Sets the calibration window and the resolution and nothing else. */
    method SetCal(xmin: U16, xmax: U16, ymin: U16, ymax: U16, xres: U16, yres: U16)
      modifies this`xmin, this`xmax, this`ymin, this`ymax, this`xres, this`yres
      ensures Cal() == Window(xmin, xmax, ymin, ymax, xres, yres)
    {
      this.xmin := xmin;
      this.xmax := xmax;
      this.ymin := ymin;
      this.ymax := ymax;
      this.xres := xres;
      this.yres := yres;
    }

    /** Sets the orientation flags from the rotation table; a selector above 3 changes nothing. */
    method SetRotation(rotation: Byte)
      modifies this`axis, this`xflip, this`yflip
      ensures rotation < 4 ==> Orient() == Rotation(rotation)
      ensures rotation >= 4 ==> Orient() == old(Orient())
    {
      match rotation
      case 0 =>
        axis := true;
        xflip := XFLIP == 0;
        yflip := YFLIP != 0;
      case 1 =>
        axis := false;
        xflip := XFLIP != 0;
        yflip := YFLIP != 0;
      case 2 =>
        axis := true;
        xflip := XFLIP != 0;
        yflip := YFLIP == 0;
      case 3 =>
        axis := false;
        xflip := XFLIP == 0;
        yflip := YFLIP == 0;
      case _ =>
    }
  }
}
