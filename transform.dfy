/**
 * The arithmetic of a press: the noise check on repeated samples, the
 * exclusive calibration window, Arduino's `map` and `constrain`, the routing
 * and flipping of axes by orientation, the rotation table and the zone value.
 */
module Transform {
  import opened Calibration
  import opened Arith

  /** An unsigned 16-bit quantity. */
  type U16 = x: int | 0 <= x < 0x1_0000

  /** A 12-bit conversion result. */
  type Raw = x: int | 0 <= x < 4096

  /** The raw calibration window and the screen resolution in pixels. */
  datatype Window = Window(xmin: U16, xmax: U16, ymin: U16, ymax: U16, xres: U16, yres: U16)

  /**
   * The three orientation flags. When `axis` is false the raw X reading
   * feeds the y pixel and the raw Y reading the x pixel; when it is true
   * each feeds its own.
   */
  datatype Orientation = Orientation(axis: bool, xflip: bool, yflip: bool)

  datatype Pixel = Pixel(x: int, y: int)

  function Abs(x: int): nat
  {
    if x < 0 then -x else x
  }

  /** C integer division, which truncates toward zero. */
  function TruncDiv(a: int, b: int): int
    requires b != 0
  {
    if (a < 0) == (b < 0) then Abs(a) / Abs(b) else -(Abs(a) / Abs(b))
  }

  /** Dividing an exact multiple leaves no remainder to truncate. */
  lemma TruncDivExact(b: int, q: int)
    requires b != 0
    ensures TruncDiv(b * q, b) == q
  {
    var p := b * q;
    assert Abs(p) == Abs(b) * Abs(q) && (q != 0 ==> ((p < 0) == ((b < 0) != (q < 0)))) by {
      if b < 0 && q < 0 {
        assert p == (-b) * (-q);
      } else if b < 0 {
        assert -p == (-b) * q;
      } else if q < 0 {
        assert -p == b * (-q);
      }
    }
    DivMulUnique(Abs(p), Abs(b), Abs(q), 0);
  }

  /** Truncating division is odd in the dividend: negating it negates the quotient. */
  lemma TruncDivOdd(a: int, b: int)
    requires b != 0
    ensures TruncDiv(-a, b) == -TruncDiv(a, b)
  {
    assert Abs(-a) == Abs(a);
    if a == 0 {
      assert -a == 0;
    }
  }

  /** At the ends of the input range the product inside `map` is an exact multiple. */
  lemma MapEnds(x: int, inMin: int, inMax: int, outMin: int, outMax: int)
    requires inMax != inMin
    ensures x == inMin ==> TruncDiv((x - inMin) * (outMax - outMin), inMax - inMin) == 0
    ensures x == inMax ==> TruncDiv((x - inMin) * (outMax - outMin), inMax - inMin) == outMax - outMin
  {
    if x == inMin {
      assert (x - inMin) * (outMax - outMin) == 0;
    } else if x == inMax {
      TruncDivExact(inMax - inMin, outMax - outMin);
    }
  }

  /**
   * Arduino's `map`: linear re-scaling in `long` arithmetic with truncating
   * division. The ends of the input range go to the ends of the output range.
   */
  function Map(x: int, inMin: int, inMax: int, outMin: int, outMax: int): (m: int)
    requires inMax != inMin
    ensures x == inMin ==> m == outMin
    ensures x == inMax ==> m == outMax
  {
    MapEnds(x, inMin, inMax, outMin, outMax);
    TruncDiv((x - inMin) * (outMax - outMin), inMax - inMin) + outMin
  }

  /**
   * `map` rounds toward the start of the output range on both sides of the
   * input range's start: readings mirrored about `inMin` give outputs mirrored
   * about `outMin`, which rounding down would not.
   */
  lemma MapTruncates(x: int, inMin: int, inMax: int, outMin: int, outMax: int)
    requires inMax != inMin
    ensures Map(2 * inMin - x, inMin, inMax, outMin, outMax) - outMin
         == -(Map(x, inMin, inMax, outMin, outMax) - outMin)
  {
    var p := (x - inMin) * (outMax - outMin);
    assert (2 * inMin - x - inMin) * (outMax - outMin) == -p;
    TruncDivOdd(p, inMax - inMin);
  }

  /** Arduino's `constrain`. */
  function Constrain(x: int, low: int, high: int): (c: int)
    ensures low <= high ==> low <= c <= high
    ensures low <= x <= high ==> c == x
  {
    if x < low then low else if x > high then high else x
  }

  // Noise rejection.

  /** A later sample agrees with the first one of a press. */
  predicate Near(first: int, later: int)
  {
    Abs(first - later) <= RAWERR
  }

  /**
   * The six conversions of a press, in the order taken: X, Y, X, Y, X, Y.
   * The press is steady when every later sample is near the first sample of its axis.
   */
  predicate Steady(r: seq<int>)
    requires |r| == 6
  {
    Near(r[0], r[2]) && Near(r[1], r[3]) && Near(r[0], r[4]) && Near(r[1], r[5])
  }

  /** A press is steady exactly when every later sample is near the first sample of its axis. */
  lemma SteadyEveryLater(r: seq<int>)
    requires |r| == 6
    ensures Steady(r) <==> forall k :: 2 <= k < 6 ==> Near(r[k % 2], r[k])
  {
    if Steady(r) {
      forall k | 2 <= k < 6
        ensures Near(r[k % 2], r[k])
      {
        assert k == 2 || k == 3 || k == 4 || k == 5;
      }
    }
    assert 2 % 2 == 0 && 3 % 2 == 1 && 4 % 2 == 0 && 5 % 2 == 1;
  }

  /**
   * The check `abs(first - later) > RAWERR` where `abs` is a macro that
   * evaluates its argument twice: the sign is tested on the difference with
   * one conversion, `tested`, and the difference with the next, `returned`,
   * is what is compared.
   */
  function MacroAbs(first: int, tested: int, returned: int): int
  {
    if first - tested > 0 then first - returned else -(first - returned)
  }

  /** Under such a macro a re-read that strays far the other way passes the check. */
  lemma MacroAbsPassesStray()
    ensures !(MacroAbs(100, 99, 500) > RAWERR) && !Near(100, 500)
  {
  }

  /**
   * How many conversions a press takes: the checks run one after each later
   * sample, and the first failing check ends the press.
   */
  function FramesRead(r: seq<int>): (n: nat)
    requires |r| == 6
    ensures 3 <= n <= 6
    ensures n < 6 ==> !Steady(r)
  {
    if !Near(r[0], r[2]) then 3
    else if !Near(r[1], r[3]) then 4
    else if !Near(r[0], r[4]) then 5
    else 6
  }

  /**
   * Every check before the last conversion read passed, and the check on the
   * last one passed exactly when the whole press is steady.
   */
  lemma FramesReadStops(r: seq<int>)
    requires |r| == 6
    ensures var n := FramesRead(r);
      && (forall k :: 2 <= k < n - 1 ==> Near(r[k % 2], r[k]))
      && (Near(r[(n - 1) % 2], r[n - 1]) <==> Steady(r))
  {
  }

  // Calibration window and coordinate transform.

  /** Both raw values lie strictly inside the calibration window. */
  predicate InWindow(w: Window, xraw: int, yraw: int): (inside: bool)
    ensures inside ==> w.xmax - w.xmin >= 2 && w.ymax - w.ymin >= 2
  {
    (w.ymin < yraw < w.ymax) && (w.xmin < xraw < w.xmax)
  }

  /**
   * For a raw value strictly inside `(lo, hi)`, `map(raw, lo, hi, 0, res)`
   * is the interpolated pixel rounded down: at least 0, at most `res`, and
   * below `res` when the resolution is not zero.
   */
  lemma MapInWindow(raw: int, lo: int, hi: int, res: U16)
    requires lo < raw < hi
    ensures var m := Map(raw, lo, hi, 0, res);
      && 0 <= m <= res
      && m * (hi - lo) <= (raw - lo) * res < (m + 1) * (hi - lo)
      && (res > 0 ==> m < res)
  {
    var d, b := raw - lo, hi - lo;
    var a := d * res;
    MulMonotone(res, 0, d);
    MulMonotone(res, d, b);
    assert Map(raw, lo, hi, 0, res) == a / b;
    FloorDiv(a, b);
    DivBelow(a, b, res);
    if res > 0 {
      MulMonotone(res, d + 1, b);
    }
  }

  /**
   * `constrain(map(raw, lo, hi, 0, res), 0, res)` for a raw value strictly
   * inside `(lo, hi)`: the interpolated pixel rounded down, which `map`
   * already puts in `[0, res]`, so that `constrain` changes nothing.
   */
  function Scale(raw: int, lo: int, hi: int, res: U16): (s: int)
    requires lo < raw < hi
    ensures 0 <= s <= res
    ensures s * (hi - lo) <= (raw - lo) * res < (s + 1) * (hi - lo)
    ensures Map(raw, lo, hi, 0, res) == s
    ensures res > 0 ==> s < res
  {
    MapInWindow(raw, lo, hi, res);
    Constrain(Map(raw, lo, hi, 0, res), 0, res)
  }

  /** Arduino's `map` runs on 32-bit `long`: its intermediate product never overflows here. */
  lemma MapFitsInLong(raw: Raw, lo: U16, hi: U16, res: U16)
    requires lo < raw < hi
    ensures 0 <= (raw - lo) * (res - 0) < 0x8000_0000
  {
    MulMonotone(res, 0, raw - lo);
    MulMonotone(res, raw - lo, 4095);
    MulMonotone(4095, res, 0xFFFF);
    assert 4095 * 0xFFFF < 0x8000_0000;
  }

  /** The bound of the x pixel: the height when the axes are routed across, else the width. */
  function XBound(w: Window, o: Orientation): U16
  {
    if o.axis then w.xres else w.yres
  }

  /** The bound of the y pixel: the width when the axes are routed across, else the height. */
  function YBound(w: Window, o: Orientation): U16
  {
    if o.axis then w.yres else w.xres
  }

  /**
   * The pixel an accepted press reports: each raw value scaled onto the
   * resolution of the pixel it feeds, then mirrored as `bound - c` when
   * that pixel's flip is set.
   */
  function Place(xraw: int, yraw: int, w: Window, o: Orientation): (p: Pixel)
    requires InWindow(w, xraw, yraw)
    ensures 0 <= p.x <= XBound(w, o) && 0 <= p.y <= YBound(w, o)
  {
    if !o.axis then
      var y := Scale(xraw, w.xmin, w.xmax, w.xres);
      var x := Scale(yraw, w.ymin, w.ymax, w.yres);
      Pixel(if o.xflip then w.yres - x else x, if o.yflip then w.xres - y else y)
    else
      var x := Scale(xraw, w.xmin, w.xmax, w.xres);
      var y := Scale(yraw, w.ymin, w.ymax, w.yres);
      Pixel(if o.xflip then w.xres - x else x, if o.yflip then w.yres - y else y)
  }

  /** The reading of channel `channel` among a press's first two: channel 0 is sampled first, as X. */
  function ChannelReading(xraw: int, yraw: int, channel: bool): int
  {
    if channel then yraw else xraw
  }

  /**
   * The y pixel depends only on the reading of channel `o.axis`, and the x
   * pixel only on the reading of the other channel.
   */
  lemma PlaceByChannel(x1: int, y1: int, x2: int, y2: int, w: Window, o: Orientation)
    requires InWindow(w, x1, y1) && InWindow(w, x2, y2)
    ensures ChannelReading(x1, y1, o.axis) == ChannelReading(x2, y2, o.axis)
            ==> Place(x1, y1, w, o).y == Place(x2, y2, w, o).y
    ensures ChannelReading(x1, y1, !o.axis) == ChannelReading(x2, y2, !o.axis)
            ==> Place(x1, y1, w, o).x == Place(x2, y2, w, o).x
  {
  }

  /**
   * Which edge a coordinate can reach: an unflipped coordinate stays below
   * its bound and a flipped one above zero, so a coordinate equals its bound
   * only when it is flipped.
   */
  lemma PlaceEdges(xraw: int, yraw: int, w: Window, o: Orientation)
    requires InWindow(w, xraw, yraw)
    ensures var p := Place(xraw, yraw, w, o);
      && (XBound(w, o) > 0 ==> if o.xflip then 0 < p.x else p.x < XBound(w, o))
      && (YBound(w, o) > 0 ==> if o.yflip then 0 < p.y else p.y < YBound(w, o))
  {
  }

  /** The scaled value, before any flip, is monotone in the raw reading that feeds it. */
  lemma ScaleMonotone(r1: int, r2: int, lo: int, hi: int, res: U16)
    requires lo < r1 <= r2 < hi
    ensures Scale(r1, lo, hi, res) <= Scale(r2, lo, hi, res)
  {
    var s1, s2 := Scale(r1, lo, hi, res), Scale(r2, lo, hi, res);
    var p1, p2 := (r1 - lo) * res, (r2 - lo) * res;
    assert s1 * (hi - lo) <= p1;
    assert p2 < (s2 + 1) * (hi - lo);
    MulMonotone(res, r1 - lo, r2 - lo);
    assert p1 == res * (r1 - lo) && p2 == res * (r2 - lo);
    FloorMonotone(p1, p2, hi - lo, s1, s2);
  }

  // Rotation.

  /**
   * The orientation each rotation selects. Rotations 1 and 3 route the axes
   * across; the flips of rotations 0 and 3 (x) and 2 and 3 (y) invert the
   * configured defaults.
   */
  function Rotation(r: nat): (o: Orientation)
    requires r < 4
    ensures o.axis == (r % 2 == 0)
    ensures o.xflip == ((r == 0 || r == 3) != (XFLIP != 0))
    ensures o.yflip == ((r == 2 || r == 3) != (YFLIP != 0))
  {
    match r
    case 0 => Orientation(true, XFLIP == 0, YFLIP != 0)
    case 1 => Orientation(false, XFLIP != 0, YFLIP != 0)
    case 2 => Orientation(true, XFLIP != 0, YFLIP == 0)
    case 3 => Orientation(false, XFLIP == 0, YFLIP == 0)
  }

  /** Different rotations select different orientations. */
  lemma RotationInjective(r1: nat, r2: nat)
    requires r1 < 4 && r2 < 4
    ensures Rotation(r1) == Rotation(r2) <==> r1 == r2
  {
  }

  /** Turning the screen by half a turn keeps the routing and inverts both flips. */
  lemma RotationHalfTurn(r: nat)
    requires r < 4
    ensures var o := Rotation(r);
      Rotation((r + 2) % 4) == Orientation(o.axis, !o.xflip, !o.yflip)
  {
  }

  /** A touch seen at rotation `r` is seen mirrored on both axes at rotation `r + 2`. */
  lemma PlaceHalfTurn(xraw: int, yraw: int, w: Window, r: nat)
    requires r < 4 && InWindow(w, xraw, yraw)
    ensures var o, o' := Rotation(r), Rotation((r + 2) % 4);
      var p, p' := Place(xraw, yraw, w, o), Place(xraw, yraw, w, o');
      p' == Pixel(XBound(w, o) - p.x, YBound(w, o) - p.y)
  {
    RotationHalfTurn(r);
  }

  /** A flipped coordinate can reach its bound: at rotation 0 a touch at the left edge gives x pixel 320. */
  lemma FlippedReachesBound()
    ensures Place(1, 2048, DefaultWindow(), Rotation(0)).x == XBound(DefaultWindow(), Rotation(0)) == 320
  {
    var s := Scale(1, 0, 4095, 320);
    assert s * 4095 <= 320;
  }

  // Defaults.

  function DefaultWindow(): Window
  {
    Window(XMIN, XMAX, YMIN, YMAX, XRES, YRES)
  }

  /** A driver on the default window accepts raw values 1 to 4094 on each axis, and no other. */
  lemma DefaultWindowAccepts(xraw: Raw, yraw: Raw)
    ensures InWindow(DefaultWindow(), xraw, yraw) <==> 1 <= xraw <= 4094 && 1 <= yraw <= 4094
  {
  }

  /**
   * The default rotation routes the axes across without flips, and with the
   * default flips only the inverted entries of the table flip anything.
   */
  lemma DefaultOrientation(r: nat)
    requires r < 4
    ensures Rotation(ROTATION) == Orientation(false, false, false)
    ensures Rotation(r).xflip <==> r == 0 || r == 3
    ensures Rotation(r).yflip <==> r == 2 || r == 3
  {
  }

  // Zone.

  /**
   * `x + (uint32_t)y * xres`, computed modulo 2^32: with 16-bit operands
   * the sum never wraps.
   */
  function Zone(x: U16, y: U16, xres: U16): (z: nat)
    ensures z == x + y * xres
    ensures z < 0x1_0000_0000
  {
    ZoneFits(x, y, xres);
    (x + y * xres) % 0x1_0000_0000
  }

  lemma ZoneFits(x: U16, y: U16, xres: U16)
    ensures 0 <= x + y * xres < 0x1_0000_0000
  {
    MulMonotone(y, 0, xres);
    MulMonotone(y, xres, 0xFFFF);
    MulMonotone(0xFFFF, y, 0xFFFF);
    assert 0xFFFF + 0xFFFF * 0xFFFF < 0x1_0000_0000;
  }

  /** A zone gives back its pixel when the x pixel lies below the width. */
  lemma ZoneDecodes(x: U16, y: U16, xres: U16)
    requires x < xres
    ensures Zone(x, y, xres) / xres == y && Zone(x, y, xres) % xres == x
  {
    DivMulUnique(Zone(x, y, xres), xres, y, x);
  }

  /** Two pixels with x below the width share a zone only if they are the same pixel. */
  lemma ZoneInjective(x1: U16, y1: U16, x2: U16, y2: U16, xres: U16)
    requires x1 < xres && x2 < xres
    ensures Zone(x1, y1, xres) == Zone(x2, y2, xres) <==> x1 == x2 && y1 == y2
  {
    ZoneDecodes(x1, y1, xres);
    ZoneDecodes(x2, y2, xres);
  }

  /** An x pixel equal to the width, which a flip can produce, shares its zone with the next row. */
  lemma ZoneAtRightEdge(y: U16, xres: U16)
    requires y < 0xFFFF
    ensures Zone(xres, y, xres) == Zone(0, y + 1, xres)
  {
  }
}
