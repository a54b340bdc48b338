/**
 * The bit-banged serial link to the touch controller, as a sequence of pin
 * events. A conversion frame selects the chip, shifts out an 8-bit command
 * most significant bit first, gives one extra clock pulse, shifts in a 12-bit
 * result most significant bit first, gives three trailing pulses, then
 * deselects the chip and idles the data-in line low.
 */
module Protocol {
  import opened Bits

  /** The lines the driver drives; the controller's data output is only sampled. */
  datatype Line = ChipSelect | Clock | DataIn

  /** One pin operation: a level written to a line, or a sample of the data output. */
  datatype Event = Drive(line: Line, high: bool) | Sample(bit: bool)

  /** One clock pulse: high, then low. */
  const Pulse: seq<Event> := [Drive(Clock, true), Drive(Clock, false)]

  /** Each bit in turn written to the data-in line, followed by one clock pulse. */
  function Shift(bits: seq<bool>): (es: seq<Event>)
    ensures |es| == 3 * |bits|
  {
    if |bits| == 0 then []
    else Shift(bits[..|bits| - 1]) + [Drive(DataIn, bits[|bits| - 1])] + Pulse
  }

  /** Each bit in turn sampled from the data output, followed by one clock pulse. */
  function Capture(bits: seq<bool>): (es: seq<Event>)
    ensures |es| == 3 * |bits|
  {
    if |bits| == 0 then []
    else Capture(bits[..|bits| - 1]) + [Sample(bits[|bits| - 1])] + Pulse
  }

  lemma CaptureSnoc(bits: seq<bool>, b: bool)
    ensures Capture(bits + [b]) == Capture(bits) + ([Sample(b)] + Pulse)
  {
    assert (bits + [b])[..|bits|] == bits;
  }

  /**
   * The command byte that starts a conversion on one of the two channels:
   * the top bit set, channel field 1 or 5 in bits 6 to 4, the low four bits clear.
   */
  function Command(axis: bool): nat
  {
    if axis then 0x90 else 0xD0
  }

  /** The fields of the command byte, and the two channels' commands differ only in the channel field. */
  lemma CommandFields(axis: bool)
    ensures Command(axis) < 0x100
    ensures Command(axis) / 0x80 == 1
    ensures Command(axis) / 0x10 % 8 == if axis then 1 else 5
    ensures Command(axis) % 0x10 == 0
    ensures Command(true) != Command(false)
  {
  }

  /** Three trailing clock pulses, then the chip deselected and the data-in line idled low. */
  const Trailer: seq<Event> := Pulse + Pulse + Pulse + [Drive(ChipSelect, true), Drive(DataIn, false)]

  /**
   * One conversion of channel `axis` whose result bits, in the order read,
   * are `bits`: chip selected, command shifted out, one extra pulse, result
   * shifted in, trailer.
   */
  function AxisFrame(axis: bool, bits: seq<bool>): (es: seq<Event>)
    ensures |es| == 35 + 3 * |bits|
  {
    [Drive(ChipSelect, false)] + (Shift(Encode(Command(axis), 8)) + (Pulse + (Capture(bits) + Trailer)))
  }

  /** The frame as the pin helpers append it: one event or one pulse at a time. */
  lemma FrameAssembly(t: seq<Event>, axis: bool, bits: seq<bool>)
    ensures t + AxisFrame(axis, bits)
         == ((((((((t + [Drive(ChipSelect, false)]) + Shift(Encode(Command(axis), 8))) + Pulse)
              + Capture(bits)) + Pulse) + Pulse) + Pulse) + [Drive(ChipSelect, true)]) + [Drive(DataIn, false)]
  {
  }

  // The controller's view of the wire.

  /** The level of the data-in line at each rising clock edge, starting from level `din`. */
  function Latched(es: seq<Event>, din: bool): seq<bool>
  {
    if es == [] then []
    else
      match es[0]
      case Drive(DataIn, level) => Latched(es[1..], level)
      case Drive(Clock, true) => [din] + Latched(es[1..], din)
      case _ => Latched(es[1..], din)
  }

  /** The level of the data-in line after `es`, starting from level `din`. */
  function DinAfter(es: seq<Event>, din: bool): bool
  {
    if es == [] then din
    else
      match es[0]
      case Drive(DataIn, level) => DinAfter(es[1..], level)
      case _ => DinAfter(es[1..], din)
  }

  /** The bits sampled from the data output, in order. */
  function Sampled(es: seq<Event>): seq<bool>
  {
    if es == [] then []
    else (if es[0].Sample? then [es[0].bit] else []) + Sampled(es[1..])
  }

  predicate Selects(e: Event)
  {
    e.Drive? && e.line == ChipSelect
  }

  // The data output, as the sequence of levels it presents to successive samples.

  /** The `n` levels of the data output from sample number `at` on. */
  function DataBits(line: nat -> bool, at: nat, n: nat): (bits: seq<bool>)
    ensures |bits| == n
  {
    seq(n, i requires 0 <= i < n => line(at + i))
  }

  lemma DataBitsSnoc(line: nat -> bool, at: nat, n: nat)
    ensures DataBits(line, at, n + 1) == DataBits(line, at, n) + [line(at + n)]
    ensures DataBits(line, at, n + 1)[..n] == DataBits(line, at, n)
  {
  }

  /** The events of sampling `n` bits from sample `at` on, one clock pulse after each. */
  function Captured(line: nat -> bool, at: nat, n: nat): seq<Event>
  {
    if n == 0 then [] else (Captured(line, at, n - 1) + [Sample(line(at + n - 1))]) + Pulse
  }

  lemma {:induction false} CapturedBits(line: nat -> bool, at: nat, n: nat)
    ensures Captured(line, at, n) == Capture(DataBits(line, at, n))
  {
    if n > 0 {
      CapturedBits(line, at, n - 1);
      DataBitsSnoc(line, at, n - 1);
      CaptureSnoc(DataBits(line, at, n - 1), line(at + n - 1));
    }
  }

  /** The word read from the data line is the value of the bits sampled, in order. */
  lemma {:induction false} WordValue(line: nat -> bool, at: nat, n: nat)
    ensures Word(line, at, n) == Value(DataBits(line, at, n))
  {
    if n > 0 {
      WordValue(line, at, n - 1);
      DataBitsSnoc(line, at, n - 1);
      ValueSnoc(DataBits(line, at, n - 1), line(at + n - 1));
    }
  }

  /** The result of the 12-bit conversion read from sample number `at` on. */
  function Conversion(line: nat -> bool, at: nat): (r: nat)
    ensures r < 4096
  {
    WordBound(line, at, 12);
    Word(line, at, 12)
  }

  /** The `n`-bit number the data line carries, most significant bit first, from sample `at` on. */
  function Word(line: nat -> bool, at: nat, n: nat): nat
  {
    if n == 0 then 0 else 2 * Word(line, at, n - 1) + (if line(at + n - 1) then 1 else 0)
  }

  /**
   * What a shift-and-add reader holds after the first `k` of the bits:
   * each sampled 1 added at its weight, `2^i` for the last one taken.
   */
  function Held(line: nat -> bool, at: nat, k: nat, i: nat): nat
  {
    if k == 0 then 0 else Held(line, at, k - 1, i + 1) + (if line(at + k - 1) then Pow2(i) else 0)
  }

  /** The partial sum is the word read so far, shifted left by the bits still to come. */
  lemma {:induction false} HeldWord(line: nat -> bool, at: nat, k: nat, i: nat)
    ensures Held(line, at, k, i) == Word(line, at, k) * Pow2(i)
  {
    if k > 0 {
      HeldWord(line, at, k - 1, i + 1);
      AccumulateBit(Word(line, at, k - 1), if line(at + k - 1) then 1 else 0, i + 1);
    }
  }

  /** An `n`-bit word fits in `n` bits. */
  lemma {:induction false} WordBound(line: nat -> bool, at: nat, n: nat)
    ensures Word(line, at, n) < Pow2(n)
  {
    if n > 0 {
      WordBound(line, at, n - 1);
    }
  }

  /** The results of six consecutive conversions from sample number `at` on. */
  function Readings(line: nat -> bool, at: nat): seq<int>
  {
    [Conversion(line, at), Conversion(line, at + 12), Conversion(line, at + 24),
     Conversion(line, at + 36), Conversion(line, at + 48), Conversion(line, at + 60)]
  }

  /**
   * `n` consecutive conversions from sample number `at` on, alternating
   * channel 0 and channel 1, starting with channel 0.
   */
  function Frames(line: nat -> bool, at: nat, n: nat): (es: seq<Event>)
    ensures |es| == 71 * n
  {
    if n == 0 then []
    else Frames(line, at, n - 1) + AxisFrame((n - 1) % 2 == 1, DataBits(line, at + 12 * (n - 1), 12))
  }

  /** Reading one more frame after `n` appends the frame of the next conversion. */
  lemma FramesStep(line: nat -> bool, at: nat, n: nat, before: seq<Event>)
    ensures before + Frames(line, at, n + 1)
         == (before + Frames(line, at, n)) + AxisFrame(n % 2 == 1, DataBits(line, at + 12 * n, 12))
    ensures before + Frames(line, at, 0) == before
  {
  }

  // Properties of the frame.

  lemma {:induction false} LatchedAppend(a: seq<Event>, b: seq<Event>, din: bool)
    ensures Latched(a + b, din) == Latched(a, din) + Latched(b, DinAfter(a, din))
    ensures DinAfter(a + b, din) == DinAfter(b, DinAfter(a, din))
  {
    if a != [] {
      assert (a + b)[0] == a[0];
      assert (a + b)[1..] == a[1..] + b;
      match a[0]
      case Drive(DataIn, level) =>
        LatchedAppend(a[1..], b, level);
      case Drive(Clock, true) =>
        LatchedAppend(a[1..], b, din);
      case _ =>
        LatchedAppend(a[1..], b, din);
    } else {
      assert a + b == b;
    }
  }

  lemma {:induction false} SampledAppend(a: seq<Event>, b: seq<Event>)
    ensures Sampled(a + b) == Sampled(a) + Sampled(b)
  {
    if a != [] {
      assert (a + b)[0] == a[0];
      assert (a + b)[1..] == a[1..] + b;
      SampledAppend(a[1..], b);
    } else {
      assert a + b == b;
    }
  }

  /** The controller latches exactly the bits shifted out, one per rising clock edge. */
  lemma {:induction false} ShiftLatched(bits: seq<bool>, din: bool)
    ensures Latched(Shift(bits), din) == bits
    ensures DinAfter(Shift(bits), din) == if bits == [] then din else bits[|bits| - 1]
    ensures Sampled(Shift(bits)) == []
  {
    if bits != [] {
      var init, last := bits[..|bits| - 1], bits[|bits| - 1];
      var tail := [Drive(DataIn, last)] + Pulse;
      ShiftLatched(init, din);
      assert Shift(bits) == Shift(init) + tail;
      LatchedAppend(Shift(init), tail, din);
      SampledAppend(Shift(init), tail);
      assert bits == init + [last];
    }
  }

  /** Reading bits leaves the data-in line alone: each rising edge latches its current level. */
  lemma {:induction false} CaptureLatched(bits: seq<bool>, din: bool)
    ensures Latched(Capture(bits), din) == seq(|bits|, i => din)
    ensures DinAfter(Capture(bits), din) == din
    ensures Sampled(Capture(bits)) == bits
  {
    if bits != [] {
      var init, last := bits[..|bits| - 1], bits[|bits| - 1];
      var tail := [Sample(last)] + Pulse;
      CaptureLatched(init, din);
      assert Capture(bits) == Capture(init) + tail;
      LatchedAppend(Capture(init), tail, din);
      SampledAppend(Capture(init), tail);
      assert bits == init + [last];
    }
  }

  /** The trailer latches a low data-in line three times and samples nothing. */
  lemma TrailerOnTheWire()
    ensures Latched(Trailer, false) == [false, false, false]
    ensures Sampled(Trailer) == []
  {
    var end := [Drive(ChipSelect, true), Drive(DataIn, false)];
    assert Trailer == Pulse + (Pulse + (Pulse + end));
    assert Latched(Pulse, false) == [false] && DinAfter(Pulse, false) == false && Sampled(Pulse) == [];
    assert Latched(end, false) == [] && Sampled(end) == [];
    LatchedAppend(Pulse, end, false);
    LatchedAppend(Pulse, Pulse + end, false);
    LatchedAppend(Pulse, Pulse + (Pulse + end), false);
    SampledAppend(Pulse, end);
    SampledAppend(Pulse, Pulse + end);
    SampledAppend(Pulse, Pulse + (Pulse + end));
  }

  /**
   * What a frame latches: the command bits, then the last command bit held
   * through the extra pulse, the result and the trailer.
   */
  lemma FrameLatched(cmd: seq<bool>, bits: seq<bool>, din: bool)
    requires |cmd| > 0 && !cmd[|cmd| - 1]
    ensures Latched([Drive(ChipSelect, false)] + (Shift(cmd) + (Pulse + (Capture(bits) + Trailer))), din)
         == cmd + seq(|bits| + 4, i => false)
  {
    var head := [Drive(ChipSelect, false)];
    var rest := Pulse + (Capture(bits) + Trailer);
    TrailerOnTheWire();
    CaptureLatched(bits, false);
    LatchedAppend(Capture(bits), Trailer, false);
    assert Latched(Capture(bits) + Trailer, false) == seq(|bits| + 3, i => false);
    assert Latched(Pulse, false) == [false] && DinAfter(Pulse, false) == false;
    LatchedAppend(Pulse, Capture(bits) + Trailer, false);
    assert Latched(rest, false) == seq(|bits| + 4, i => false);
    ShiftLatched(cmd, din);
    LatchedAppend(Shift(cmd), rest, din);
    assert Latched(head, din) == [] && DinAfter(head, din) == din;
    LatchedAppend(head, Shift(cmd) + rest, din);
  }

  /**
   * A conversion frame has 24 rising clock edges: the first 8 latch the
   * command byte most significant bit first, and the data-in line stays low
   * for the other 16.
   */
  lemma FrameClocks(axis: bool, bits: seq<bool>, din: bool)
    requires |bits| == 12
    ensures Latched(AxisFrame(axis, bits), din) == Encode(Command(axis), 8) + seq(16, i => false)
    ensures |Latched(AxisFrame(axis, bits), din)| == 24
    ensures Value(Latched(AxisFrame(axis, bits), din)[..8]) == Command(axis)
  {
    var cmd := Encode(Command(axis), 8);
    assert cmd[7] == Bit(Command(axis), 0);
    assert Pow2(0) == 1;
    FrameLatched(cmd, bits, din);
    assert Pow2(8) == 256;
    RoundTrip(Command(axis), 8);
    assert (cmd + seq(16, i => false))[..8] == cmd;
  }

  /** The samples a conversion frame takes are exactly its result bits, in order. */
  lemma FrameSamples(axis: bool, bits: seq<bool>)
    ensures Sampled(AxisFrame(axis, bits)) == bits
  {
    var cmd := Encode(Command(axis), 8);
    var head := [Drive(ChipSelect, false)];
    TrailerOnTheWire();
    ShiftLatched(cmd, false);
    CaptureLatched(bits, false);
    assert Sampled(Pulse) == [] && Sampled(head) == [];
    SampledAppend(Capture(bits), Trailer);
    SampledAppend(Pulse, Capture(bits) + Trailer);
    SampledAppend(Shift(cmd), Pulse + (Capture(bits) + Trailer));
    SampledAppend(head, Shift(cmd) + (Pulse + (Capture(bits) + Trailer)));
  }

  lemma {:induction false} ShiftSelectsNothing(bits: seq<bool>)
    ensures forall i :: 0 <= i < |Shift(bits)| ==> !Selects(Shift(bits)[i])
  {
    if bits != [] {
      ShiftSelectsNothing(bits[..|bits| - 1]);
    }
  }

  lemma {:induction false} CaptureSelectsNothing(bits: seq<bool>)
    ensures forall i :: 0 <= i < |Capture(bits)| ==> !Selects(Capture(bits)[i])
  {
    if bits != [] {
      CaptureSelectsNothing(bits[..|bits| - 1]);
    }
  }

  /**
   * A frame starts by selecting the chip, keeps it selected throughout, and
   * ends by deselecting it and setting the data-in line low.
   */
  lemma FrameSelection(axis: bool, bits: seq<bool>)
    ensures var f := AxisFrame(axis, bits);
      && f[0] == Drive(ChipSelect, false)
      && f[|f| - 2] == Drive(ChipSelect, true)
      && f[|f| - 1] == Drive(DataIn, false)
      && forall i :: 0 < i < |f| - 2 ==> !Selects(f[i])
  {
    ShiftSelectsNothing(Encode(Command(axis), 8));
    CaptureSelectsNothing(bits);
  }

  /**
   * The result of a conversion is the value, most significant bit first, of
   * the bits its frame samples: decoding the frame recovers what was read.
   */
  lemma ConversionOnTheWire(line: nat -> bool, at: nat, axis: bool)
    ensures Value(Sampled(AxisFrame(axis, DataBits(line, at, 12)))) == Conversion(line, at)
  {
    FrameSamples(axis, DataBits(line, at, 12));
    WordValue(line, at, 12);
  }
}
