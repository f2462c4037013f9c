/** The VIS header (src/core/vis.cpp): seven data bits, least significant first, and even
    parity, framed by leader, break and stop tones. */
module Vis {
  import opened Arithmetic
  import opened Timing
  import opened Tone
  import opened TimingGrid

  const BIT_ONE_HZ: real := 1100.0
  const BIT_ZERO_HZ: real := 1300.0
  const LEADER_HZ: real := 1900.0
  const SYNC_HZ: real := 1200.0

  // -------------------------------------------------------------------------- bits

  function Mask(i: nat): bv8
    requires i < 8
  {
    match i
    case 0 => 0x01
    case 1 => 0x02
    case 2 => 0x04
    case 3 => 0x08
    case 4 => 0x10
    case 5 => 0x20
    case 6 => 0x40
    case 7 => 0x80
  }

  predicate TestBit(code: bv8, i: nat)
    requires i < 8
  {
    code & Mask(i) != 0
  }

  /** The bits below a position. */
  function Low(code: bv8, n: nat): bv8
    requires n <= 8
  {
    if n == 8 then code else code & (Mask(n) - 1)
  }

  lemma LowStep(code: bv8, n: nat)
    requires n < 8
    ensures Low(code, n + 1) == Low(code, n) | (if TestBit(code, n) then Mask(n) else 0)
  {
  }

  lemma LowNothing(code: bv8)
    ensures Low(code, 0) == 0
  {
  }

  /** A code from its bits, least significant first. */
  function CodeOf(bits: seq<bool>): bv8
    requires |bits| <= 8
  {
    if bits == [] then 0
    else CodeOf(bits[..|bits| - 1]) | (if bits[|bits| - 1] then Mask(|bits| - 1) else 0)
  }

  function BitsOf(code: bv8, n: nat): (bits: seq<bool>)
    requires n <= 8
    ensures |bits| == n
  {
    seq(n, i requires 0 <= i < n => TestBit(code, i))
  }

  lemma {:induction false} BitsDetermineCode(code: bv8, n: nat)
    requires n <= 8
    ensures CodeOf(BitsOf(code, n)) == Low(code, n)
  {
    hide Low, TestBit, Mask;
    if n == 0 {
      LowNothing(code);
    } else {
      BitsDetermineCode(code, n - 1);
      LowStep(code, n - 1);
      assert BitsOf(code, n)[..n - 1] == BitsOf(code, n - 1);
    }
  }

  function Ones(bits: seq<bool>): nat {
    if bits == [] then 0 else Ones(bits[..|bits| - 1]) + if bits[|bits| - 1] then 1 else 0
  }

  function VisBits(code: bv8): (bits: seq<bool>)
    ensures |bits| == 8
  {
    var data := BitsOf(code, 7);
    data + [Ones(data) % 2 != 0]
  }

  lemma ParityIsEven(code: bv8)
    ensures Ones(VisBits(code)) % 2 == 0
  {
    var data := BitsOf(code, 7);
    assert VisBits(code)[..7] == data;
  }

  method MakeVisBits(code: bv8) returns (result: Checked<seq<bool>>)
    ensures result == if code > 0x7F then InvalidArgument else Exact(VisBits(code))
  {
    hide TestBit, Mask;
    if code > 0x7F {
      return InvalidArgument;
    }
    var bits := new bool[8](_ => false);
    var ones := 0;
    for index := 0 to 7
      invariant bits[..index] == BitsOf(code, 7)[..index] && ones == Ones(bits[..index])
    {
      bits[index] := TestBit(code, index);
      ones := ones + if bits[index] then 1 else 0;
      assert bits[..index + 1][..index] == bits[..index];
    }
    bits[7] := ones % 2 != 0;
    assert bits[..7] == BitsOf(code, 7);
    assert bits[..] == bits[..7] + [bits[7]];
    result := Exact(bits[..]);
  }

  // ------------------------------------------------------------------------ header

  /** A duration of whole microseconds. */
  function Micro(microseconds: nat): (d: Duration)
    requires 10 * microseconds < WORD
    ensures OnGrid(d) && Units(d) == 10 * microseconds
    ensures microseconds > 0 ==> d.numerator > 0
  {
    Microseconds(microseconds);
    FromMicroseconds(microseconds).value
  }

  function MicroTone(microseconds: nat, frequency: real, amplitude: real): (e: ToneEvent)
    requires 0 < 10 * microseconds < WORD && frequency > 0.0 && 0.0 <= amplitude <= 1.0
    ensures ValidEvent(e) && OnGrid(e.duration) && Units(e.duration) == 10 * microseconds
    ensures e.frequency == frequency && e.amplitude == amplitude
  {
    ToneEvent(Micro(microseconds), frequency, amplitude)
  }

  function VisFrequency(bit: bool): real {
    if bit then BIT_ONE_HZ else BIT_ZERO_HZ
  }

  function BitTones(bits: seq<bool>, amplitude: real): (events: seq<ToneEvent>)
    requires 0.0 <= amplitude <= 1.0
    ensures |events| == |bits| && EventsOnGrid(events)
    ensures forall i :: 0 <= i < |bits| ==> Units(events[i].duration) == 300_000 && events[i].frequency == VisFrequency(bits[i])
    ensures forall i :: 0 <= i < |bits| ==> events[i].amplitude == amplitude
  {
    seq(|bits|, i requires 0 <= i < |bits| => MicroTone(30_000, VisFrequency(bits[i]), amplitude))
  }

  function VisHeader(code: bv8, amplitude: real): (events: seq<ToneEvent>)
    requires 0.0 <= amplitude <= 1.0
    ensures |events| == 13 && EventsOnGrid(events)
  {
    [MicroTone(300_000, LEADER_HZ, amplitude), MicroTone(10_000, SYNC_HZ, amplitude), MicroTone(300_000, LEADER_HZ, amplitude),
     MicroTone(30_000, SYNC_HZ, amplitude)]
    + BitTones(VisBits(code), amplitude)
    + [MicroTone(30_000, SYNC_HZ, amplitude)]
  }

  function MakeVisHeader(code: bv8, amplitude: real): Checked<seq<ToneEvent>> {
    if code > 0x7F || amplitude < 0.0 || amplitude > 1.0 then InvalidArgument else Exact(VisHeader(code, amplitude))
  }

  /** What a receiver reads from the eight bit intervals of a header. */
  function HeardBits(header: seq<ToneEvent>): (bits: seq<bool>)
    requires |header| == 13
    ensures |bits| == 8
  {
    seq(8, i requires 0 <= i < 8 => header[4 + i].frequency == BIT_ONE_HZ)
  }

  /** A receiver hears even parity and the code; no two codes share a header. */
  lemma VisRoundTrip(code: bv8, amplitude: real)
    requires code <= 0x7F && 0.0 <= amplitude <= 1.0
    ensures var bits := HeardBits(VisHeader(code, amplitude)); CodeOf(bits[..7]) == code && Ones(bits) % 2 == 0
  {
    var header := VisHeader(code, amplitude);
    assert HeardBits(header) == VisBits(code) by {
      hide TestBit, Mask;
      forall i | 0 <= i < 8 ensures HeardBits(header)[i] == VisBits(code)[i] {
        assert header[4 + i] == BitTones(VisBits(code), amplitude)[i];
      }
    }
    ParityIsEven(code);
    assert VisBits(code)[..7] == BitsOf(code, 7);
    BitsDetermineCode(code, 7);
  }

  /** Every header lasts 910 milliseconds. */
  lemma VisUnits(code: bv8, amplitude: real)
    requires 0.0 <= amplitude <= 1.0
    ensures TotalUnits(VisHeader(code, amplitude)) == 9_100_000
  {
    hide Units, OnGrid, TestBit, Mask, VisBits;
    var bits := BitTones(VisBits(code), amplitude);
    var a, b := MicroTone(300_000, LEADER_HZ, amplitude), MicroTone(10_000, SYNC_HZ, amplitude);
    var c := MicroTone(30_000, SYNC_HZ, amplitude);
    UniformUnits(bits, 300_000);
    OneUnit(a);
    OneUnit(b);
    OneUnit(c);
    UnitsConcat([a], [b]);
    UnitsConcat([a] + [b], [a]);
    UnitsConcat([a] + [b] + [a], [c]);
    UnitsConcat([a] + [b] + [a] + [c], bits);
    UnitsConcat([a] + [b] + [a] + [c] + bits, [c]);
    assert VisHeader(code, amplitude) == [a] + [b] + [a] + [c] + bits + [c];
  }

  lemma OneUnit(e: ToneEvent)
    requires ValidEvent(e) && OnGrid(e.duration)
    ensures EventsOnGrid([e]) && TotalUnits([e]) == Units(e.duration)
  {
    assert [e][..0] == [];
  }
}
