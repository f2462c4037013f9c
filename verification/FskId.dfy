/** The FSK identifier suffix (src/core/fsk_id.cpp): six-bit codes, least significant bit
    first, between a leader and an end code with checksum. */
module FskId {
  import opened Timing
  import opened Tone
  import opened ToneRenderer
  import opened TimingGrid
  import opened Vis

  const LEADER_FREQUENCY: real := 1500.0
  const MARK_FREQUENCY: real := 1900.0
  const SPACE_FREQUENCY: real := 2100.0
  const HEADER_CODE: bv8 := 0x2A
  const END_CODE: bv8 := 0x01
  const MAXIMUM_LENGTH: nat := 9

  // -------------------------------------------------------------------- identifiers

  datatype FskIdResult =
    | Identifier(value: seq<bv8>)
    | EmptyIdentifier
    | TooLong
    | UnsupportedCharacter(position: nat)

  function UpperCase(c: bv8): bv8 {
    if 0x61 <= c <= 0x7A then c - 0x20 else c
  }

  predicate Supported(c: bv8) {
    0x20 <= UpperCase(c) <= 0x5F
  }

  function Upper(value: seq<bv8>): (upper: seq<bv8>)
    ensures |upper| == |value|
  {
    seq(|value|, i requires 0 <= i < |value| => UpperCase(value[i]))
  }

  predicate AllSupported(value: seq<bv8>) {
    forall i :: 0 <= i < |value| ==> Supported(value[i])
  }

  predicate AllSpaces(value: seq<bv8>) {
    forall i :: 0 <= i < |value| ==> value[i] == 0x20
  }

  method Validate(value: seq<bv8>) returns (result: FskIdResult)
    ensures result.Identifier? <==> 0 < |value| <= MAXIMUM_LENGTH && AllSupported(value) && !AllSpaces(value)
    ensures result.Identifier? ==> result.value == Upper(value)
    ensures result.TooLong? <==> |value| > MAXIMUM_LENGTH
    ensures result.UnsupportedCharacter? <==> |value| <= MAXIMUM_LENGTH && !AllSupported(value)
    ensures result.UnsupportedCharacter? ==>
              result.position < |value| && !Supported(value[result.position]) && AllSupported(value[..result.position])
  {
    if value == [] {
      return EmptyIdentifier;
    }
    if |value| > MAXIMUM_LENGTH {
      return TooLong;
    }
    var normalized: seq<bv8> := [];
    var hasNonSpace := false;
    for index := 0 to |value|
      invariant AllSupported(value[..index]) && normalized == Upper(value)[..index]
      invariant hasNonSpace <==> !AllSpaces(value[..index])
    {
      var character := value[index];
      if 0x61 <= character && character <= 0x7A {
        character := character - 0x20;
      }
      if character < 0x20 || character > 0x5F {
        return UnsupportedCharacter(index);
      }
      assert character == UpperCase(value[index]);
      UpperSpace(value[index]);
      hasNonSpace := hasNonSpace || character != 0x20;
      normalized := normalized + [character];
      assert value[..index + 1] == value[..index] + [value[index]];
    }
    assert value[..|value|] == value;
    if !hasNonSpace {
      return EmptyIdentifier;
    }
    result := Identifier(normalized);
  }

  lemma UpperSpace(c: bv8)
    ensures UpperCase(c) == 0x20 <==> c == 0x20
  {
  }

  /** A validated identifier validates as itself. */
  lemma UpperIsFixed(value: seq<bv8>)
    requires AllSupported(value)
    ensures AllSupported(Upper(value)) && Upper(Upper(value)) == Upper(value)
    ensures AllSpaces(Upper(value)) <==> AllSpaces(value)
  {
    forall i | 0 <= i < |value|
      ensures Supported(Upper(value)[i]) && UpperCase(Upper(value)[i]) == Upper(value)[i]
      ensures Upper(value)[i] == 0x20 <==> value[i] == 0x20
    {
      assert Supported(value[i]);
      UpperTwice(value[i]);
      UpperSpace(value[i]);
    }
  }

  lemma UpperTwice(c: bv8)
    requires Supported(c)
    ensures UpperCase(UpperCase(c)) == UpperCase(c) && Supported(UpperCase(c))
  {
  }

  // --------------------------------------------------------------------------- codes

  /** Characters of a validated identifier. */
  predicate Normalized(identifier: seq<bv8>) {
    0 < |identifier| <= MAXIMUM_LENGTH && forall i :: 0 <= i < |identifier| ==> 0x20 <= identifier[i] <= 0x5F
  }

  function CharacterCodes(identifier: seq<bv8>): (codes: seq<bv8>)
    requires Normalized(identifier)
    ensures |codes| == |identifier|
  {
    seq(|identifier|, i requires 0 <= i < |identifier| => identifier[i] - 0x20)
  }

  function Checksum(codes: seq<bv8>): bv8 {
    if codes == [] then 0 else Xor(Checksum(codes[..|codes| - 1]), codes[|codes| - 1])
  }

  function Xor(a: bv8, b: bv8): bv8 {
    a ^ b
  }

  function AllCodes(identifier: seq<bv8>): (codes: seq<bv8>)
    requires Normalized(identifier)
    ensures |codes| == |identifier| + 3
  {
    [HEADER_CODE] + CharacterCodes(identifier) + [END_CODE, Checksum(CharacterCodes(identifier)) & 0x3F]
  }

  function BitTone(bit: bool, amplitude: real): (e: ToneEvent)
    requires 0.0 <= amplitude <= 1.0
    ensures ValidEvent(e) && OnGrid(e.duration) && Units(e.duration) == 220_000
  {
    MicroTone(22_000, if bit then MARK_FREQUENCY else SPACE_FREQUENCY, amplitude)
  }

  function CodeTones(code: bv8, amplitude: real): (events: seq<ToneEvent>)
    requires 0.0 <= amplitude <= 1.0
    ensures |events| == 6 && EventsOnGrid(events)
    ensures forall i :: 0 <= i < 6 ==> events[i] == BitTone(TestBit(code, i), amplitude)
  {
    seq(6, i requires 0 <= i < 6 => BitTone(TestBit(code, i), amplitude))
  }

  function CodesTones(codes: seq<bv8>, amplitude: real): (events: seq<ToneEvent>)
    requires 0.0 <= amplitude <= 1.0
    ensures |events| == 6 * |codes| && EventsOnGrid(events)
  {
    if codes == [] then [] else CodesTones(codes[..|codes| - 1], amplitude) + CodeTones(codes[|codes| - 1], amplitude)
  }

  function Leader(amplitude: real): (events: seq<ToneEvent>)
    requires 0.0 <= amplitude <= 1.0
    ensures |events| == 3 && EventsOnGrid(events)
  {
    [MicroTone(300_000, LEADER_FREQUENCY, amplitude), MicroTone(100_000, SPACE_FREQUENCY, amplitude),
     MicroTone(22_000, MARK_FREQUENCY, amplitude)]
  }

  function Suffix(identifier: seq<bv8>, amplitude: real): (events: seq<ToneEvent>)
    requires Normalized(identifier) && 0.0 <= amplitude <= 1.0
    ensures EventsOnGrid(events)
  {
    Leader(amplitude) + CodesTones(AllCodes(identifier), amplitude) + [MicroTone(100_000, MARK_FREQUENCY, amplitude)]
  }

  /** One more code. */
  lemma CodesSnoc(codes: seq<bv8>, code: bv8, amplitude: real)
    requires 0.0 <= amplitude <= 1.0
    ensures CodesTones(codes + [code], amplitude) == CodesTones(codes, amplitude) + CodeTones(code, amplitude)
    ensures Checksum(codes + [code]) == Xor(Checksum(codes), code)
  {
    assert (codes + [code])[..|codes|] == codes;
  }

  method AppendCode(events: seq<ToneEvent>, code: bv8, amplitude: real) returns (appended: seq<ToneEvent>)
    requires 0.0 <= amplitude <= 1.0
    ensures appended == events + CodeTones(code, amplitude)
  {
    hide TestBit, BitTone;
    appended := events;
    for bit := 0 to 6
      invariant appended == events + CodeTones(code, amplitude)[..bit]
    {
      appended := appended + [BitTone(TestBit(code, bit), amplitude)];
    }
    assert CodeTones(code, amplitude)[..6] == CodeTones(code, amplitude);
  }

  /** Continues a suffix of which some codes were sent. */
  method SendCode(events: seq<ToneEvent>, ghost leader: seq<ToneEvent>, ghost sent: seq<bv8>, code: bv8, amplitude: real)
    returns (appended: seq<ToneEvent>)
    requires 0.0 <= amplitude <= 1.0 && events == leader + CodesTones(sent, amplitude)
    ensures appended == leader + CodesTones(sent + [code], amplitude)
  {
    hide CodeTones, CodesTones, EventsOnGrid;
    appended := AppendCode(events, code, amplitude);
    CodesSnoc(sent, code, amplitude);
    Associate(leader, CodesTones(sent, amplitude), CodeTones(code, amplitude));
  }

  method Generate(identifier: seq<bv8>, amplitude: real) returns (events: seq<ToneEvent>, duration: Checked<Duration>)
    requires Normalized(identifier) && 0.0 <= amplitude <= 1.0
    ensures events == Suffix(identifier, amplitude) && |events| == 6 * |identifier| + 22
    ensures duration == TotalDuration(events)
  {
    hide CodesTones, Micro, Units, EventsOnGrid, ValidEvents, OnGrid, Normal, Checksum, Xor, TotalDuration;
    var leader := Leader(amplitude);
    NoCodes(amplitude);
    events := SendCode(leader, leader, [], HEADER_CODE, amplitude);
    assert [] + [HEADER_CODE] == [HEADER_CODE];
    ghost var codes := CharacterCodes(identifier);
    assert [HEADER_CODE] + codes[..0] == [HEADER_CODE];
    var checksum: bv8 := 0;
    for i := 0 to |identifier|
      invariant events == leader + CodesTones([HEADER_CODE] + codes[..i], amplitude)
      invariant checksum == Checksum(codes[..i])
    {
      var code := identifier[i] - 0x20;
      events := SendCode(events, leader, [HEADER_CODE] + codes[..i], code, amplitude);
      checksum := Xor(checksum, code);
      CodesSnoc(codes[..i], code, amplitude);
      assert codes[..i + 1] == codes[..i] + [code];
      assert [HEADER_CODE] + codes[..i] + [code] == [HEADER_CODE] + codes[..i + 1];
    }
    assert codes[..|identifier|] == codes;
    events := SendCode(events, leader, [HEADER_CODE] + codes, END_CODE, amplitude);
    events := SendCode(events, leader, [HEADER_CODE] + codes + [END_CODE], checksum & 0x3F, amplitude);
    assert [HEADER_CODE] + codes + [END_CODE] + [checksum & 0x3F] == AllCodes(identifier);
    events := events + [MicroTone(100_000, MARK_FREQUENCY, amplitude)];
    SuffixValid(identifier, amplitude);
    duration := AddUp(events);
  }

  lemma SuffixValid(identifier: seq<bv8>, amplitude: real)
    requires Normalized(identifier) && 0.0 <= amplitude <= 1.0
    ensures ValidEvents(Suffix(identifier, amplitude))
  {
  }

  lemma NoCodes(amplitude: real)
    requires 0.0 <= amplitude <= 1.0
    ensures CodesTones([], amplitude) == [] && Checksum([]) == 0
  {
  }

  /** The running sum at the end of the generator. */
  method AddUp(events: seq<ToneEvent>) returns (duration: Checked<Duration>)
    requires ValidEvents(events)
    ensures duration == TotalDuration(events)
  {
    hide Plus;
    duration := Exact(Duration(0, 1));
    for i := 0 to |events|
      invariant duration == TotalDuration(events[..i])
    {
      PrefixDuration(events, i);
      if !duration.Exact? {
        RestFails(events, i);
        return;
      }
      duration := Plus(duration.value, events[i].duration);
    }
    assert events[..|events|] == events;
  }

  // ------------------------------------------------------------------- the receiver

  /** The k-th code that a receiver hears, six bit intervals at a time. */
  function HeardCode(events: seq<ToneEvent>, start: nat): bv8
    requires start + 6 <= |events|
  {
    CodeOf(HeardBits(events[start..start + 6]))
  }

  function HeardBits(tones: seq<ToneEvent>): (bits: seq<bool>)
    requires |tones| == 6
    ensures |bits| == 6
  {
    seq(6, i requires 0 <= i < 6 => tones[i].frequency == MARK_FREQUENCY)
  }

  lemma CodeIsHeard(code: bv8, amplitude: real)
    requires code <= 0x3F && 0.0 <= amplitude <= 1.0
    ensures HeardCode(CodeTones(code, amplitude), 0) == code
  {
    var events := CodeTones(code, amplitude);
    assert events[0..6] == events;
    assert HeardBits(events) == BitsOf(code, 6) by {
      hide TestBit, Mask;
    }
    BitsDetermineCode(code, 6);
  }

  lemma {:induction false} CodesAreHeard(codes: seq<bv8>, amplitude: real, k: nat)
    requires 0.0 <= amplitude <= 1.0 && k < |codes| && forall i :: 0 <= i < |codes| ==> codes[i] <= 0x3F
    ensures HeardCode(CodesTones(codes, amplitude), 6 * k) == codes[k]
    decreases |codes|
  {
    hide CodeTones, EventsOnGrid, CodeOf;
    var prior, last := codes[..|codes| - 1], codes[|codes| - 1];
    var events := CodesTones(codes, amplitude);
    if k < |codes| - 1 {
      CodesAreHeard(prior, amplitude, k);
      HeardInside(events, 6 * k, CodesTones(prior, amplitude), 6 * k);
    } else {
      CodeIsHeard(last, amplitude);
      HeardInside(events, 6 * k, CodeTones(last, amplitude), 0);
    }
  }

  /** The same six tones are the same code wherever they stand. */
  lemma HeardInside(a: seq<ToneEvent>, i: nat, b: seq<ToneEvent>, j: nat)
    requires i + 6 <= |a| && j + 6 <= |b| && a[i..i + 6] == b[j..j + 6]
    ensures HeardCode(a, i) == HeardCode(b, j)
  {
  }

  lemma {:induction false} ChecksumInRange(codes: seq<bv8>)
    requires forall i :: 0 <= i < |codes| ==> codes[i] <= 0x3F
    ensures Checksum(codes) <= 0x3F
  {
    if codes != [] {
      ChecksumInRange(codes[..|codes| - 1]);
      XorInRange(Checksum(codes[..|codes| - 1]), codes[|codes| - 1]);
    }
  }

  lemma XorInRange(a: bv8, b: bv8)
    requires a <= 0x3F && b <= 0x3F
    ensures Xor(a, b) <= 0x3F
  {
  }

  lemma CodesInRange(identifier: seq<bv8>)
    requires Normalized(identifier)
    ensures forall i :: 0 <= i < |identifier| + 3 ==> AllCodes(identifier)[i] <= 0x3F
  {
    forall i | 0 <= i < |identifier| ensures CharacterCodes(identifier)[i] <= 0x3F {
      OffsetInRange(identifier[i]);
    }
    ChecksumInRange(CharacterCodes(identifier));
    MaskInRange(Checksum(CharacterCodes(identifier)));
  }

  lemma OffsetInRange(c: bv8)
    requires 0x20 <= c <= 0x5F
    ensures c - 0x20 <= 0x3F && c - 0x20 + 0x20 == c
  {
  }

  lemma MaskInRange(c: bv8)
    ensures c & 0x3F <= 0x3F && (c <= 0x3F ==> c & 0x3F == c)
  {
  }

  /** A receiver that knows how long the suffix is hears the header, every character, the
      end code and the checksum over the characters. */
  lemma SuffixIsHeard(identifier: seq<bv8>, amplitude: real, k: nat)
    requires Normalized(identifier) && 0.0 <= amplitude <= 1.0 && k < |identifier| + 3
    ensures |Suffix(identifier, amplitude)| == 6 * |identifier| + 22
    ensures HeardCode(Suffix(identifier, amplitude), 3 + 6 * k) == AllCodes(identifier)[k]
    ensures 0 < k <= |identifier| ==> AllCodes(identifier)[k] + 0x20 == identifier[k - 1]
    ensures k == |identifier| + 2 ==> AllCodes(identifier)[k] == Checksum(CharacterCodes(identifier))
  {
    hide Leader, EventsOnGrid, HeardCode, CodesTones, Checksum;
    CodesInRange(identifier);
    var tones := CodesTones(AllCodes(identifier), amplitude);
    CodesAreHeard(AllCodes(identifier), amplitude, k);
    TonesInside(identifier, amplitude, k);
    HeardInside(Suffix(identifier, amplitude), 3 + 6 * k, tones, 6 * k);
    if 0 < k <= |identifier| {
      OffsetInRange(identifier[k - 1]);
    }
    ChecksumBound(identifier);
    MaskInRange(Checksum(CharacterCodes(identifier)));
  }

  lemma TonesInside(identifier: seq<bv8>, amplitude: real, k: nat)
    requires Normalized(identifier) && 0.0 <= amplitude <= 1.0 && k < |identifier| + 3
    ensures var (suffix, tones) := (Suffix(identifier, amplitude), CodesTones(AllCodes(identifier), amplitude));
            && |suffix| == 6 * |identifier| + 22 && 6 * k + 6 <= |tones|
            && suffix[3 + 6 * k..3 + 6 * k + 6] == tones[6 * k..6 * k + 6]
  {
    hide Leader, EventsOnGrid, CodesTones, AllCodes;
  }

  lemma ChecksumBound(identifier: seq<bv8>)
    requires Normalized(identifier)
    ensures Checksum(CharacterCodes(identifier)) <= 0x3F
  {
    forall i | 0 <= i < |identifier| ensures CharacterCodes(identifier)[i] <= 0x3F {
      OffsetInRange(identifier[i]);
    }
    ChecksumInRange(CharacterCodes(identifier));
  }

  /** What a receiver keeps that stops at the first end code after the header. */
  function UntilEnd(codes: seq<bv8>): seq<bv8> {
    if codes == [] || codes[0] == END_CODE then [] else [codes[0]] + UntilEnd(codes[1..])
  }

  /** The exclamation mark has the code of the end value: a receiver that stops at the
      first end code hears an identifier in full exactly if it contains none. */
  lemma {:induction false} EndCodeIsAmbiguous(identifier: seq<bv8>)
    requires Normalized(identifier)
    ensures UntilEnd(AllCodes(identifier)[1..]) == CharacterCodes(identifier) <==> 0x21 !in identifier
  {
    var codes, tail := CharacterCodes(identifier), [END_CODE, Checksum(CharacterCodes(identifier)) & 0x3F];
    assert AllCodes(identifier)[1..] == codes + tail;
    StopsAtEnd(codes, tail);
    ExclamationIsEnd(identifier);
  }

  lemma ExclamationIsEnd(identifier: seq<bv8>)
    requires Normalized(identifier)
    ensures END_CODE in CharacterCodes(identifier) <==> 0x21 in identifier
  {
    var codes := CharacterCodes(identifier);
    forall i | 0 <= i < |identifier| ensures codes[i] == END_CODE <==> identifier[i] == 0x21 {
      OffsetIsEnd(identifier[i]);
    }
  }

  lemma OffsetIsEnd(c: bv8)
    ensures c - 0x20 == END_CODE <==> c == 0x21
  {
  }

  lemma {:induction false} StopsAtEnd(codes: seq<bv8>, tail: seq<bv8>)
    requires tail != [] && tail[0] == END_CODE
    ensures UntilEnd(codes + tail) == codes <==> END_CODE !in codes
    ensures |UntilEnd(codes + tail)| <= |codes|
    decreases |codes|
  {
    if codes == [] {
      assert codes + tail == tail;
    } else {
      StopsAtEnd(codes[1..], tail);
      assert (codes + tail)[1..] == codes[1..] + tail;
      assert codes == [codes[0]] + codes[1..];
    }
  }

  /** The checksum notices every change of a single character. */
  lemma {:induction false} ChecksumDetects(codes: seq<bv8>, k: nat, code: bv8)
    requires k < |codes|
    ensures Checksum(codes[k := code]) == Checksum(codes) <==> code == codes[k]
    decreases |codes|
  {
    hide Xor;
    var prior, last := codes[..|codes| - 1], codes[|codes| - 1];
    if k < |codes| - 1 {
      ChecksumDetects(prior, k, code);
      assert codes[k := code][..|codes| - 1] == prior[k := code];
      XorInjective(Checksum(prior[k := code]), Checksum(prior), last);
    } else {
      assert codes[k := code][..|codes| - 1] == prior;
      XorLeft(Checksum(prior), code, last);
    }
  }

  lemma XorInjective(a: bv8, b: bv8, c: bv8)
    ensures Xor(a, c) == Xor(b, c) <==> a == b
  {
  }

  lemma XorLeft(a: bv8, b: bv8, c: bv8)
    ensures Xor(a, b) == Xor(a, c) <==> b == c
  {
  }

  // ----------------------------------------------------------------------- duration

  lemma {:induction false} CodesUnits(codes: seq<bv8>, amplitude: real)
    requires 0.0 <= amplitude <= 1.0
    ensures TotalUnits(CodesTones(codes, amplitude)) == |codes| * 1_320_000
  {
    hide Units, OnGrid, TestBit, Mask;
    if codes != [] {
      var prior, last := codes[..|codes| - 1], codes[|codes| - 1];
      CodesUnits(prior, amplitude);
      UniformUnits(CodeTones(last, amplitude), 220_000);
      UnitsConcat(CodesTones(prior, amplitude), CodeTones(last, amplitude));
    }
  }

  /** A suffix lasts 918 milliseconds and 132 more for every character. */
  lemma SuffixUnits(identifier: seq<bv8>, amplitude: real)
    requires Normalized(identifier) && 0.0 <= amplitude <= 1.0
    ensures TotalUnits(Suffix(identifier, amplitude)) == 9_180_000 + 1_320_000 * |identifier|
  {
    hide Units, OnGrid, CodesTones;
    var codes := CodesTones(AllCodes(identifier), amplitude);
    var a, b := MicroTone(300_000, LEADER_FREQUENCY, amplitude), MicroTone(100_000, SPACE_FREQUENCY, amplitude);
    var c, d := MicroTone(22_000, MARK_FREQUENCY, amplitude), MicroTone(100_000, MARK_FREQUENCY, amplitude);
    OneUnit(a);
    OneUnit(b);
    OneUnit(c);
    OneUnit(d);
    CodesUnits(AllCodes(identifier), amplitude);
    UnitsConcat([a], [b]);
    UnitsConcat([a] + [b], [c]);
    UnitsConcat([a] + [b] + [c], codes);
    UnitsConcat([a] + [b] + [c] + codes, [d]);
    assert Suffix(identifier, amplitude) == [a] + [b] + [c] + codes + [d];
  }
}
