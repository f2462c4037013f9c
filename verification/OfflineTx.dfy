/** The offline transmission service (src/core/offline_tx.cpp): mode lookup, dispatch to an
    encoder, the independently computed duration, and the optional FSK suffix. */
module OfflineTx {
  import opened Arithmetic
  import opened Optional
  import opened Timing
  import opened Tone
  import opened ToneRenderer
  import opened TimingGrid
  import opened SequentialRgb
  import opened SequentialModes
  import FskId
  import Robot36
  import Pd120

  datatype Strategy = MartinStrategy | ScottieStrategy | RobotStrategy | PdStrategy

  datatype Capability = OfflineTestPatternTx | OfflineImageTx | LiveTx | Receive | OfflineFskIdTx

  datatype Mode = Mode(id: string, width: nat, height: nat, strategy: Strategy)

  const MODES: seq<Mode> :=
    [Mode("martin-m1", 320, 256, MartinStrategy), Mode("scottie-s1", 320, 256, ScottieStrategy),
     Mode("robot-36", 320, 240, RobotStrategy), Mode("pd-120", 640, 496, PdStrategy)]

  predicate Offers(c: Capability) {
    c.OfflineTestPatternTx? || c.OfflineImageTx? || c.OfflineFskIdTx?
  }

  datatype TxError = UnknownMode | MissingCapability | InvalidFrameDimensions | ConstructionFailed

  datatype Transmission = Transmission(events: seq<ToneEvent>, duration: Duration)

  datatype TxResult = Transmitted(transmission: Transmission) | TxFailed(error: TxError)

  datatype FindResult = Found(mode: Mode) | NotFound

  method FindMode(id: string) returns (result: FindResult)
    ensures result.Found? ==> result.mode in MODES && result.mode.id == id
    ensures result.NotFound? <==> forall m :: m in MODES ==> m.id != id
  {
    for i := 0 to |MODES|
      invariant forall j :: 0 <= j < i ==> MODES[j].id != id
    {
      if MODES[i].id == id {
        return Found(MODES[i]);
      }
    }
    result := NotFound;
  }

  function ModeDuration(mode: Mode): Checked<Duration> {
    match mode.strategy
    case MartinStrategy => DescriptorDuration(MartinM1())
    case ScottieStrategy => DescriptorDuration(ScottieS1())
    case RobotStrategy => Robot36.TransmissionDuration()
    case PdStrategy => Pd120.TransmissionDuration()
  }

  function DescriptorDuration(d: Descriptor): Checked<Duration>
    requires d == MartinM1() || d == ScottieS1()
  {
    ModesOnGrid();
    GridTyped(d);
    SequentialRgb.TransmissionDuration(d)
  }

  predicate Fits(mode: Mode, frame: Frame) {
    ValidFrame(frame) && frame.width == mode.width && frame.height == mode.height
  }

  /** The base event list of a mode. */
  function ModeEvents(mode: Mode, frame: Frame, amplitude: real): (events: seq<ToneEvent>)
    requires mode in MODES && Fits(mode, frame) && 0.0 <= amplitude <= 1.0
  {
    match mode.strategy
    case MartinStrategy => DescriptorEvents(MartinM1(), frame, amplitude)
    case ScottieStrategy => DescriptorEvents(ScottieS1(), frame, amplitude)
    case RobotStrategy => Robot36.Encoded(frame, amplitude)
    case PdStrategy => Pd120.Encoded(frame, amplitude)
  }

  function DescriptorEvents(d: Descriptor, frame: Frame, amplitude: real): seq<ToneEvent>
    requires d == MartinM1() || d == ScottieS1()
    requires ValidFrame(frame) && frame.width == 320 && frame.height == 256 && 0.0 <= amplitude <= 1.0
  {
    ModesOnGrid();
    EncoderAddsUp(d, frame, amplitude);
    SequentialRgb.Encoded(d, frame, amplitude)
  }

  /** All four modes: the events add up, without overflow, to the published duration. */
  lemma ModeAddsUp(mode: Mode, frame: Frame, amplitude: real)
    requires mode in MODES && Fits(mode, frame) && 0.0 <= amplitude <= 1.0
    ensures EventsOnGrid(ModeEvents(mode, frame, amplitude))
    ensures ModeDuration(mode).Exact?
    ensures TotalDuration(ModeEvents(mode, frame, amplitude)) == ModeDuration(mode)
    ensures OnGrid(ModeDuration(mode).value)
    ensures TotalUnits(ModeEvents(mode, frame, amplitude)) == Units(ModeDuration(mode).value) <= LONGEST_MODE
  {
    hide Units, OnGrid, TotalDuration, EventsOnGrid, Robot36.TransmissionDuration, Pd120.TransmissionDuration;
    hide SequentialRgb.TransmissionDuration, GridDescriptor, Encodable, SequentialRgb.Encoded, MartinM1, ScottieS1;
    hide Robot36.Encoded, Pd120.Encoded;
    match mode.strategy
    case MartinStrategy => ModesOnGrid(); ModeSizes(); EncoderAddsUp(MartinM1(), frame, amplitude);
    case ScottieStrategy => ModesOnGrid(); ModeSizes(); EncoderAddsUp(ScottieS1(), frame, amplitude);
    case RobotStrategy => Robot36.DurationAddsUp(frame, amplitude);
    case PdStrategy => Pd120.DurationAddsUp(frame, amplitude);
  }

  lemma ModeSizes()
    ensures MartinM1().width == 320 && MartinM1().height == 256 && MartinM1().visCode <= 0x7F
    ensures ScottieS1().width == 320 && ScottieS1().height == 256 && ScottieS1().visCode <= 0x7F
  {
  }

  // -------------------------------------------------------------------- the service

  /** The transmission of a built-in mode without suffix. */
  ghost predicate IsBase(t: Transmission, id: string, frame: Frame, amplitude: real) {
    exists mode :: mode in MODES && mode.id == id && Fits(mode, frame) && 0.0 <= amplitude <= 1.0
                   && t.events == ModeEvents(mode, frame, amplitude) && Exact(t.duration) == ModeDuration(mode)
  }

  /** An identifier names at most one mode. */
  lemma ModesDiffer(id: string)
    ensures forall m, n :: m in MODES && n in MODES && m.id == n.id == id ==> m == n
  {
    assert forall i, j :: 0 <= i < j < |MODES| ==> MODES[i].id[0] != MODES[j].id[0];
  }

  /** When a request is refused with an error. */
  predicate IsRefusal(e: TxError, id: string, capability: Capability, frame: Frame, amplitude: real) {
    match e
    case UnknownMode => forall m :: m in MODES ==> m.id != id
    case MissingCapability => !Offers(capability) && exists m :: m in MODES && m.id == id
    case InvalidFrameDimensions => Offers(capability) && exists m :: m in MODES && m.id == id && !Fits(m, frame)
    case ConstructionFailed =>
      Offers(capability) && (amplitude < 0.0 || amplitude > 1.0) && exists m :: m in MODES && m.id == id && Fits(m, frame)
  }

  method EncodeBase(id: string, capability: Capability, frame: Frame, amplitude: real) returns (result: TxResult)
    requires ValidFrame(frame)
    ensures result.Transmitted? ==> Offers(capability) && IsBase(result.transmission, id, frame, amplitude)
    ensures forall e :: result == TxFailed(e) <==> IsRefusal(e, id, capability, frame, amplitude)
  {
    hide ModeEvents, ModeDuration;
    ModesDiffer(id);
    var found := FindMode(id);
    if found.NotFound? {
      return TxFailed(UnknownMode);
    }
    var mode := found.mode;
    if !Offers(capability) {
      return TxFailed(MissingCapability);
    }
    if frame.width != mode.width || frame.height != mode.height {
      return TxFailed(InvalidFrameDimensions);
    }
    var events := RunEncoder(mode, frame, amplitude);
    if !events.Exact? {
      return TxFailed(ConstructionFailed);
    }
    ModeAddsUp(mode, frame, amplitude);
    var duration := ModeDuration(mode);
    result := Transmitted(Transmission(events.value, duration.value));
  }

  /** The dispatch. */
  method RunEncoder(mode: Mode, frame: Frame, amplitude: real) returns (events: Checked<seq<ToneEvent>>)
    requires mode in MODES && Fits(mode, frame)
    ensures events.Exact? <==> 0.0 <= amplitude <= 1.0
    ensures events.Exact? ==> events.value == ModeEvents(mode, frame, amplitude)
  {
    hide MartinM1, ScottieS1, Encodable, SequentialRgb.Encoded, Robot36.Encoded, Pd120.Encoded;
    match mode.strategy {
      case MartinStrategy => events := RunSequential(MartinM1(), frame, amplitude);
      case ScottieStrategy => events := RunSequential(ScottieS1(), frame, amplitude);
      case RobotStrategy => events := Robot36.Encode(frame, amplitude);
      case PdStrategy => events := Pd120.Encode(frame, amplitude);
    }
  }

  method RunSequential(d: Descriptor, frame: Frame, amplitude: real) returns (events: Checked<seq<ToneEvent>>)
    requires d == MartinM1() || d == ScottieS1()
    requires ValidFrame(frame) && frame.width == 320 && frame.height == 256
    ensures events.Exact? <==> 0.0 <= amplitude <= 1.0
    ensures events.Exact? ==> events.value == DescriptorEvents(d, frame, amplitude)
  {
    ModesOnGrid();
    ModeSizes();
    hide MartinM1, ScottieS1;
    GridTyped(d);
    if 0.0 <= amplitude <= 1.0 {
      EncoderAddsUp(d, frame, amplitude);
    }
    events := SequentialRgb.Encode(d, frame, amplitude);
  }

  /** Whatever the mode, the frame and the identifier: the events add up, without overflow,
      to exactly the duration that is returned with them. */
  method Encode(id: string, capability: Capability, frame: Frame, amplitude: real, identifier: Option<seq<bv8>>)
    returns (result: TxResult)
    requires ValidFrame(frame) && (identifier.Some? ==> FskId.Normalized(identifier.value))
    ensures result.Transmitted? ==>
              var t := result.transmission;
              && EventsOnGrid(t.events) && TotalDuration(t.events) == Exact(t.duration)
    ensures result.Transmitted? ==>
              exists base: Transmission :: IsBase(base, id, frame, amplitude)
                && result.transmission.events == base.events + SuffixOf(identifier, amplitude)
    ensures forall e :: result == TxFailed(e) <==> IsRefusal(e, id, capability, frame, amplitude)
  {
    hide EventsOnGrid, ModeEvents, ModeDuration, TotalDuration, FskId.Suffix, ValidEvents;
    result := EncodeBase(id, capability, frame, amplitude);
    if result.TxFailed? {
      return;
    }
    var base := result.transmission;
    BaseAddsUp(base, id, frame, amplitude);
    if identifier.None? {
      assert base.events + [] == base.events;
      return;
    }
    var events, duration := FskId.Generate(identifier.value, amplitude);
    SuffixAddsUp(base, identifier.value, amplitude);
    result := Transmitted(Transmission(base.events + events, Plus(base.duration, duration.value).value));
  }

  function SuffixOf(identifier: Option<seq<bv8>>, amplitude: real): seq<ToneEvent> {
    if identifier.Some? && FskId.Normalized(identifier.value) && 0.0 <= amplitude <= 1.0
    then FskId.Suffix(identifier.value, amplitude) else []
  }

  lemma BaseAddsUp(t: Transmission, id: string, frame: Frame, amplitude: real)
    requires IsBase(t, id, frame, amplitude)
    ensures EventsOnGrid(t.events) && TotalDuration(t.events) == Exact(t.duration)
    ensures OnGrid(t.duration) && Units(t.duration) == TotalUnits(t.events) <= LONGEST_MODE
    ensures 0.0 <= amplitude <= 1.0
  {
    hide EventsOnGrid, ModeEvents, ModeDuration, TotalDuration;
    var mode :| mode in MODES && mode.id == id && Fits(mode, frame) && 0.0 <= amplitude <= 1.0
                && t.events == ModeEvents(mode, frame, amplitude) && Exact(t.duration) == ModeDuration(mode);
    ModeAddsUp(mode, frame, amplitude);
  }

  lemma SuffixAddsUp(base: Transmission, identifier: seq<bv8>, amplitude: real)
    requires EventsOnGrid(base.events) && TotalDuration(base.events) == Exact(base.duration)
    requires OnGrid(base.duration) && Units(base.duration) == TotalUnits(base.events) <= LONGEST_MODE
    requires FskId.Normalized(identifier) && 0.0 <= amplitude <= 1.0
    ensures var suffix := FskId.Suffix(identifier, amplitude);
            && TotalDuration(suffix).Exact?
            && Plus(base.duration, TotalDuration(suffix).value).Exact?
            && EventsOnGrid(base.events + suffix)
            && TotalDuration(base.events + suffix) == Plus(base.duration, TotalDuration(suffix).value)
  {
    hide Units, TotalDuration, FskId.Suffix, Plus, Divides, Coprime;
    var suffix := FskId.Suffix(identifier, amplitude);
    FskId.SuffixUnits(identifier, amplitude);
    TotalOnGrid(suffix);
    PlusOnGrid(base.duration, TotalDuration(suffix).value);
    UnitsConcat(base.events, suffix);
    TotalOnGrid(base.events + suffix);
    EqualUnits(TotalDuration(base.events + suffix).value, Plus(base.duration, TotalDuration(suffix).value).value);
  }
}
