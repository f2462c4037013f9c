/** Hardware-in-the-loop evidence records, their JSON text, and the in-place update of one
    stage's text (src/app/hil_evidence.cpp). Maps are the sequences of their entries in key
    order. */
module HilEvidence {
  import opened Arithmetic
  import opened Optional
  import opened HilJson
  import opened HilPatch

  datatype HilStage =
    | Manifest | Discovery | AudioCalibration | PttUnkey | KeyedSilence | FullSstv | ControlledFault | GuiCompositor

  datatype HilResultState = NotRun | Passed | Failed | Inconclusive | Skipped

  datatype HilEvidenceSource = NotMeasured | OperatorObserved | AutomaticallyMeasured

  type Text = Option<string>
  type Entries = seq<(string, string)>
  type OptionalEntries = seq<(string, Text)>

  datatype HilArtifact = HilArtifact(name: string, sha256: string, bytes: nat, containsRawAudio: bool)

  datatype HilStageResult = HilStageResult(
    stage: HilStage, state: HilResultState, source: HilEvidenceSource,
    startedUtc: Text, endedUtc: Text, skippedReason: Text, primaryError: Text,
    cleanupErrors: seq<string>, finalPttCertainty: Text, measurements: OptionalEntries, operatorRadioState: Text)

  datatype HilBuildMetadata = HilBuildMetadata(
    utcStarted: string, utcEnded: Text, gitCommit: string, isDirtyWorktree: bool, compiler: string,
    compilerVersion: string, cmakePreset: string, cmakeOptions: Entries, miniaudioVersion: string, qtVersion: Text,
    operatingSystem: string, kernel: string, architecture: string, redactedHostIdentifier: string,
    sessionPlatform: string)

  /** The gain is kept as the decimal text of the double. */
  datatype HilConfiguration = HilConfiguration(
    audioBackend: string, playbackIdentity: string, identityPersistence: string, hasIdentityCollision: bool,
    selectedChannel: nat, channelCount: nat, negotiatedRate: Option<nat>, negotiatedFormat: Text,
    negotiatedChannels: Option<nat>, negotiatedPeriodFrames: Option<nat>, pttProvider: string, pttAddress: string,
    pttPort: Option<nat>, flrigPath: Text, radioManufacturer: string, radioModel: string, radioFirmware: Text,
    audioInterface: string, cabling: string, testArrangement: string, radioMode: string, frequency: string,
    power: string, voxState: string, compressorState: string, timeoutState: string, antennaState: string,
    sstvMode: string, fixtureSha256: string, hasFskIdentifier: bool, durationNanoseconds: nat, frameCount: nat,
    gainDbfs: string, preKeyMilliseconds: nat, postAudioMilliseconds: nat, instrumentDescription: Text,
    calibrationMethod: Text, pttProviderVersion: Text)

  datatype HilEvidenceRecord = HilEvidenceRecord(
    schemaVersion: nat, build: HilBuildMetadata, configuration: HilConfiguration, stages: seq<HilStageResult>,
    artifacts: seq<HilArtifact>, limitations: seq<string>, operatorNotes: Text)

  function StateName(state: HilResultState): string {
    match state
    case NotRun => "not-run"
    case Passed => "passed"
    case Failed => "failed"
    case Inconclusive => "inconclusive"
    case Skipped => "skipped"
  }

  function SourceName(source: HilEvidenceSource): string {
    match source
    case NotMeasured => "not-measured"
    case OperatorObserved => "operator-observed"
    case AutomaticallyMeasured => "automatically-measured"
  }

  function StageName(stage: HilStage): (name: string)
    ensures Plain(name)
  {
    match stage
    case Manifest => "manifest"
    case Discovery => "discovery"
    case AudioCalibration => "audio-calibration"
    case PttUnkey => "ptt-unkey"
    case KeyedSilence => "keyed-silence"
    case FullSstv => "full-sstv"
    case ControlledFault => "controlled-fault"
    case GuiCompositor => "gui-compositor"
  }

  lemma StageNamesDiffer(a: HilStage, b: HilStage)
    ensures StageName(a) == StageName(b) <==> a == b
  {
    assert StageName(a)[0] == StageName(b)[0] ==> a == b;
  }

  // ------------------------------------------------------------------- serialization

  function Digits(n: nat): string {
    if n < 10 then [(48 + n) as char] else Digits(n / 10) + [(48 + n % 10) as char]
  }

  function Number(n: nat): Json {
    Scalar(Digits(n))
  }

  function Flag(b: bool): Json {
    Scalar(if b then "true" else "false")
  }

  function Maybe(text: Text): Json {
    if text.Some? then Quoted(text.value) else Scalar("null")
  }

  function MaybeNumber(n: Option<nat>): Json {
    if n.Some? then Number(n.value) else Scalar("null")
  }

  function StringMap(entries: Entries): Members {
    if entries == [] then NoMembers else Member(entries[0].0, Quoted(entries[0].1), StringMap(entries[1..]))
  }

  function OptionalMap(entries: OptionalEntries): Members {
    if entries == [] then NoMembers else Member(entries[0].0, Maybe(entries[0].1), OptionalMap(entries[1..]))
  }

  function Strings(texts: seq<string>): Items {
    if texts == [] then NoItems else Item(Quoted(texts[0]), Strings(texts[1..]))
  }

  type Fields = seq<(string, Json)>

  /** Members in front of others. */
  function Pairs(fields: Fields, tail: Members): Members {
    if fields == [] then tail else Member(fields[0].0, fields[0].1, Pairs(fields[1..], tail))
  }

  function BuildHead(b: HilBuildMetadata): Fields {
    [("utc_started", Quoted(b.utcStarted)), ("utc_ended", Maybe(b.utcEnded)), ("git_commit", Quoted(b.gitCommit)),
     ("dirty_worktree", Flag(b.isDirtyWorktree)), ("compiler", Quoted(b.compiler)),
     ("compiler_version", Quoted(b.compilerVersion)), ("cmake_preset", Quoted(b.cmakePreset))]
  }

  function BuildRest(b: HilBuildMetadata): Fields {
    [("miniaudio_version", Quoted(b.miniaudioVersion)), ("qt_version", Maybe(b.qtVersion)),
     ("operating_system", Quoted(b.operatingSystem)), ("kernel", Quoted(b.kernel)),
     ("architecture", Quoted(b.architecture)), ("redacted_host_id", Quoted(b.redactedHostIdentifier)),
     ("session_platform", Quoted(b.sessionPlatform))]
  }

  function BuildJson(b: HilBuildMetadata): Json {
    Object(Pairs(BuildHead(b), Member("cmake_options", Object(StringMap(b.cmakeOptions)), Pairs(BuildRest(b), NoMembers))))
  }

  function AudioFields(c: HilConfiguration): Fields {
    [("audio_backend", Quoted(c.audioBackend)), ("playback_identity", Quoted(c.playbackIdentity)),
     ("identity_persistence", Quoted(c.identityPersistence)), ("identity_collision", Flag(c.hasIdentityCollision)),
     ("selected_channel", Number(c.selectedChannel)), ("channel_count", Number(c.channelCount)),
     ("negotiated_rate", MaybeNumber(c.negotiatedRate)), ("negotiated_format", Maybe(c.negotiatedFormat)),
     ("negotiated_channels", MaybeNumber(c.negotiatedChannels)),
     ("negotiated_period_frames", MaybeNumber(c.negotiatedPeriodFrames))]
  }

  function RadioFields(c: HilConfiguration): Fields {
    [("ptt_provider", Quoted(c.pttProvider)), ("ptt_provider_version", Maybe(c.pttProviderVersion)),
     ("ptt_address", Quoted(c.pttAddress)), ("ptt_port", MaybeNumber(c.pttPort)), ("flrig_path", Maybe(c.flrigPath)),
     ("radio_manufacturer", Quoted(c.radioManufacturer)), ("radio_model", Quoted(c.radioModel)),
     ("radio_firmware", Maybe(c.radioFirmware)), ("audio_interface", Quoted(c.audioInterface)),
     ("cabling", Quoted(c.cabling)), ("test_arrangement", Quoted(c.testArrangement)),
     ("radio_mode", Quoted(c.radioMode)), ("frequency", Quoted(c.frequency)), ("power", Quoted(c.power)),
     ("vox_state", Quoted(c.voxState)), ("compressor_state", Quoted(c.compressorState)),
     ("timeout_state", Quoted(c.timeoutState)), ("antenna_state", Quoted(c.antennaState))]
  }

  function SignalFields(c: HilConfiguration): Fields {
    [("sstv_mode", Quoted(c.sstvMode)), ("fixture_sha256", Quoted(c.fixtureSha256)),
     ("fsk_id_enabled", Flag(c.hasFskIdentifier)), ("duration_nanoseconds", Number(c.durationNanoseconds)),
     ("frame_count", Number(c.frameCount)), ("gain_dbfs", Scalar(c.gainDbfs)),
     ("pre_key_ms", Number(c.preKeyMilliseconds)), ("post_audio_ms", Number(c.postAudioMilliseconds)),
     ("instrument", Maybe(c.instrumentDescription)), ("calibration_method", Maybe(c.calibrationMethod))]
  }

  function ConfigurationJson(c: HilConfiguration): Json {
    Object(Pairs(AudioFields(c), Pairs(RadioFields(c), Pairs(SignalFields(c), NoMembers))))
  }

  function StageFields(r: HilStageResult): Fields {
    [("state", Quoted(StateName(r.state))), ("source", Quoted(SourceName(r.source))),
     ("started_utc", Maybe(r.startedUtc)), ("ended_utc", Maybe(r.endedUtc)),
     ("skipped_reason", Maybe(r.skippedReason)), ("primary_error", Maybe(r.primaryError)),
     ("cleanup_errors", List(Strings(r.cleanupErrors))), ("final_ptt_certainty", Maybe(r.finalPttCertainty))]
  }

  function StageEnd(r: HilStageResult): Members {
    Member("measurements", Object(OptionalMap(r.measurements)), Member("operator_radio_state", Maybe(r.operatorRadioState), NoMembers))
  }

  function StageMembers(r: HilStageResult): Members {
    Member(STAGE, Quoted(StageName(r.stage)), Pairs(StageFields(r), StageEnd(r)))
  }

  function Stages(stages: seq<HilStageResult>): Items {
    if stages == [] then NoItems else Item(Object(StageMembers(stages[0])), Stages(stages[1..]))
  }

  function ArtifactFields(a: HilArtifact): Fields {
    [("name", Quoted(a.name)), ("sha256", Quoted(a.sha256)), ("bytes", Number(a.bytes)), ("raw_audio", Flag(a.containsRawAudio))]
  }

  function Artifacts(artifacts: seq<HilArtifact>): Items {
    if artifacts == [] then NoItems else Item(Object(Pairs(ArtifactFields(artifacts[0]), NoMembers)), Artifacts(artifacts[1..]))
  }

  function RecordEnd(record: HilEvidenceRecord, digest: string): Members {
    Member("artifacts", List(Artifacts(record.artifacts)),
           Member("limitations", List(Strings(record.limitations)),
                  Member("operator_notes", Maybe(record.operatorNotes),
                         Member("configuration_digest", Quoted(digest), NoMembers))))
  }

  /** The document that serializeHilEvidenceJson prints; `digest` is the configuration's
      SHA-256 in hexadecimal. */
  function JsonOf(record: HilEvidenceRecord, digest: string): Json {
    Document(Member("schema_version", Number(record.schemaVersion),
                    Member("build", BuildJson(record.build),
                           Member("configuration", ConfigurationJson(record.configuration),
                                  Member("stages", List(Stages(record.stages)), RecordEnd(record, digest))))))
  }

  function Serialize(record: HilEvidenceRecord, digest: string): string {
    Print(JsonOf(record, digest))
  }

  // ---------------------------------------------------------------------- validity

  predicate Flat(j: Json) {
    j.Scalar? || j.Quoted?
  }

  predicate SoundFields(fields: Fields) {
    forall i :: 0 <= i < |fields| ==> ValidJson(fields[i].1) && Nesting(fields[i].1) == 0
  }

  lemma {:induction false} NumberValid(n: nat)
    ensures ValidJson(Number(n)) && Nesting(Number(n)) == 0
  {
    if n >= 10 {
      NumberValid(n / 10);
    }
  }

  lemma {:induction false} PairsValid(fields: Fields, tail: Members)
    requires SoundFields(fields) && ValidMembers(tail)
    ensures ValidMembers(Pairs(fields, tail)) && MembersNesting(Pairs(fields, tail)) == MembersNesting(tail)
  {
    if fields != [] {
      assert SoundFields(fields[1..]);
      PairsValid(fields[1..], tail);
      assert ValidJson(fields[0].1);
    }
  }

  lemma {:induction false} StringMapValid(entries: Entries)
    ensures ValidMembers(StringMap(entries)) && MembersNesting(StringMap(entries)) == 0
  {
    if entries != [] {
      StringMapValid(entries[1..]);
    }
  }

  lemma {:induction false} OptionalMapValid(entries: OptionalEntries)
    ensures ValidMembers(OptionalMap(entries)) && MembersNesting(OptionalMap(entries)) == 0
  {
    if entries != [] {
      OptionalMapValid(entries[1..]);
    }
  }

  lemma {:induction false} StringsValid(texts: seq<string>)
    ensures ValidItems(Strings(texts)) && ItemsNesting(Strings(texts)) == 0
  {
    if texts != [] {
      StringsValid(texts[1..]);
    }
  }

  lemma BuildValid(b: HilBuildMetadata)
    ensures ValidJson(BuildJson(b)) && Nesting(BuildJson(b)) == 2
  {
    hide StringMap, Pairs;
    StringMapValid(b.cmakeOptions);
    PairsValid(BuildRest(b), NoMembers);
    var rest := Member("cmake_options", Object(StringMap(b.cmakeOptions)), Pairs(BuildRest(b), NoMembers));
    assert ValidMembers(rest) && MembersNesting(rest) == 1;
    PairsValid(BuildHead(b), rest);
  }

  /** The gain prints as a number. */
  predicate Printable(record: HilEvidenceRecord) {
    ValidScalar(record.configuration.gainDbfs)
  }

  lemma MaybeNumberValid(n: Option<nat>)
    ensures ValidJson(MaybeNumber(n)) && Nesting(MaybeNumber(n)) == 0
  {
    if n.Some? {
      NumberValid(n.value);
    }
  }

  lemma AudioSound(c: HilConfiguration)
    ensures SoundFields(AudioFields(c))
  {
    hide Number, MaybeNumber;
    NumberValid(c.selectedChannel);
    NumberValid(c.channelCount);
    MaybeNumberValid(c.negotiatedRate);
    MaybeNumberValid(c.negotiatedChannels);
    MaybeNumberValid(c.negotiatedPeriodFrames);
  }

  lemma RadioSound(c: HilConfiguration)
    ensures SoundFields(RadioFields(c))
  {
    hide MaybeNumber;
    MaybeNumberValid(c.pttPort);
  }

  lemma SignalSound(c: HilConfiguration)
    requires ValidScalar(c.gainDbfs)
    ensures SoundFields(SignalFields(c))
  {
    hide Number;
    NumberValid(c.durationNanoseconds);
    NumberValid(c.frameCount);
    NumberValid(c.preKeyMilliseconds);
    NumberValid(c.postAudioMilliseconds);
  }

  lemma ConfigurationValid(c: HilConfiguration)
    requires ValidScalar(c.gainDbfs)
    ensures ValidJson(ConfigurationJson(c)) && Nesting(ConfigurationJson(c)) == 1
  {
    hide Pairs, AudioFields, RadioFields, SignalFields;
    AudioSound(c);
    RadioSound(c);
    SignalSound(c);
    PairsValid(SignalFields(c), NoMembers);
    PairsValid(RadioFields(c), Pairs(SignalFields(c), NoMembers));
    PairsValid(AudioFields(c), Pairs(RadioFields(c), Pairs(SignalFields(c), NoMembers)));
  }

  lemma OneMember(key: string, value: Json, tail: Members)
    ensures ValidMembers(Member(key, value, tail)) <==> ValidJson(value) && ValidMembers(tail)
    ensures MembersNesting(Member(key, value, tail)) == Larger(Nesting(value), MembersNesting(tail))
  {
  }

  lemma LastMember(key: string, value: Json)
    requires Flat(value) && ValidJson(value)
    ensures ValidMembers(Member(key, value, NoMembers)) && MembersNesting(Member(key, value, NoMembers)) == 0
  {
  }

  lemma StageValid(r: HilStageResult)
    ensures ValidMembers(StageMembers(r)) && MembersNesting(StageMembers(r)) == 1
  {
    hide OptionalMap, Pairs, Strings;
    OptionalMapValid(r.measurements);
    StringsValid(r.cleanupErrors);
    var last := Member("operator_radio_state", Maybe(r.operatorRadioState), NoMembers);
    LastMember("operator_radio_state", Maybe(r.operatorRadioState));
    assert ValidMembers(StageEnd(r)) && MembersNesting(StageEnd(r)) == 1;
    PairsValid(StageFields(r), StageEnd(r));
  }

  lemma {:induction false} StagesValid(stages: seq<HilStageResult>)
    ensures ValidItems(Stages(stages)) && ItemsNesting(Stages(stages)) <= 2
  {
    hide StageMembers;
    if stages != [] {
      StageValid(stages[0]);
      StagesValid(stages[1..]);
    }
  }

  lemma {:induction false} ArtifactsValid(artifacts: seq<HilArtifact>)
    ensures ValidItems(Artifacts(artifacts)) && ItemsNesting(Artifacts(artifacts)) <= 1
  {
    hide Pairs, Number;
    if artifacts != [] {
      NumberValid(artifacts[0].bytes);
      PairsValid(ArtifactFields(artifacts[0]), NoMembers);
      ArtifactsValid(artifacts[1..]);
    }
  }

  lemma RecordValid(record: HilEvidenceRecord, digest: string)
    requires Printable(record)
    ensures ValidJson(JsonOf(record, digest)) && Nesting(JsonOf(record, digest)) < WORD
  {
    hide BuildJson, ConfigurationJson, Stages, Artifacts, Strings, Number;
    NumberValid(record.schemaVersion);
    BuildValid(record.build);
    ConfigurationValid(record.configuration);
    StagesValid(record.stages);
    ArtifactsValid(record.artifacts);
    StringsValid(record.limitations);
    hide ValidMembers, MembersNesting;
    var end := RecordEnd(record, digest);
    var (limitations, notes, last) := (end.tail, end.tail.tail, end.tail.tail.tail);
    LastMember(last.key, last.value);
    OneMember(notes.key, notes.value, last);
    OneMember(limitations.key, limitations.value, notes);
    OneMember(end.key, end.value, limitations);
    var stages := Member("stages", List(Stages(record.stages)), end);
    OneMember(stages.key, stages.value, end);
    var configuration := Member("configuration", ConfigurationJson(record.configuration), stages);
    OneMember(configuration.key, configuration.value, stages);
    var build := Member("build", BuildJson(record.build), configuration);
    OneMember(build.key, build.value, configuration);
    OneMember("schema_version", Number(record.schemaVersion), build);
  }
}
