/** validateHilEvidence (src/app/hil_evidence.cpp): what a record must meet before it is
    serialized. The gain is a decimal text in this model, and its range is left out. */
module HilValidation {
  import opened Optional
  import opened HilEvidence

  const SCHEMA_VERSION: nat := 1
  const MAXIMUM_TEXT_BYTES: nat := 16_384
  const MAXIMUM_ARTIFACTS: nat := 64
  const MAXIMUM_STAGES: nat := 64
  const MAXIMUM_OPTIONS: nat := 128
  const MAXIMUM_MEASUREMENTS: nat := 128
  const MAXIMUM_TEXTS: nat := 64
  const MAXIMUM_RAW_CAPTURE_BYTES: nat := 64 * 1024 * 1024

  predicate IsBoundedText(text: string) {
    0 < |text| <= MAXIMUM_TEXT_BYTES && forall i :: 0 <= i < |text| ==> ' ' <= text[i]
  }

  predicate IsBoundedOption(text: Text) {
    text.Some? ==> IsBoundedText(text.value)
  }

  predicate IsLowerHex(text: string) {
    forall i :: 0 <= i < |text| ==> '0' <= text[i] <= '9' || 'a' <= text[i] <= 'f'
  }

  predicate IsSha256(text: string) {
    |text| == 64 && IsLowerHex(text)
  }

  predicate ValidBuild(b: HilBuildMetadata) {
    && IsBoundedText(b.utcStarted) && b.utcStarted[|b.utcStarted| - 1] == 'Z'
    && IsBoundedText(b.gitCommit) && (|b.gitCommit| == 40 || |b.gitCommit| == 64) && IsLowerHex(b.gitCommit)
    && IsBoundedText(b.compiler) && IsBoundedText(b.compilerVersion) && IsBoundedText(b.cmakePreset)
    && IsBoundedText(b.miniaudioVersion) && IsBoundedText(b.operatingSystem) && IsBoundedText(b.kernel)
    && IsBoundedText(b.architecture) && IsBoundedText(b.redactedHostIdentifier) && IsBoundedText(b.sessionPlatform)
    && IsBoundedOption(b.utcEnded) && IsBoundedOption(b.qtVersion)
    && |b.cmakeOptions| <= MAXIMUM_OPTIONS
    && (forall i :: 0 <= i < |b.cmakeOptions| ==> IsBoundedText(b.cmakeOptions[i].0) && IsBoundedText(b.cmakeOptions[i].1))
    && b.sessionPlatform in ["cli", "wayland", "xcb-xwayland", "offscreen-test"]
  }

  predicate ValidRadio(c: HilConfiguration) {
    && IsBoundedText(c.radioManufacturer) && IsBoundedText(c.radioModel) && IsBoundedText(c.audioInterface)
    && IsBoundedText(c.cabling) && IsBoundedText(c.testArrangement) && IsBoundedText(c.radioMode)
    && IsBoundedText(c.frequency) && IsBoundedText(c.power) && IsBoundedText(c.voxState)
    && IsBoundedText(c.compressorState) && IsBoundedText(c.timeoutState) && IsBoundedText(c.antennaState)
    && IsBoundedOption(c.radioFirmware)
  }

  predicate ValidPtt(c: HilConfiguration) {
    && c.pttProvider in ["mock", "flrig", "rigctld"]
    && c.pttAddress in ["127.0.0.1", "::1"]
    && c.pttPort != Some(0) && IsBoundedOption(c.flrigPath)
  }

  predicate ValidSignal(c: HilConfiguration) {
    && IsBoundedText(c.audioBackend) && IsBoundedText(c.playbackIdentity) && IsBoundedText(c.identityPersistence)
    && IsBoundedText(c.sstvMode) && IsSha256(c.fixtureSha256)
    && IsBoundedOption(c.negotiatedFormat) && IsBoundedOption(c.instrumentDescription)
    && IsBoundedOption(c.calibrationMethod)
    && c.selectedChannel < c.channelCount
    && c.durationNanoseconds > 0 && c.frameCount > 0
  }

  predicate IsKeyedStage(stage: HilStage) {
    stage.KeyedSilence? || stage.FullSstv? || stage.ControlledFault?
  }

  predicate ValidStage(r: HilStageResult) {
    && |r.cleanupErrors| <= MAXIMUM_TEXTS && |r.measurements| <= MAXIMUM_MEASUREMENTS
    && IsBoundedOption(r.startedUtc) && IsBoundedOption(r.endedUtc) && IsBoundedOption(r.skippedReason)
    && IsBoundedOption(r.primaryError) && IsBoundedOption(r.finalPttCertainty) && IsBoundedOption(r.operatorRadioState)
    && (forall i :: 0 <= i < |r.cleanupErrors| ==> IsBoundedText(r.cleanupErrors[i]))
    && (forall i :: 0 <= i < |r.measurements| ==> IsBoundedText(r.measurements[i].0) && IsBoundedOption(r.measurements[i].1))
    && (r.state.Skipped? ==> r.skippedReason.Some?)
    && (IsKeyedStage(r.stage) && r.state.Passed? ==> r.finalPttCertainty == Some("definitely-unkeyed"))
  }

  predicate ValidArtifact(a: HilArtifact) {
    && IsBoundedText(a.name) && IsSha256(a.sha256)
    && (a.containsRawAudio ==> a.bytes <= MAXIMUM_RAW_CAPTURE_BYTES)
  }

  predicate ValidEvidence(record: HilEvidenceRecord) {
    && record.schemaVersion == SCHEMA_VERSION
    && ValidBuild(record.build)
    && ValidSignal(record.configuration) && ValidRadio(record.configuration) && ValidPtt(record.configuration)
    && IsBoundedOption(record.operatorNotes)
    && |record.limitations| <= MAXIMUM_TEXTS
    && (forall i :: 0 <= i < |record.limitations| ==> IsBoundedText(record.limitations[i]))
    && 0 < |record.stages| <= MAXIMUM_STAGES && |record.artifacts| <= MAXIMUM_ARTIFACTS
    && (forall i :: 0 <= i < |record.stages| ==> ValidStage(record.stages[i]))
    && (forall i, j :: 0 <= i < j < |record.stages| ==> record.stages[i].stage != record.stages[j].stage)
    && (forall i :: 0 <= i < |record.artifacts| ==> ValidArtifact(record.artifacts[i]))
  }
}
