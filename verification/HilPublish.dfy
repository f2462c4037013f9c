/** publishHilStageResult (src/app/hil_evidence.cpp): one stage of a serialized evidence
    record is replaced in the text, and when that is the serialization of the record with
    that stage replaced. */
module HilPublish {
  import opened Optional
  import opened HilJson
  import opened HilPatch
  import opened HilEvidence
  import opened HilValidation

  const MAXIMUM_EVIDENCE_BYTES: nat := 4 * 1024 * 1024

  // ------------------------------------------------------------------ the patch text

  /** The stage result whose text serializeStagePatch writes. */
  function PatchedStage(stage: HilStage, state: HilResultState, source: HilEvidenceSource, measurements: OptionalEntries,
                        error: Text, finalPttCertainty: Text): HilStageResult {
    HilStageResult(stage, state, source, None, None, None, error, [], finalPttCertainty, measurements, None)
  }

  /** What is still to be written of a map after its first `done` entries. */
  function Remaining(entries: OptionalEntries, done: nat): string
    requires done <= |entries|
  {
    if done == 0 then PrintMembers(OptionalMap(entries), COMMA) else MoreMembers(OptionalMap(entries[done..]), COMMA)
  }

  lemma OneEntry(entries: OptionalEntries, done: nat)
    requires done < |entries|
    ensures Remaining(entries, done) ==
            (if done == 0 then "" else ",") + Quote(entries[done].0) + ":" + Print(Maybe(entries[done].1)) + Remaining(entries, done + 1)
  {
    hide Quote, Print, PrintMembers;
    var rest := entries[done..];
    assert rest[1..] == entries[done + 1..] && entries[0..] == entries;
    PrintMember(rest[0].0, Maybe(rest[0].1), OptionalMap(rest[1..]), COMMA);
    var text := Quote(rest[0].0) + ":" + Print(Maybe(rest[0].1));
    JoinText(if done == 0 then "" else ",", text, MoreMembers(OptionalMap(rest[1..]), COMMA));
    assert (if done == 0 then "" else ",") + text
        == (if done == 0 then "" else ",") + Quote(rest[0].0) + ":" + Print(Maybe(rest[0].1));
  }

  method WriteOptionalStringMap(values: OptionalEntries) returns (output: string)
    ensures output == Print(Object(OptionalMap(values)))
  {
    hide Quote, Remaining;
    output := "{";
    var isFirst := true;
    NothingRemains(values);
    for i := 0 to |values|
      invariant isFirst <==> i == 0
      invariant output + Remaining(values, i) == "{" + PrintMembers(OptionalMap(values), COMMA)
    {
      OneEntry(values, i);
      if !isFirst {
        output := output + ",";
      }
      isFirst := false;
      output := output + Quote(values[i].0) + ":" + Print(Maybe(values[i].1));
    }
    assert output + "" == output;
    output := output + "}";
  }

  lemma NothingRemains(values: OptionalEntries)
    ensures Remaining(values, |values|) == "" && Remaining(values, 0) == PrintMembers(OptionalMap(values), COMMA)
  {
    hide Quote, Print, PrintMembers;
    assert values[|values|..] == [];
    if values == [] {
      NoText(COMMA, "");
    }
  }

  /** One more member of an object being written. */
  lemma WriteMember(output: string, key: string, value: Json, tail: Members)
    requires Plain(key)
    ensures output + MoreMembers(Member(key, value, tail), COMMA)
         == output + (",\"" + key + "\":") + Print(value) + MoreMembers(tail, COMMA)
  {
    hide Print, MoreMembers;
    PlainEscapes(key);
    MoreOf(key, value, tail);
    var (q, v, m) := (",\"" + key + "\":", Print(value), MoreMembers(tail, COMMA));
    Chain(output, q, v, m, "");
    assert output + q + v + m == output + (q + v + m);
  }

  lemma MoreOf(key: string, value: Json, tail: Members)
    requires Escape(key) == key
    ensures MoreMembers(Member(key, value, tail), COMMA) == ",\"" + key + "\":" + Print(value) + MoreMembers(tail, COMMA)
  {
    PrintMember(key, value, tail, COMMA);
    MoreIs(Member(key, value, tail));
    KeyText(key);
    hide *;
    var (q, v, rest) := (Quote(key) + ":", Print(value), MoreMembers(tail, COMMA));
    JoinText(COMMA, q, v);
    JoinText(COMMA, q + v, rest);
    JoinText(COMMA, Quote(key), ":");
  }

  lemma MoreIs(members: Members)
    requires members.Member?
    ensures MoreMembers(members, COMMA) == COMMA + PrintMembers(members, COMMA)
  {
  }

  lemma KeyText(key: string)
    requires Escape(key) == key
    ensures COMMA + Quote(key) + ":" == ",\"" + key + "\":"
  {
    hide Escape;
  }

  /** Writes member `k` of those in `fields`. */
  method WriteField(output: string, key: string, value: string, ghost fields: Fields, ghost k: nat) returns (more: string)
    requires k < |fields| && Plain(key) && key == fields[k].0 && value == Print(fields[k].1)
    ensures more + MoreMembers(Pairs(fields[k + 1..], NoMembers), COMMA) == output + MoreMembers(Pairs(fields[k..], NoMembers), COMMA)
  {
    hide Print, MoreMembers;
    assert fields[k..][1..] == fields[k + 1..];
    WriteMember(output, key, fields[k].1, Pairs(fields[k + 1..], NoMembers));
    more := output + (",\"" + key + "\":") + value;
  }

  /** The members of a stage object after the first. */
  function StageRest(r: HilStageResult): (fields: Fields)
    ensures |fields| == 10
  {
    StageFields(r) + [("measurements", Object(OptionalMap(r.measurements))), ("operator_radio_state", Maybe(r.operatorRadioState))]
  }

  lemma {:induction false} PairsAppend(a: Fields, b: Fields, tail: Members)
    ensures Pairs(a + b, tail) == Pairs(a, Pairs(b, tail))
  {
    if a == [] {
      assert a + b == b;
    } else {
      assert (a + b)[1..] == a[1..] + b;
      PairsAppend(a[1..], b, tail);
    }
  }

  lemma StageOpens(r: HilStageResult)
    ensures Print(Object(StageMembers(r)))
         == "{\"stage\":" + Quote(StageName(r.stage)) + MoreMembers(Pairs(StageRest(r), NoMembers), COMMA) + "}"
  {
    hide Quote, MoreMembers, StageName, StageFields;
    var rest := [("measurements", Object(OptionalMap(r.measurements))), ("operator_radio_state", Maybe(r.operatorRadioState))];
    assert rest[1..] == [("operator_radio_state", Maybe(r.operatorRadioState))];
    assert rest[1..][1..] == [];
    assert Pairs(rest[1..], NoMembers) == Member(rest[1].0, rest[1].1, NoMembers);
    assert Pairs(rest, NoMembers) == StageEnd(r);
    PairsAppend(StageFields(r), rest, NoMembers);
    StageText(Quoted(StageName(r.stage)), Pairs(StageRest(r), NoMembers));
  }

  lemma StageText(value: Json, rest: Members)
    ensures Print(Object(Member(STAGE, value, rest))) == "{\"stage\":" + Print(value) + MoreMembers(rest, COMMA) + "}"
  {
    hide Quote, Print, PrintMembers, MoreMembers;
    var (b, v, m) := (Quote(STAGE) + ":", Print(value), MoreMembers(rest, COMMA));
    StageKey();
    PrintMember(STAGE, value, rest, COMMA);
    JoinText("{", b, v);
    JoinText("{", b + v, m);
    WholeObject(Member(STAGE, value, rest));
  }

  lemma StageKey()
    ensures "{" + (Quote(STAGE) + ":") == "{\"stage\":"
  {
    PlainEscapes(STAGE);
  }

  lemma WholeObject(members: Members)
    ensures Print(Object(members)) == "{" + PrintMembers(members, COMMA) + "}"
  {
  }

  /** A stage result that the patch can write. */
  predicate Fresh(r: HilStageResult) {
    r == PatchedStage(r.stage, r.state, r.source, r.measurements, r.primaryError, r.finalPttCertainty)
  }

  lemma FreshFields(r: HilStageResult)
    requires Fresh(r)
    ensures var f := StageRest(r);
            && f[0] == ("state", Quoted(StateName(r.state))) && f[1] == ("source", Quoted(SourceName(r.source)))
            && f[2] == ("started_utc", Scalar("null")) && f[3] == ("ended_utc", Scalar("null"))
            && f[4] == ("skipped_reason", Scalar("null")) && f[5] == ("primary_error", Maybe(r.primaryError))
            && f[6] == ("cleanup_errors", List(NoItems)) && f[7] == ("final_ptt_certainty", Maybe(r.finalPttCertainty))
            && f[8] == ("measurements", Object(OptionalMap(r.measurements)))
            && f[9] == ("operator_radio_state", Scalar("null"))
  {
    hide StateName, SourceName, OptionalMap;
  }

  lemma KeysPlain()
    ensures Plain("state") && Plain("source") && Plain("started_utc") && Plain("ended_utc") && Plain("skipped_reason")
    ensures Plain("primary_error") && Plain("cleanup_errors") && Plain("final_ptt_certainty") && Plain("measurements")
    ensures Plain("operator_radio_state")
  {
  }

  method SerializeStagePatch(stage: HilStage, state: HilResultState, source: HilEvidenceSource,
                             measurements: OptionalEntries,
                             error: Text, finalPttCertainty: Text)
    returns (text: string)
    ensures text == Print(Object(StageMembers(PatchedStage(stage, state, source, measurements, error, finalPttCertainty))))
  {
    hide *;
    ghost var r := PatchedStage(stage, state, source, measurements, error, finalPttCertainty);
    ghost var rest := StageRest(r);
    KeysPlain();
    PatchedIsFresh(stage, state, source, measurements, error, finalPttCertainty);
    FreshFields(r);
    StageOpens(r);
    assert rest[0..] == rest;
    text := "{\"stage\":" + Quote(StageName(stage));
    text := WriteField(text, "state", Print(Quoted(StateName(state))), rest, 0);
    text := WriteField(text, "source", Print(Quoted(SourceName(source))), rest, 1);
    text := WriteField(text, "started_utc", Print(Scalar("null")), rest, 2);
    text := WriteField(text, "ended_utc", Print(Scalar("null")), rest, 3);
    text := WriteField(text, "skipped_reason", Print(Scalar("null")), rest, 4);
    text := WriteField(text, "primary_error", Print(Maybe(error)), rest, 5);
    text := WriteField(text, "cleanup_errors", Print(List(NoItems)), rest, 6);
    text := WriteField(text, "final_ptt_certainty", Print(Maybe(finalPttCertainty)), rest, 7);
    var values := WriteOptionalStringMap(measurements);
    text := WriteField(text, "measurements", values, rest, 8);
    text := WriteField(text, "operator_radio_state", Print(Scalar("null")), rest, 9);
    assert rest[10..] == [];
    NothingMore();
    assert text + "" == text;
    text := text + "}";
  }

  lemma PatchedIsFresh(stage: HilStage, state: HilResultState, source: HilEvidenceSource, measurements: OptionalEntries,
                       error: Text, finalPttCertainty: Text)
    ensures var r := PatchedStage(stage, state, source, measurements, error, finalPttCertainty);
            && Fresh(r) && r.stage == stage && r.state == state && r.source == source
            && r.measurements == measurements && r.primaryError == error && r.finalPttCertainty == finalPttCertainty
  {
  }

  lemma NothingMore()
    ensures MoreMembers(Pairs([], NoMembers), COMMA) == ""
  {
  }

  // --------------------------------------------------------- which object is replaced

  /** A map whose text looks like the start of the stage's object. */
  predicate LeadsEntries(entries: Entries, name: string) {
    entries != [] && entries[0] == (STAGE, name)
  }

  predicate LeadsMeasurements(entries: OptionalEntries, name: string) {
    entries != [] && entries[0] == (STAGE, Some(name))
  }

  predicate HasStage(stages: seq<HilStageResult>, stage: HilStage) {
    stages != [] && (stages[0].stage == stage || HasStage(stages[1..], stage))
  }

  /** Some stage printed before the wanted one has such a map of measurements. */
  predicate ShadowedStages(stages: seq<HilStageResult>, stage: HilStage) {
    && stages != [] && stages[0].stage != stage
    && (LeadsMeasurements(stages[0].measurements, StageName(stage)) || ShadowedStages(stages[1..], stage))
  }

  predicate Shadowed(record: HilEvidenceRecord, stage: HilStage) {
    LeadsEntries(record.build.cmakeOptions, StageName(stage)) || ShadowedStages(record.stages, stage)
  }

  /** The stages with the first result of r's stage replaced by r. */
  function UpdateStages(stages: seq<HilStageResult>, r: HilStageResult): seq<HilStageResult> {
    if stages == [] then []
    else if stages[0].stage == r.stage then [r] + stages[1..]
    else [stages[0]] + UpdateStages(stages[1..], r)
  }

  function Update(record: HilEvidenceRecord, r: HilStageResult): HilEvidenceRecord {
    record.(stages := UpdateStages(record.stages, r))
  }

  predicate NowhereFields(fields: Fields, name: string) {
    forall i :: 0 <= i < |fields| ==> Locate(fields[i].1, name).None?
  }

  lemma {:induction false} PairsPass(fields: Fields, tail: Members, separator: string, name: string, patch: Json)
    requires NowhereFields(fields, name)
    ensures LocateMember(Pairs(fields, tail), separator, name).Some? <==> LocateMember(tail, separator, name).Some?
    ensures ReplaceMember(Pairs(fields, tail), name, patch) == Pairs(fields, ReplaceMember(tail, name, patch))
  {
    hide Locate, Print, Quote, Replace;
    if fields != [] {
      assert Locate(fields[0].1, name).None?;
      assert NowhereFields(fields[1..], name);
      PairsPass(fields[1..], tail, separator, name, patch);
    }
  }

  lemma {:induction false} StringMapPlace(entries: Entries, name: string)
    ensures LocateMember(StringMap(entries), COMMA, name).None?
  {
    if entries != [] {
      StringMapPlace(entries[1..], name);
    }
  }

  lemma {:induction false} OptionalMapPlace(entries: OptionalEntries, name: string)
    ensures LocateMember(OptionalMap(entries), COMMA, name).None?
  {
    if entries != [] {
      OptionalMapPlace(entries[1..], name);
    }
  }

  lemma {:induction false} StringsPlace(texts: seq<string>, name: string)
    ensures LocateItem(Strings(texts), name).None?
  {
    if texts != [] {
      StringsPlace(texts[1..], name);
    }
  }

  /** Something is replaced in the build data exactly when the options lead with the name. */
  lemma BuildPlace(b: HilBuildMetadata, name: string, patch: Json)
    ensures Locate(BuildJson(b), name).Some? <==> LeadsEntries(b.cmakeOptions, name)
    ensures LeadsEntries(b.cmakeOptions, name) ==>
              Replace(BuildJson(b), name, patch)
              == Object(Pairs(BuildHead(b), Member("cmake_options", patch, Pairs(BuildRest(b), NoMembers))))
  {
    hide StringMap, Pairs, Print, Quote;
    StringMapPlace(b.cmakeOptions, name);
    PairsPass(BuildRest(b), NoMembers, COMMA, name, patch);
    var options := Member("cmake_options", Object(StringMap(b.cmakeOptions)), Pairs(BuildRest(b), NoMembers));
    OptionsPlace(b.cmakeOptions, Pairs(BuildRest(b), NoMembers), name, patch);
    PairsPass(BuildHead(b), options, COMMA, name, patch);
    PairsOpen(BuildHead(b), options, name);
  }

  lemma OptionsPlace(entries: Entries, rest: Members, name: string, patch: Json)
    requires LocateMember(rest, COMMA, name).None?
    ensures var options := Member("cmake_options", Object(StringMap(entries)), rest);
            && (LocateMember(options, COMMA, name).Some? <==> LeadsEntries(entries, name))
            && (LeadsEntries(entries, name) ==> ReplaceMember(options, name, patch) == Member("cmake_options", patch, rest))
  {
    hide Print, Quote;
    StringMapPlace(entries, name);
  }

  /** An object does not open with the name when its first member is another one. */
  lemma PairsOpen(fields: Fields, tail: Members, name: string)
    requires fields != [] && fields[0].0 != STAGE
    ensures !Leads(Pairs(fields, tail), name)
  {
  }

  lemma ConfigurationPlace(c: HilConfiguration, name: string)
    ensures Locate(ConfigurationJson(c), name).None?
  {
    hide Pairs, Print, Quote, Digits;
    var signal := Pairs(SignalFields(c), NoMembers);
    var radio := Pairs(RadioFields(c), signal);
    PairsPass(SignalFields(c), NoMembers, COMMA, name, Quoted(""));
    PairsPass(RadioFields(c), signal, COMMA, name, Quoted(""));
    PairsPass(AudioFields(c), radio, COMMA, name, Quoted(""));
    PairsOpen(AudioFields(c), radio, name);
  }

  lemma {:induction false} ArtifactsPlace(artifacts: seq<HilArtifact>, name: string)
    ensures LocateItem(Artifacts(artifacts), name).None?
  {
    hide Pairs, Print, Quote, Digits;
    if artifacts != [] {
      PairsPass(ArtifactFields(artifacts[0]), NoMembers, COMMA, name, Quoted(""));
      PairsOpen(ArtifactFields(artifacts[0]), NoMembers, name);
      ArtifactsPlace(artifacts[1..], name);
    }
  }

  lemma MeasurementsPlace(r: HilStageResult, name: string, patch: Json)
    ensures LocateMember(StageEnd(r), COMMA, name).Some? <==> LeadsMeasurements(r.measurements, name)
    ensures LeadsMeasurements(r.measurements, name) ==>
              ReplaceMember(StageEnd(r), name, patch)
              == Member("measurements", patch, Member("operator_radio_state", Maybe(r.operatorRadioState), NoMembers))
  {
    hide Print, Quote, OptionalMap, Replace;
    var last := Member("operator_radio_state", Maybe(r.operatorRadioState), NoMembers);
    assert Locate(last.value, name).None? && LocateMember(NoMembers, COMMA, name).None?;
    assert LocateMember(last, COMMA, name).None?;
    MapPlace(r.measurements, name, patch);
    FirstPlace("measurements", Object(OptionalMap(r.measurements)), last, COMMA, name, patch);
  }

  lemma MapPlace(entries: OptionalEntries, name: string, patch: Json)
    ensures Locate(Object(OptionalMap(entries)), name).Some? <==> LeadsMeasurements(entries, name)
    ensures LeadsMeasurements(entries, name) ==> Replace(Object(OptionalMap(entries)), name, patch) == patch
  {
    hide Print, Quote;
    OptionalMapPlace(entries, name);
  }

  lemma FirstPlace(key: string, value: Json, tail: Members, separator: string, name: string, patch: Json)
    ensures LocateMember(Member(key, value, tail), separator, name).Some?
       <==> Locate(value, name).Some? || LocateMember(tail, separator, name).Some?
    ensures ReplaceMember(Member(key, value, tail), name, patch) ==
            if Locate(value, name).Some? then Member(key, Replace(value, name, patch), tail)
            else Member(key, value, ReplaceMember(tail, name, patch))
  {
  }

  /** In a stage object: the object itself when it is the stage, else its measurements. */
  lemma StagePlace(r: HilStageResult, name: string, patch: Json)
    ensures Locate(Object(StageMembers(r)), name).Some? <==> StageName(r.stage) == name || LeadsMeasurements(r.measurements, name)
    ensures StageName(r.stage) == name ==> Replace(Object(StageMembers(r)), name, patch) == patch
    ensures StageName(r.stage) != name && LeadsMeasurements(r.measurements, name) ==>
              Replace(Object(StageMembers(r)), name, patch)
              == Object(Member(STAGE, Quoted(StageName(r.stage)), Pairs(StageFields(r),
                   Member("measurements", patch, Member("operator_radio_state", Maybe(r.operatorRadioState), NoMembers)))))
  {
    hide Pairs, Print, Quote, StageName, StateName, SourceName, StageEnd;
    StringsPlace(r.cleanupErrors, name);
    MeasurementsPlace(r, name, patch);
    PairsPass(StageFields(r), StageEnd(r), COMMA, name, patch);
    FirstPlace(STAGE, Quoted(StageName(r.stage)), Pairs(StageFields(r), StageEnd(r)), COMMA, name, patch);
  }

  /** Members without lists or objects among their values. */
  predicate AllFlat(members: Members) {
    members.Member? ==> Flat(members.value) && AllFlat(members.tail)
  }

  lemma {:induction false} StringMapFlat(entries: Entries)
    ensures AllFlat(StringMap(entries))
  {
    if entries != [] {
      StringMapFlat(entries[1..]);
    }
  }

  lemma {:induction false} OptionalMapFlat(entries: OptionalEntries)
    ensures AllFlat(OptionalMap(entries))
  {
    if entries != [] {
      OptionalMapFlat(entries[1..]);
    }
  }

  lemma {:induction false} PairsFlat(fields: Fields, tail: Members, k: nat)
    requires AllFlat(Pairs(fields, tail)) && k < |fields|
    ensures Flat(fields[k].1)
  {
    if k > 0 {
      PairsFlat(fields[1..], tail, k - 1);
    }
  }

  /** A stage's object is no map of strings. */
  lemma StageIsNoMap(r: HilStageResult)
    ensures !AllFlat(StageMembers(r))
  {
    hide StageName, StateName, SourceName, StageEnd;
    if AllFlat(Pairs(StageFields(r), StageEnd(r))) {
      PairsFlat(StageFields(r), StageEnd(r), 6);
    }
  }

  lemma {:induction false} PairsSame(a: Fields, b: Fields, x: Members, y: Members)
    requires |a| == |b| && Pairs(a, x) == Pairs(b, y)
    ensures x == y
  {
    if a != [] {
      PairsSame(a[1..], b[1..], x, y);
    }
  }

  /** A stage object whose measurements were overwritten is no stage's object. */
  lemma SpoiledStage(s: HilStageResult, t: HilStageResult, r: HilStageResult, last: Members)
    ensures Object(Member(STAGE, Quoted(StageName(s.stage)), Pairs(StageFields(s), Member("measurements", Object(StageMembers(r)), last))))
         != Object(StageMembers(t))
  {
    hide Pairs, StageName, StateName, SourceName;
    var spoiled := Member("measurements", Object(StageMembers(r)), last);
    if Pairs(StageFields(s), spoiled) == Pairs(StageFields(t), StageEnd(t)) {
      PairsSame(StageFields(s), StageFields(t), spoiled, StageEnd(t));
      StageIsNoMap(r);
      OptionalMapFlat(t.measurements);
    }
  }

  lemma {:induction false} StagesPlace(stages: seq<HilStageResult>, r: HilStageResult)
    ensures LocateItem(Stages(stages), StageName(r.stage)).Some? <==> HasStage(stages, r.stage) || ShadowedStages(stages, r.stage)
    ensures HasStage(stages, r.stage) && !ShadowedStages(stages, r.stage) ==>
              ReplaceItem(Stages(stages), StageName(r.stage), Object(StageMembers(r))) == Stages(UpdateStages(stages, r))
  {
    hide StageMembers, StageName, Print;
    if stages != [] {
      StagePlace(stages[0], StageName(r.stage), Object(StageMembers(r)));
      StageNamesDiffer(stages[0].stage, r.stage);
      StagesPlace(stages[1..], r);
      var updated := UpdateStages(stages, r);
      assert stages[0].stage == r.stage ==> updated[1..] == stages[1..];
      assert stages[0].stage != r.stage ==> updated[1..] == UpdateStages(stages[1..], r);
    }
  }

  lemma {:induction false} SpoiledStages(stages: seq<HilStageResult>, r: HilStageResult, others: seq<HilStageResult>)
    requires ShadowedStages(stages, r.stage)
    ensures ReplaceItem(Stages(stages), StageName(r.stage), Object(StageMembers(r))) != Stages(others)
  {
    hide StageMembers, StageName, Print;
    var (name, patch) := (StageName(r.stage), Object(StageMembers(r)));
    StagePlace(stages[0], name, patch);
    StageNamesDiffer(stages[0].stage, r.stage);
    if others != [] {
      if LeadsMeasurements(stages[0].measurements, name) {
        SpoiledStage(stages[0], others[0], r, Member("operator_radio_state", Maybe(stages[0].operatorRadioState), NoMembers));
      } else {
        SpoiledStages(stages[1..], r, others[1..]);
      }
    }
  }

  lemma SpoiledBuild(b: HilBuildMetadata, other: HilBuildMetadata, r: HilStageResult)
    ensures Object(Pairs(BuildHead(b), Member("cmake_options", Object(StageMembers(r)), Pairs(BuildRest(b), NoMembers))))
         != BuildJson(other)
  {
    hide Pairs;
    var x := Member("cmake_options", Object(StageMembers(r)), Pairs(BuildRest(b), NoMembers));
    var y := Member("cmake_options", Object(StringMap(other.cmakeOptions)), Pairs(BuildRest(other), NoMembers));
    if Pairs(BuildHead(b), x) == Pairs(BuildHead(other), y) {
      PairsSame(BuildHead(b), BuildHead(other), x, y);
      StageIsNoMap(r);
      StringMapFlat(other.cmakeOptions);
    }
  }

  lemma EndPlace(record: HilEvidenceRecord, digest: string, name: string)
    ensures LocateMember(RecordEnd(record, digest), NEW_LINE, name).None?
  {
    hide Print, Quote, Artifacts, Strings, LocateMember;
    ArtifactsPlace(record.artifacts, name);
    StringsPlace(record.limitations, name);
    var end := RecordEnd(record, digest);
    var (limitations, notes, last) := (end.tail, end.tail.tail, end.tail.tail.tail);
    FirstPlace(end.key, end.value, limitations, NEW_LINE, name, Quoted(""));
    FirstPlace(limitations.key, limitations.value, notes, NEW_LINE, name, Quoted(""));
    FirstPlace(notes.key, notes.value, last, NEW_LINE, name, Quoted(""));
    FirstPlace(last.key, last.value, NoMembers, NEW_LINE, name, Quoted(""));
    EmptyPlace(name);
  }

  lemma EmptyPlace(name: string)
    ensures LocateMember(NoMembers, NEW_LINE, name).None?
  {
  }

  /** The document that the patch makes of a record's document. */
  lemma RecordPlace(record: HilEvidenceRecord, digest: string, r: HilStageResult)
    ensures Locate(JsonOf(record, digest), StageName(r.stage)).Some? <==> HasStage(record.stages, r.stage) || Shadowed(record, r.stage)
    ensures Replace(JsonOf(record, digest), StageName(r.stage), Object(StageMembers(r))) ==
            var (name, patch) := (StageName(r.stage), Object(StageMembers(r)));
            var (build, stages) := (BuildJson(record.build), Stages(record.stages));
            var spoilt := LeadsEntries(record.build.cmakeOptions, name);
            Document(Member("schema_version", Number(record.schemaVersion),
                            Member("build", if spoilt then Replace(build, name, patch) else build,
                                   Member("configuration", ConfigurationJson(record.configuration),
                                          if spoilt then Member("stages", List(stages), RecordEnd(record, digest))
                                          else if LocateItem(stages, name).Some? then
                                            Member("stages", List(ReplaceItem(stages, name, patch)), RecordEnd(record, digest))
                                          else
                                            ReplaceMember(Member("stages", List(stages), RecordEnd(record, digest)), name, patch)))))
  {
    hide BuildJson, ConfigurationJson, Stages, RecordEnd, StageMembers, StageName, Print, Quote, Digits, LocateMember;
    hide ReplaceMember, LocateItem, ReplaceItem;
    var (name, patch) := (StageName(r.stage), Object(StageMembers(r)));
    BuildPlace(record.build, name, patch);
    ConfigurationPlace(record.configuration, name);
    StagesPlace(record.stages, r);
    EndPlace(record, digest, name);
    var stages := Member("stages", List(Stages(record.stages)), RecordEnd(record, digest));
    FirstPlace(stages.key, stages.value, stages.tail, NEW_LINE, name, patch);
    var configuration := Member("configuration", ConfigurationJson(record.configuration), stages);
    FirstPlace(configuration.key, configuration.value, stages, NEW_LINE, name, patch);
    var build := Member("build", BuildJson(record.build), configuration);
    FirstPlace(build.key, build.value, configuration, NEW_LINE, name, patch);
    FirstPlace("schema_version", Number(record.schemaVersion), build, NEW_LINE, name, patch);
  }

  lemma SpoiltRecord(record: HilEvidenceRecord, digest: string, r: HilStageResult, other: HilEvidenceRecord,
                     otherDigest: string)
    requires Shadowed(record, r.stage)
    ensures Replace(JsonOf(record, digest), StageName(r.stage), Object(StageMembers(r))) != JsonOf(other, otherDigest)
  {
    hide ConfigurationJson, RecordEnd, StageMembers, StageName, Digits, Replace, Stages, BuildJson, ReplaceMember;
    var name := StageName(r.stage);
    RecordPlace(record, digest, r);
    if LeadsEntries(record.build.cmakeOptions, name) {
      BuildPlace(record.build, name, Object(StageMembers(r)));
      SpoiledBuild(record.build, other.build, r);
    } else {
      StagesPlace(record.stages, r);
      SpoiledStages(record.stages, r, other.stages);
    }
  }

  function PatchStage(text: string, r: HilStageResult): PatchResult {
    PatchText(text, StageName(r.stage), Print(Object(StageMembers(r))))
  }

  /** Patching one stage's text gives the serialization of the record with that stage
      replaced exactly when the record has the stage and no map printed before it leads
      with the stage's name; with such a map the patch overwrites the map, and what is left
      is no record's serialization. */
  lemma PatchUpdates(record: HilEvidenceRecord, digest: string, r: HilStageResult)
    requires Printable(record)
    ensures var result := PatchStage(Serialize(record, digest), r);
            && (!Shadowed(record, r.stage) && HasStage(record.stages, r.stage) ==>
                  result == Patched(Serialize(Update(record, r), digest)))
            && (!Shadowed(record, r.stage) && !HasStage(record.stages, r.stage) ==> result == Missing)
            && (Shadowed(record, r.stage) ==>
                  result.Patched? && forall other, otherDigest :: Printable(other) ==> result.text != Serialize(other, otherDigest))
  {
    hide JsonOf, StageMembers, StageName, Print, Replace, Locate, PatchText, Shadowed, HasStage;
    var (document, name, patch) := (JsonOf(record, digest), StageName(r.stage), Object(StageMembers(r)));
    RecordValid(record, digest);
    StageValid(r);
    PatchReplaces(document, name, patch);
    Replaced(record, digest, r);
    if Shadowed(record, r.stage) {
      ReplaceValid(document, name, patch);
      forall other, otherDigest | Printable(other) ensures Print(Replace(document, name, patch)) != Serialize(other, otherDigest) {
        NoRecord(record, digest, r, other, otherDigest);
      }
    }
  }

  lemma Replaced(record: HilEvidenceRecord, digest: string, r: HilStageResult)
    ensures Locate(JsonOf(record, digest), StageName(r.stage)).Some? <==> HasStage(record.stages, r.stage) || Shadowed(record, r.stage)
    ensures HasStage(record.stages, r.stage) && !Shadowed(record, r.stage) ==>
              Replace(JsonOf(record, digest), StageName(r.stage), Object(StageMembers(r))) == JsonOf(Update(record, r), digest)
  {
    hide ConfigurationJson, RecordEnd, StageMembers, StageName, Digits, Replace, Locate, Stages, BuildJson, ReplaceMember;
    RecordPlace(record, digest, r);
    StagesPlace(record.stages, r);
    SameEnd(record, r, digest);
  }

  lemma SameEnd(record: HilEvidenceRecord, r: HilStageResult, digest: string)
    ensures RecordEnd(Update(record, r), digest) == RecordEnd(record, digest)
  {
  }

  lemma NoRecord(record: HilEvidenceRecord, digest: string, r: HilStageResult, other: HilEvidenceRecord,
                 otherDigest: string)
    requires Shadowed(record, r.stage) && Printable(record) && Printable(other)
    ensures Print(Replace(JsonOf(record, digest), StageName(r.stage), Object(StageMembers(r)))) != Serialize(other, otherDigest)
  {
    hide JsonOf, StageMembers, StageName, Print, Replace, Locate, Shadowed;
    var (a, b) := (Replace(JsonOf(record, digest), StageName(r.stage), Object(StageMembers(r))), JsonOf(other, otherDigest));
    RecordValid(record, digest);
    RecordValid(other, otherDigest);
    StageValid(r);
    ReplaceValid(JsonOf(record, digest), StageName(r.stage), Object(StageMembers(r)));
    SpoiltRecord(record, digest, r, other, otherDigest);
    if Print(a) == Print(b) {
      assert Print(a) + "" == Print(b) + "";
      PrintOnce(a, b, "", "");
    }
  }

  /** No map of the record starts with the key "stage". */
  predicate NoStageKeys(record: HilEvidenceRecord) {
    && (record.build.cmakeOptions == [] || record.build.cmakeOptions[0].0 != STAGE)
    && forall i :: 0 <= i < |record.stages| ==> NoStageKey(record.stages[i])
  }

  predicate NoStageKey(r: HilStageResult) {
    r.measurements == [] || r.measurements[0].0 != STAGE
  }

  lemma {:induction false} Unshadowed(stages: seq<HilStageResult>, stage: HilStage)
    requires forall i :: 0 <= i < |stages| ==> NoStageKey(stages[i])
    ensures !ShadowedStages(stages, stage)
  {
    if stages != [] {
      assert NoStageKey(stages[0]);
      Unshadowed(stages[1..], stage);
    }
  }

  lemma {:induction false} UpdateKeeps(stages: seq<HilStageResult>, r: HilStageResult, stage: HilStage)
    requires NoStageKey(r) && forall i :: 0 <= i < |stages| ==> NoStageKey(stages[i])
    ensures |UpdateStages(stages, r)| == |stages|
    ensures forall i :: 0 <= i < |stages| ==> NoStageKey(UpdateStages(stages, r)[i])
    ensures HasStage(UpdateStages(stages, r), stage) <==> HasStage(stages, stage)
  {
    if stages != [] {
      UpdateKeeps(stages[1..], r, stage);
      var updated := UpdateStages(stages, r);
      assert updated[1..] == if stages[0].stage == r.stage then stages[1..] else UpdateStages(stages[1..], r);
      forall i | 0 <= i < |stages| ensures NoStageKey(updated[i]) {
        assert i > 0 ==> updated[i] == updated[1..][i - 1];
      }
    }
  }

  function UpdateAll(record: HilEvidenceRecord, updates: seq<HilStageResult>): HilEvidenceRecord
    decreases |updates|
  {
    if updates == [] then record else UpdateAll(Update(record, updates[0]), updates[1..])
  }

  // ------------------------------------------------------------------ the row of the table

  function RowMarker(stage: HilStage): string {
    "| " + StageName(stage) + " |"
  }

  function Row(stage: HilStage, state: HilResultState, source: HilEvidenceSource): string {
    "| " + StageName(stage) + " | " + StateName(state) + " | " + SourceName(source) + " | unknown |"
  }

  /** The table with the line that starts at the first marker of the stage replaced. */
  function PatchRow(markdown: string, stage: HilStage, state: HilResultState, source: HilEvidenceSource): Text {
    match Find(markdown, RowMarker(stage))
    case None => None
    case Some(start) =>
      var rest := match Find(markdown[start..], "\n") case None => "" case Some(length) => markdown[start + length..];
      Some(markdown[..start] + Row(stage, state, source) + rest)
  }

  method ReplaceRow(markdown: string, stage: HilStage, state: HilResultState, source: HilEvidenceSource)
    returns (result: Text)
    ensures result == PatchRow(markdown, stage, state, source)
    ensures result.None? <==> forall i :: 0 <= i <= |markdown| ==> !(RowMarker(stage) <= markdown[i..])
  {
    hide Find, RowMarker, Row;
    var start := FindMarker(markdown, RowMarker(stage));
    if start.None? {
      return None;
    }
    var length := FindMarker(markdown[start.value..], "\n");
    var rest := if length.None? then "" else markdown[start.value + length.value..];
    result := Some(markdown[..start.value] + Row(stage, state, source) + rest);
  }

  // -------------------------------------------------------------------- publication

  datatype Publication =
    | Published(json: string, markdown: string)
    | InvalidStage
    | StageMissing
    | RowMissing
    | PublicationFailure

  /** What becomes of the two texts when r is published for its stage. */
  function Publish(json: string, markdown: string, r: HilStageResult): Publication {
    if |json| > MAXIMUM_EVIDENCE_BYTES then PublicationFailure
    else
      match PatchStage(json, r)
      case Missing => StageMissing
      case Truncated => PublicationFailure
      case Patched(text) =>
        if |markdown| > MAXIMUM_EVIDENCE_BYTES then PublicationFailure
        else
          match PatchRow(markdown, r.stage, r.state, r.source)
          case None => RowMissing
          case Some(rows) => Published(text, rows)
  }

  function PublishAll(json: string, markdown: string, updates: seq<HilStageResult>): Publication
    decreases |updates|
  {
    if updates == [] then Published(json, markdown)
    else
      match Publish(json, markdown, updates[0])
      case Published(text, rows) => PublishAll(text, rows, updates[1..])
      case refused => refused
  }

  /** Every text that is read on the way is within the size limit. */
  predicate JsonFits(record: HilEvidenceRecord, digest: string, updates: seq<HilStageResult>)
    decreases |updates|
  {
    updates == [] || (|Serialize(record, digest)| <= MAXIMUM_EVIDENCE_BYTES && JsonFits(Update(record, updates[0]), digest, updates[1..]))
  }

  /** ... and the table, within the limit too, has a row for every stage in turn. */
  predicate RowsFit(markdown: string, updates: seq<HilStageResult>)
    decreases |updates|
  {
    updates == []
    || (|markdown| <= MAXIMUM_EVIDENCE_BYTES
        && var rows := PatchRow(markdown, updates[0].stage, updates[0].state, updates[0].source);
        rows.Some? && RowsFit(rows.value, updates[1..]))
  }

  /** Any number of publications keep the text the serialization of the updated record; they
      fail exactly for a text that became too long or a missing row. */
  lemma {:induction false} PatchesUpdate(record: HilEvidenceRecord, digest: string, markdown: string,
                                         updates: seq<HilStageResult>)
    requires Printable(record) && NoStageKeys(record)
    requires forall i :: 0 <= i < |updates| ==> NoStageKey(updates[i]) && HasStage(record.stages, updates[i].stage)
    ensures var result := PublishAll(Serialize(record, digest), markdown, updates);
            && (result.Published? <==> JsonFits(record, digest, updates) && RowsFit(markdown, updates))
            && (result.Published? ==> result.json == Serialize(UpdateAll(record, updates), digest))
    decreases |updates|
  {
    hide Serialize, PatchStage, HasStage, ShadowedStages, PatchRow;
    if updates != [] {
      var r := updates[0];
      assert NoStageKey(r) && HasStage(record.stages, r.stage);
      Unshadowed(record.stages, r.stage);
      PatchUpdates(record, digest, r);
      var next := Update(record, r);
      forall i | 0 <= i < |updates[1..]|
        ensures NoStageKey(updates[1..][i]) && HasStage(next.stages, updates[1..][i].stage)
      {
        assert updates[1..][i] == updates[i + 1];
        UpdateKeeps(record.stages, r, updates[i + 1].stage);
      }
      UpdateKeeps(record.stages, r, r.stage);
      var rows := PatchRow(markdown, r.stage, r.state, r.source);
      if rows.Some? {
        PatchesUpdate(next, digest, rows.value, updates[1..]);
      }
    }
  }

  /** publishHilStageResult, on the texts of the two files. */
  method PublishStageResult(json: string, markdown: string, stage: HilStage, state: HilResultState,
                            source: HilEvidenceSource, measurements: OptionalEntries, error: Text,
                            finalPttCertainty: Text)
    returns (result: Publication)
    ensures result.InvalidStage? <==> stage.Manifest? || IsKeyedStage(stage)
    ensures !result.InvalidStage? ==>
              result == Publish(json, markdown, PatchedStage(stage, state, source, measurements, error, finalPttCertainty))
  {
    hide StageMembers, Print, PatchText, PatchRow;
    if stage.Manifest? || IsKeyedStage(stage) {
      return InvalidStage;
    }
    if |json| > MAXIMUM_EVIDENCE_BYTES {
      return PublicationFailure;
    }
    var replacement := SerializeStagePatch(stage, state, source, measurements, error, finalPttCertainty);
    var patched := Patch(json, StageName(stage), replacement);
    match patched {
      case Missing => result := StageMissing;
      case Truncated => result := PublicationFailure;
      case Patched(text) =>
        if |markdown| > MAXIMUM_EVIDENCE_BYTES {
          return PublicationFailure;
        }
        var rows := ReplaceRow(markdown, stage, state, source);
        result := if rows.None? then RowMissing else Published(text, rows.value);
    }
  }

  // ------------------------------------------------------------- a record that fails

  const HEX := "0123456789abcdef"
  const COMMIT := HEX + HEX + "01234567"
  const FIXTURE := HEX + HEX + (HEX + HEX)

  const BUILD := HilBuildMetadata("2026-01-01T00:00:00Z", None, COMMIT, false, "g++", "14", "debug",
                                  [(STAGE, "discovery")], "0.11", None, "linux", "6", "x86_64", "host", "cli")

  const CONFIGURATION := HilConfiguration(
    "alsa", "hw:0", "stable", false, 0, 1, None, None, None, None, "mock", "127.0.0.1", None, None, "maker", "model", None,
    "usb", "shielded", "bench", "usb", "14.230", "5", "off", "off", "off", "load", "martin-m1", FIXTURE, false, 1, 1, "-12",
    0, 0, None, None, None)

  const NOT_RUN := PatchedStage(Discovery, NotRun, NotMeasured, [], None, None)
  const PASSED := PatchedStage(Discovery, Passed, AutomaticallyMeasured, [], None, None)
  const RECORD := HilEvidenceRecord(1, BUILD, CONFIGURATION, [NOT_RUN], [], [], None)

  lemma HashesAreValid()
    ensures IsLowerHex(COMMIT) && |COMMIT| == 40 && IsBoundedText(COMMIT) && IsSha256(FIXTURE)
  {
    assert IsLowerHex(HEX) && |HEX| == 16;
    assert IsLowerHex("01234567") && |"01234567"| == 8;
    HexJoins(HEX, HEX);
    HexJoins(HEX + HEX, "01234567");
    HexJoins(HEX + HEX, HEX + HEX);
    HexIsBounded(COMMIT);
  }

  lemma HexJoins(a: string, b: string)
    requires IsLowerHex(a) && IsLowerHex(b)
    ensures IsLowerHex(a + b) && |a + b| == |a| + |b|
  {
  }

  lemma HexIsBounded(text: string)
    requires IsLowerHex(text) && 0 < |text| <= MAXIMUM_TEXT_BYTES
    ensures IsBoundedText(text)
  {
  }

  lemma BuildIsValid()
    ensures ValidBuild(BUILD)
  {
    HashesAreValid();
    hide IsLowerHex;
  }

  lemma RadioIsValid()
    ensures ValidRadio(CONFIGURATION) && ValidPtt(CONFIGURATION)
  {
  }

  lemma SignalIsValid()
    ensures ValidSignal(CONFIGURATION)
  {
    HashesAreValid();
    hide IsSha256;
  }

  lemma RecordIsValid()
    ensures ValidEvidence(RECORD) && ValidStage(PASSED) && Printable(RECORD)
  {
    BuildIsValid();
    RadioIsValid();
    SignalIsValid();
    hide ValidBuild, ValidRadio, ValidPtt, ValidSignal, IsBoundedText;
  }

  /** A valid record whose build option named "stage" has the value "discovery": the option
      takes the patch meant for the discovery stage, and the text that is published is the
      serialization of no record. */
  lemma OptionIsOverwritten(digest: string)
    ensures ValidEvidence(RECORD) && ValidStage(PASSED) && HasStage(RECORD.stages, PASSED.stage)
    ensures var result := PatchStage(Serialize(RECORD, digest), PASSED);
            && result.Patched?
            && forall other, otherDigest :: Printable(other) ==> result.text != Serialize(other, otherDigest)
  {
    hide Serialize, PatchStage;
    RecordIsValid();
    hide ValidEvidence, ValidStage;
    PatchUpdates(RECORD, digest, PASSED);
  }
}
