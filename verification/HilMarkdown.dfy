/** serializeHilEvidenceMarkdown (src/app/hil_evidence.cpp), and when replacing a stage's row
    in its table gives the table of the updated record. */
module HilMarkdown {
  import opened Optional
  import opened HilJson
  import opened HilPatch
  import opened HilEvidence
  import opened HilValidation
  import opened HilPublish

  // -------------------------------------------------------------------- the document

  function OrUnknown(text: Text): string {
    if text.Some? then text.value else "unknown"
  }

  function Port(port: Option<nat>): string {
    if port.Some? then Digits(port.value) else "unknown"
  }

  /** Everything before the first row. */
  function Head(record: HilEvidenceRecord): string {
    HeadText(record.schemaVersion, record.build, record.configuration)
  }

  function HeadText(version: nat, b: HilBuildMetadata, c: HilConfiguration): string {
    "# M2J HIL Evidence\n\n"
    + "Schema: " + Digits(version) + "  \n"
    + "Commit: `" + b.gitCommit + "`  \n"
    + "Dirty worktree: " + (if b.isDirtyWorktree then "yes" else "no") + "  \n"
    + "Session: " + b.sessionPlatform + "  \n"
    + "Mode: " + c.sstvMode + "  \n"
    + "Fixture SHA-256: `" + c.fixtureSha256 + "`\n\n"
    + "## Configuration\n\n"
    + "- Audio backend: " + c.audioBackend + "\n"
    + "- Playback identity: `" + c.playbackIdentity + "`\n"
    + "- Channel: " + Digits(c.selectedChannel) + " of " + Digits(c.channelCount) + "\n"
    + "- PTT provider: " + c.pttProvider + "\n"
    + "- PTT provider version: " + OrUnknown(c.pttProviderVersion) + "\n"
    + "- PTT endpoint: " + c.pttAddress + ":" + Port(c.pttPort) + "\n"
    + "- Radio: " + c.radioManufacturer + " " + c.radioModel + "\n"
    + "- Test arrangement: " + c.testArrangement + "\n\n"
    + "## Stages\n\n"
    + "| Stage | Result | Evidence | Final PTT certainty |\n"
    + "| --- | --- | --- | --- |\n"
  }

  function RowLine(r: HilStageResult): string {
    RowMarker(r.stage) + " " + StateName(r.state) + " | " + SourceName(r.source) + " | " + OrUnknown(r.finalPttCertainty) + " |\n"
  }

  function RowLines(stages: seq<HilStageResult>): string {
    if stages == [] then "" else RowLine(stages[0]) + RowLines(stages[1..])
  }

  function Bullets(texts: seq<string>): string {
    if texts == [] then "" else "- " + texts[0] + "\n" + Bullets(texts[1..])
  }

  function Foot(record: HilEvidenceRecord): string {
    "\n## Limitations\n\n" + Bullets(record.limitations)
  }

  function Markdown(record: HilEvidenceRecord): string {
    Head(record) + RowLines(record.stages) + Foot(record)
  }

  // --------------------------------------------------------------- searching by lines

  predicate IsLine(text: string) {
    text != "" && text[|text| - 1] == '\n' && '\n' !in text[..|text| - 1]
  }

  /** Whole lines, or nothing. */
  predicate EndsLine(text: string) {
    text != "" ==> text[|text| - 1] == '\n'
  }

  lemma AcrossLines(a: string, b: string, marker: string)
    requires EndsLine(a) && a != "" && marker <= a + b && |marker| > |a|
    ensures '\n' in marker
  {
    assert marker[|a| - 1] == (a + b)[|a| - 1] == a[|a| - 1];
  }

  lemma WithinLines(a: string, b: string, marker: string)
    requires EndsLine(a) && a != "" && '\n' !in marker
    ensures marker <= a + b <==> marker <= a
  {
    if marker <= a + b {
      if |marker| > |a| {
        AcrossLines(a, b, marker);
      } else {
        assert marker == (a + b)[..|marker|] == a[..|marker|];
      }
    }
    if marker <= a {
      assert marker == a[..|marker|] == (a + b)[..|marker|];
    }
  }

  /** A search for something within one line looks at whole lines separately. */
  lemma {:induction false} FindInLines(a: string, b: string, marker: string)
    requires EndsLine(a) && marker != "" && '\n' !in marker
    ensures Find(a + b, marker) == if Find(a, marker).Some? then Find(a, marker) else Shift(|a|, Find(b, marker))
    ensures Find(a, marker).Some? ==> Find(a, marker).value < |a|
  {
    if a == "" {
      assert a + b == b;
    } else {
      assert (a + b)[1..] == a[1..] + b;
      WithinLines(a, b, marker);
      FindInLines(a[1..], b, marker);
    }
  }

  /** The end of the line that a position lies in. */
  lemma {:induction false} FindLineEnd(a: string, b: string)
    requires EndsLine(a) && a != ""
    ensures var m := Find(a + b, "\n");
            m.Some? && m.value < |a| && (a + b)[m.value] == '\n' && '\n' !in (a + b)[..m.value]
  {
    assert (a + b)[1..] == a[1..] + b;
    if "\n" <= a + b {
      assert "\n"[0] == (a + b)[0];
    }
    if a[0] == '\n' {
      assert (a + b)[..1] == "\n";
    }
    if a[0] != '\n' {
      FindLineEnd(a[1..], b);
      var m := Find(a[1..] + b, "\n").value;
      assert (a + b)[..m + 1] == [a[0]] + (a[1..] + b)[..m];
    }
  }

  lemma LongerLine(u: string, a: string, v: string, b: string)
    requires EndsLine(u) && u + a == v + b && |a| < |b|
    ensures a != "" ==> '\n' in b[..|b| - 1]
  {
    var k := |u| - 1 - |v|;
    assert |u| > |v| && u[|u| - 1] == (u + a)[|u| - 1] == (v + b)[|u| - 1] == b[k];
    assert a != "" ==> b[..|b| - 1][k] == b[k];
  }

  /** Texts of whole lines have their last line in common only as a whole. */
  lemma LastLine(u: string, a: string, v: string, b: string)
    requires EndsLine(u) && EndsLine(v) && IsLine(a) && IsLine(b) && u + a == v + b
    ensures a == b
  {
    if |a| < |b| {
      LongerLine(u, a, v, b);
    } else if |b| < |a| {
      LongerLine(v, b, u, a);
    } else {
      assert a == (u + a)[|u|..] && b == (v + b)[|v|..];
    }
  }

  // -------------------------------------------------------------- the row of a stage

  /** The stages before the first result of a stage. */
  function Before(stages: seq<HilStageResult>, stage: HilStage): (before: seq<HilStageResult>)
    ensures |before| <= |stages| && (HasStage(stages, stage) ==> |before| < |stages|)
  {
    if stages == [] || stages[0].stage == stage then [] else [stages[0]] + Before(stages[1..], stage)
  }

  /** Nothing printed for the record breaks a row into lines. */
  predicate OneLineRows(stages: seq<HilStageResult>) {
    forall i :: 0 <= i < |stages| ==> '\n' !in OrUnknown(stages[i].finalPttCertainty)
  }

  predicate Contains(text: string, marker: string) {
    Find(text, marker).Some?
  }

  /** The marker of the stage's row also occurs in what is printed before that row. */
  predicate RowShadowed(record: HilEvidenceRecord, stage: HilStage) {
    var before := Before(record.stages, stage);
    Contains(Head(record), RowMarker(stage)) || exists i :: 0 <= i < |before| && Contains(RowLine(before[i]), RowMarker(stage))
  }

  lemma {:induction false} StagesSplit(stages: seq<HilStageResult>, r: HilStageResult)
    requires HasStage(stages, r.stage)
    ensures var k := |Before(stages, r.stage)|;
            && k < |stages| && stages[k].stage == r.stage && stages[..k] == Before(stages, r.stage)
            && UpdateStages(stages, r) == stages[..k] + [r] + stages[k + 1..]
  {
    if stages[0].stage != r.stage {
      StagesSplit(stages[1..], r);
    }
  }

  lemma {:induction false} RowsJoin(a: seq<HilStageResult>, b: seq<HilStageResult>)
    ensures RowLines(a + b) == RowLines(a) + RowLines(b)
  {
    hide RowLine;
    if a == [] {
      assert a + b == b;
    } else {
      assert (a + b)[1..] == a[1..] + b;
      RowsJoin(a[1..], b);
    }
  }

  lemma {:induction false} RowsEndLine(stages: seq<HilStageResult>)
    ensures EndsLine(RowLines(stages))
  {
    if stages != [] {
      RowsEndLine(stages[1..]);
    }
  }

  lemma {:induction false} FindInRows(stages: seq<HilStageResult>, marker: string)
    requires marker != "" && '\n' !in marker
    ensures Contains(RowLines(stages), marker) <==> exists i :: 0 <= i < |stages| && Contains(RowLine(stages[i]), marker)
  {
    hide RowLine;
    if stages != [] {
      RowEndsLine(stages[0]);
      FindInRows(stages[1..], marker);
      FindInLines(RowLine(stages[0]), RowLines(stages[1..]), marker);
      if i :| 0 <= i < |stages[1..]| && Contains(RowLine(stages[1..][i]), marker) {
        assert Contains(RowLine(stages[i + 1]), marker);
      }
      if i :| 0 < i < |stages| && Contains(RowLine(stages[i]), marker) {
        assert Contains(RowLine(stages[1..][i - 1]), marker);
      }
    } else {
      NothingContains(marker);
    }
  }

  lemma NothingContains(marker: string)
    requires marker != ""
    ensures !Contains("", marker)
  {
  }

  lemma RowEndsLine(r: HilStageResult)
    ensures EndsLine(RowLine(r))
  {
  }

  lemma HeadEndsLine(record: HilEvidenceRecord)
    ensures EndsLine(Head(record)) && Head(record) != ""
  {
    hide Digits, OrUnknown, Port;
  }

  lemma MarkerOneLine(stage: HilStage)
    ensures '\n' !in RowMarker(stage) && RowMarker(stage) != ""
  {
  }

  lemma RowOneLine(r: HilStageResult)
    requires '\n' !in OrUnknown(r.finalPttCertainty)
    ensures IsLine(RowLine(r)) && RowMarker(r.stage) <= RowLine(r)
  {
    NamesOneLine(r.stage, r.state, r.source);
    var text := RowMarker(r.stage) + " " + StateName(r.state) + " | " + SourceName(r.source) + " | " + OrUnknown(r.finalPttCertainty) + " |";
    assert RowLine(r) == text + "\n" && RowLine(r)[..|text|] == text;
    hide RowMarker, StateName, SourceName, OrUnknown;
  }

  lemma NamesOneLine(stage: HilStage, state: HilResultState, source: HilEvidenceSource)
    ensures '\n' !in RowMarker(stage) && '\n' !in StateName(state) && '\n' !in SourceName(source)
  {
    MarkerOneLine(stage);
    hide RowMarker;
  }

  /** The row that the patch writes is that of a result without a PTT certainty. */
  lemma WrittenRow(r: HilStageResult)
    ensures Row(r.stage, r.state, r.source) + "\n" == RowLine(r) <==> OrUnknown(r.finalPttCertainty) == "unknown"
  {
    var (front, certainty) := (RowMarker(r.stage) + " " + StateName(r.state) + " | " + SourceName(r.source) + " | ",
                               OrUnknown(r.finalPttCertainty));
    RowParts(r.stage, r.state, r.source);
    assert RowLine(r) == front + (certainty + " |\n");
    hide RowLine, Row, RowMarker, StateName, SourceName, OrUnknown;
    if front + ("unknown" + " |\n") == front + (certainty + " |\n") {
      SameTail(front, "unknown" + " |\n", certainty + " |\n");
      SameFront("unknown", certainty, " |\n");
    }
  }

  lemma RowParts(stage: HilStage, state: HilResultState, source: HilEvidenceSource)
    ensures Row(stage, state, source) + "\n"
         == (RowMarker(stage) + " " + StateName(state) + " | " + SourceName(source) + " | ") + ("unknown" + " |\n")
  {
    hide StageName, StateName, SourceName;
  }

  lemma SameTail(front: string, a: string, b: string)
    requires front + a == front + b
    ensures a == b
  {
    assert a == (front + a)[|front|..] && b == (front + b)[|front|..];
  }

  lemma SameFront(a: string, b: string, tail: string)
    requires a + tail == b + tail
    ensures a == b
  {
    assert |a| == |a + tail| - |tail| == |b|;
    assert a == (a + tail)[..|a|] && b == (b + tail)[..|b|];
  }

  /** The first marker is that of the row. */
  lemma PatchHere(b: string, l: string, a: string, stage: HilStage, state: HilResultState, source: HilEvidenceSource)
    requires EndsLine(b) && IsLine(l) && RowMarker(stage) <= l && !Contains(b, RowMarker(stage))
    ensures PatchRow(b + (l + a), stage, state, source) == Some(b + ((Row(stage, state, source) + "\n") + a))
  {
    hide Find, RowMarker, Row, PatchRow, EndsLine;
    var text := b + (l + a);
    assert Find(text, RowMarker(stage)) == Some(|b|) by {
      MarkerOneLine(stage);
      FoundFirst(b, l, a, RowMarker(stage));
    }
    assert Find(text[|b|..], "\n") == Some(|l| - 1) by {
      LineEndsIn(b, l, a);
    }
    PatchAt(text, |b|, |l| - 1, stage, state, source);
    Spliced(b, l, a, Row(stage, state, source));
  }

  lemma LineEndsIn(b: string, l: string, a: string)
    requires IsLine(l)
    ensures Find((b + (l + a))[|b|..], "\n") == Some(|l| - 1)
  {
    LineEndsAt(l, a);
    assert (b + (l + a))[|b|..] == l + a;
  }

  /** A line's text replaced in its place. */
  lemma Spliced(b: string, l: string, a: string, row: string)
    requires IsLine(l)
    ensures var text := b + (l + a); text[..|b|] + row + text[|b| + (|l| - 1)..] == b + ((row + "\n") + a)
  {
    LineEndsAt(l, a);
    hide *;
    Drop(b, l + a, |l| - 1);
    JoinText(b, row, "\n" + a);
    JoinText(row, "\n", a);
  }

  lemma FoundFirst(b: string, l: string, a: string, marker: string)
    requires EndsLine(b) && marker <= l && !Contains(b, marker) && marker != "" && '\n' !in marker
    ensures Find(b + (l + a), marker) == Some(|b|)
  {
    FindInLines(b, l + a, marker);
    assert marker == l[..|marker|] == (l + a)[..|marker|];
  }

  lemma LineEndsAt(l: string, a: string)
    requires IsLine(l)
    ensures Find(l + a, "\n") == Some(|l| - 1) && (l + a)[|l| - 1..] == "\n" + a
  {
    FindLineEnd(l, a);
    hide Find;
    var m := Find(l + a, "\n").value;
    assert l[m] == (l + a)[m];
    InsideLine(l, m);
  }

  lemma InsideLine(l: string, m: nat)
    requires IsLine(l)
    ensures m < |l| - 1 ==> l[m] != '\n'
  {
    if m < |l| - 1 {
      assert l[m] == l[..|l| - 1][m];
    }
  }

  lemma Drop(b: string, c: string, n: nat)
    requires n <= |c|
    ensures (b + c)[..|b|] == b && (b + c)[|b| + n..] == c[n..]
  {
  }

  lemma PatchAt(text: string, start: nat, m: nat, stage: HilStage, state: HilResultState, source: HilEvidenceSource)
    requires Find(text, RowMarker(stage)) == Some(start) && start <= |text|
    requires Find(text[start..], "\n") == Some(m) && start + m <= |text|
    ensures PatchRow(text, stage, state, source) == Some(text[..start] + Row(stage, state, source) + text[start + m..])
  {
    hide Find, RowMarker, Row;
  }

  /** A marker before the row takes the patch; the row itself stays. */
  lemma PatchElsewhere(b: string, l: string, a: string, stage: HilStage, state: HilResultState, source: HilEvidenceSource)
    returns (v: string)
    requires EndsLine(b) && Contains(b, RowMarker(stage))
    ensures PatchRow(b + (l + a), stage, state, source) == Some(v + (l + a)) && EndsLine(v)
  {
    MarkerOneLine(stage);
    hide RowMarker, Row, PatchRow;
    var (text, marker, row) := (b + (l + a), RowMarker(stage), Row(stage, state, source));
    FindInLines(b, l + a, marker);
    var start := Find(b, marker).value;
    FindLineEnd(b[start..], l + a);
    hide Find;
    Cut(b, l + a, start);
    var m := Find(text[start..], "\n").value;
    PatchAt(text, start, m, stage, state, source);
    var y := b[start + m..];
    Cut(b, l + a, start + m);
    v := text[..start] + row + y;
    JoinText(text[..start] + row, y, l + a);
  }

  lemma Cut(b: string, c: string, n: nat)
    requires n <= |b|
    ensures (b + c)[n..] == b[n..] + c
  {
  }

  lemma SameFrame(record: HilEvidenceRecord, r: HilStageResult)
    ensures Head(Update(record, r)) == Head(record) && Foot(Update(record, r)) == Foot(record)
  {
    hide HeadText, Bullets;
  }

  /** The first result of r's stage, what precedes it, and what follows it. */
  predicate IsAround(record: HilEvidenceRecord, r: HilStageResult, before: seq<HilStageResult>, was: HilStageResult,
                     after: seq<HilStageResult>) {
    record.stages == before + ([was] + after) && Update(record, r).stages == before + ([r] + after)
  }

  lemma StagesAround(record: HilEvidenceRecord, r: HilStageResult)
    returns (before: seq<HilStageResult>, was: HilStageResult, after: seq<HilStageResult>)
    requires HasStage(record.stages, r.stage)
    ensures before == Before(record.stages, r.stage) && was == record.stages[|before|]
    ensures IsAround(record, r, before, was, after)
  {
    StagesSplit(record.stages, r);
    hide UpdateStages, HasStage;
    before := Before(record.stages, r.stage);
    was, after := record.stages[|before|], record.stages[|before| + 1..];
    assert before + [r] + after == before + ([r] + after);
  }

  /** The documents around the stage's row. */
  lemma MarkdownSplit(record: HilEvidenceRecord, r: HilStageResult) returns (b: string, a: string)
    requires HasStage(record.stages, r.stage)
    ensures var was := record.stages[|Before(record.stages, r.stage)|];
            && Markdown(record) == b + (RowLine(was) + a) && Markdown(Update(record, r)) == b + (RowLine(r) + a)
    ensures EndsLine(b) && (Contains(b, RowMarker(r.stage)) <==> RowShadowed(record, r.stage))
  {
    hide *;
    var before, was, after := StagesAround(record, r);
    ShadowedBefore(record, r.stage, before);
    b, a := Head(record) + RowLines(before), RowLines(after) + Foot(record);
    BothDocuments(record, r, before, was, after);
  }

  lemma BothDocuments(record: HilEvidenceRecord, r: HilStageResult, before: seq<HilStageResult>, was: HilStageResult,
                      after: seq<HilStageResult>)
    requires IsAround(record, r, before, was, after)
    ensures var (b, a) := (Head(record) + RowLines(before), RowLines(after) + Foot(record));
            Markdown(record) == b + (RowLine(was) + a) && Markdown(Update(record, r)) == b + (RowLine(r) + a)
  {
    MarkdownParts(record, before, was, after);
    MarkdownParts(Update(record, r), before, r, after);
    SameFrame(record, r);
    hide Head, Foot, RowLine, RowLines, Markdown;
  }

  lemma ShadowedBefore(record: HilEvidenceRecord, stage: HilStage, before: seq<HilStageResult>)
    requires before == Before(record.stages, stage)
    ensures var b := Head(record) + RowLines(before);
            EndsLine(b) && (Contains(b, RowMarker(stage)) <==> RowShadowed(record, stage))
  {
    hide Head, RowLine, RowMarker, RowLines, Find;
    HeadEndsLine(record);
    MarkerOneLine(stage);
    RowsEndLine(before);
    FindInLines(Head(record), RowLines(before), RowMarker(stage));
    FindInRows(before, RowMarker(stage));
  }

  lemma MarkdownParts(record: HilEvidenceRecord, before: seq<HilStageResult>, r: HilStageResult, after: seq<HilStageResult>)
    requires record.stages == before + ([r] + after)
    ensures Markdown(record) == (Head(record) + RowLines(before)) + (RowLine(r) + (RowLines(after) + Foot(record)))
  {
    hide Head, Foot, RowLine, RowLines;
    RowsAround(before, r, after);
    Around(Head(record), RowLines(before), RowLine(r), RowLines(after), Foot(record));
  }

  lemma RowsAround(before: seq<HilStageResult>, r: HilStageResult, after: seq<HilStageResult>)
    ensures RowLines(before + ([r] + after)) == RowLines(before) + (RowLine(r) + RowLines(after))
  {
    hide RowLine;
    RowsJoin(before, [r] + after);
    assert ([r] + after)[1..] == after;
  }

  lemma Around(h: string, x: string, l: string, y: string, f: string)
    ensures h + (x + (l + y)) + f == (h + x) + (l + (y + f))
  {
    assert h + (x + (l + y)) + f == h + x + l + y + f;
    assert (h + x) + (l + (y + f)) == h + x + l + y + f;
  }

  /** Replacing the row gives the table of the updated record exactly if the marker occurs
      nowhere before the row and the result has no PTT certainty to show: the patch always
      writes "unknown". With an earlier marker, a row that had to change has not. */
  lemma RowUpdates(record: HilEvidenceRecord, r: HilStageResult)
    requires HasStage(record.stages, r.stage) && OneLineRows(record.stages) && '\n' !in OrUnknown(r.finalPttCertainty)
    ensures var (was, result) := (record.stages[|Before(record.stages, r.stage)|],
                                  PatchRow(Markdown(record), r.stage, r.state, r.source));
            && result.Some?
            && (!RowShadowed(record, r.stage) ==>
                  (result.value == Markdown(Update(record, r)) <==> OrUnknown(r.finalPttCertainty) == "unknown"))
            && (RowShadowed(record, r.stage) && RowLine(was) != RowLine(r) ==> result.value != Markdown(Update(record, r)))
  {
    hide Markdown, PatchRow, RowShadowed, RowLine, RowMarker, Row, OrUnknown;
    StagesSplit(record.stages, r);
    var was := record.stages[|Before(record.stages, r.stage)|];
    var b, a := MarkdownSplit(record, r);
    RowOneLine(was);
    RowOneLine(r);
    WrittenRow(r);
    if RowShadowed(record, r.stage) {
      var v := PatchElsewhere(b, RowLine(was), a, r.stage, r.state, r.source);
      if v + (RowLine(was) + a) == b + (RowLine(r) + a) {
        SameRows(v, RowLine(was), b, RowLine(r), a);
      }
    } else {
      PatchHere(b, RowLine(was), a, r.stage, r.state, r.source);
      var written := Row(r.stage, r.state, r.source) + "\n";
      if b + (written + a) == b + (RowLine(r) + a) {
        SameTail(b, written + a, RowLine(r) + a);
        SameFront(written, RowLine(r), a);
      }
    }
  }

  lemma SameRows(v: string, l: string, b: string, k: string, a: string)
    requires EndsLine(v) && EndsLine(b) && IsLine(l) && IsLine(k) && v + (l + a) == b + (k + a)
    ensures l == k
  {
    assert (v + l) + a == v + (l + a) && (b + k) + a == b + (k + a);
    SameFront(v + l, b + k, a);
    LastLine(v, l, b, k);
  }

  // ------------------------------------------------------------- a row that is taken

  const MANIFEST := PatchedStage(Manifest, NotRun, NotMeasured, [], None, Some("discovery"))
  const TAKEN := RECORD.(stages := [MANIFEST, NOT_RUN])

  lemma {:induction false} FoundSomewhere(text: string, marker: string, i: nat)
    requires i <= |text| && marker <= text[i..]
    ensures Contains(text, marker)
  {
    if i > 0 {
      assert text[1..][i - 1..] == text[i..];
      FoundSomewhere(text[1..], marker, i - 1);
    } else {
      assert text[0..] == text;
    }
  }

  /** A PTT certainty that is the name of a stage takes the row of that stage. */
  lemma CertaintyTakes(r: HilStageResult, stage: HilStage)
    requires OrUnknown(r.finalPttCertainty) == StageName(stage)
    ensures Contains(RowLine(r), RowMarker(stage))
  {
    hide StageName, StateName, SourceName, OrUnknown, Find;
    var front := RowMarker(r.stage) + " " + StateName(r.state) + " | " + SourceName(r.source) + " ";
    assert RowLine(r) == front + (RowMarker(stage) + "\n");
    assert RowLine(r)[|front|..] == RowMarker(stage) + "\n";
    assert RowMarker(stage) == (RowMarker(stage) + "\n")[..|RowMarker(stage)|];
    FoundSomewhere(RowLine(r), RowMarker(stage), |front|);
  }

  lemma TakenIsShadowed()
    ensures RowShadowed(TAKEN, Discovery)
  {
    hide RowLine, RowMarker, Head, Contains;
    CertaintyTakes(MANIFEST, Discovery);
    assert TAKEN.stages[1..] == [NOT_RUN];
    assert Before(TAKEN.stages, Discovery) == [MANIFEST];
    assert Contains(RowLine([MANIFEST][0]), RowMarker(Discovery));
  }

  /** A valid record in which the certainty "discovery" of the manifest takes the row of the
      discovery stage. */
  lemma RowIsTaken()
    ensures ValidEvidence(TAKEN) && ValidStage(PASSED) && HasStage(TAKEN.stages, Discovery)
    ensures var result := PatchRow(Markdown(TAKEN), Discovery, PASSED.state, PASSED.source);
            result.Some? && result.value != Markdown(Update(TAKEN, PASSED))
  {
    hide Markdown, PatchRow, RowShadowed;
    RecordIsValid();
    TakenIsValid();
    TakenIsShadowed();
    assert Before(TAKEN.stages, Discovery) == [MANIFEST] by {
      assert TAKEN.stages[1..] == [NOT_RUN];
    }
    assert RowLine(NOT_RUN)[14] != RowLine(PASSED)[14];
    RowUpdates(TAKEN, PASSED);
  }

  lemma TakenIsValid()
    requires ValidEvidence(RECORD)
    ensures ValidEvidence(TAKEN)
  {
    hide ValidBuild, ValidSignal, ValidRadio, ValidPtt;
  }
}
