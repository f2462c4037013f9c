/** rigctld reply framing (src/rig/rigctld_codec.cpp) and the loopback receive loop
    (src/rig/loopback_tcp.cpp). Characters stand for bytes. */
module RigctldCodec {
  import opened Ptt

  datatype Limits = Limits(maximumResponseBytes: nat, maximumLineBytes: nat, maximumResponseLines: nat)

  datatype FrameStatus = Incomplete | Complete | Malformed

  // ---------------------------------------------------------------------- integers

  datatype ParsedInteger = NoInteger | Integer(value: int)

  predicate IsDigit(c: char) {
    '0' <= c <= '9'
  }

  predicate AllDigits(text: string) {
    forall i :: 0 <= i < |text| ==> IsDigit(text[i])
  }

  function DigitsValue(text: string): nat
    requires AllDigits(text)
  {
    if text == "" then 0 else 10 * DigitsValue(text[..|text| - 1]) + (text[|text| - 1] as int - '0' as int)
  }

  /** A 32-bit integer with an optional minus sign and nothing else around it. */
  function ParseInteger(text: string): ParsedInteger {
    var negative := text != "" && text[0] == '-';
    var digits := if negative then text[1..] else text;
    if digits == "" || !AllDigits(digits) then NoInteger
    else
      var magnitude: int := DigitsValue(digits);
      var value := if negative then -magnitude else magnitude;
      if -0x8000_0000 <= value <= 0x7FFF_FFFF then Integer(value) else NoInteger
  }

  function PrintNatural(n: nat): (text: string)
    ensures text != "" && AllDigits(text)
  {
    var last := [(n % 10 + '0' as int) as char];
    if n < 10 then last else PrintNatural(n / 10) + last
  }

  function PrintInteger(n: int): string {
    if n < 0 then "-" + PrintNatural(-n) else PrintNatural(n)
  }

  lemma {:induction false} NaturalRoundTrip(n: nat)
    ensures DigitsValue(PrintNatural(n)) == n
  {
    var text := PrintNatural(n);
    if n >= 10 {
      NaturalRoundTrip(n / 10);
      assert text[..|text| - 1] == PrintNatural(n / 10);
    } else {
      assert text[..0] == "";
    }
  }

  lemma IntegerRoundTrip(n: int)
    requires -0x8000_0000 <= n <= 0x7FFF_FFFF
    ensures ParseInteger(PrintInteger(n)) == Integer(n)
  {
    if n < 0 {
      NaturalRoundTrip(-n);
      assert PrintInteger(n)[1..] == PrintNatural(-n);
    } else {
      NaturalRoundTrip(n);
      assert IsDigit(PrintNatural(n)[0]);
    }
  }

  // ------------------------------------------------------------------------- lines

  /** Lines that have ended, and the beginning of one that has not. */
  datatype Split = Split(lines: seq<string>, rest: string)

  function SplitLines(text: string): Split {
    if text == "" then Split([], "")
    else
      var prior := SplitLines(text[..|text| - 1]);
      var last := text[|text| - 1];
      if last == '\n' then Split(prior.lines + [prior.rest], "") else Split(prior.lines, prior.rest + [last])
  }

  predicate AllowedByte(c: char) {
    c == '\n' || ' ' <= c <= '~'
  }

  predicate ValidBytes(text: string, limits: Limits) {
    |text| <= limits.maximumResponseBytes && forall i :: 0 <= i < |text| ==> AllowedByte(text[i])
  }

  predicate WithinLimits(s: Split, limits: Limits) {
    && |s.lines| <= limits.maximumResponseLines
    && (forall i :: 0 <= i < |s.lines| ==> |s.lines[i]| <= limits.maximumLineBytes)
    && |s.rest| <= limits.maximumLineBytes
  }

  // ------------------------------------------------------------------------ framing

  predicate StartsWith(text: string, start: string) {
    start <= text
  }

  function IntegerAfter(line: string, start: nat): ParsedInteger
    requires start <= |line|
  {
    ParseInteger(line[start..])
  }

  function ExpectedHeader(action: PttAction): string {
    match action
    case Query => "get_ptt:"
    case Key => "set_ptt: 1"
    case Unkey => "set_ptt: 0"
  }

  function BuildCommand(action: PttAction): string {
    match action
    case Query => "+t\n"
    case Key => "+T 1\n"
    case Unkey => "+T 0\n"
  }

  /** What the second line of a query reply promises: its number of lines, or nothing. */
  function QueryLines(line: string): nat {
    if StartsWith(line, "RPRT ") then
      var code := IntegerAfter(line, 5);
      if code.Integer? && code.value < 0 then 2 else 0
    else if StartsWith(line, "PTT: ") then
      var value := IntegerAfter(line, 5);
      if value.Integer? && 0 <= value.value <= 3 then 3 else 0
    else 0
  }

  function ExpectedLines(lines: seq<string>, action: PttAction): nat {
    if !action.Query? then 2 else if |lines| < 2 then 3 else QueryLines(lines[1])
  }

  predicate GoodTerminator(line: string) {
    StartsWith(line, "RPRT ") && IntegerAfter(line, 5).Integer? && IntegerAfter(line, 5).value <= 0
  }

  function InspectSplit(s: Split, action: PttAction): FrameStatus {
    if s.lines != [] && s.lines[0] != ExpectedHeader(action) then Malformed
    else
      var expected := ExpectedLines(s.lines, action);
      if expected == 0 then Malformed
      else if |s.lines| < expected then Incomplete
      else if |s.lines| > expected || s.rest != "" then Malformed
      else if GoodTerminator(s.lines[|s.lines| - 1]) then Complete
      else Malformed
  }

  function Inspect(text: string, action: PttAction, limits: Limits): FrameStatus {
    var s := SplitLines(text);
    if !ValidBytes(text, limits) || !WithinLimits(s, limits) then Malformed else InspectSplit(s, action)
  }

  // ---------------------------------------------------------------- one byte further

  lemma SplitSnoc(text: string, c: char)
    ensures var (s, t) := (SplitLines(text), SplitLines(text + [c]));
            t == if c == '\n' then Split(s.lines + [s.rest], "") else Split(s.lines, s.rest + [c])
  {
    assert (text + [c])[..|text|] == text;
  }

  lemma LimitsStay(text: string, c: char, limits: Limits)
    ensures !ValidBytes(text, limits) ==> !ValidBytes(text + [c], limits)
    ensures !WithinLimits(SplitLines(text), limits) ==> !WithinLimits(SplitLines(text + [c]), limits)
  {
    SplitSnoc(text, c);
    var (s, t) := (SplitLines(text), SplitLines(text + [c]));
    if !ValidBytes(text, limits) && |text| <= limits.maximumResponseBytes {
      var i :| 0 <= i < |text| && !AllowedByte(text[i]);
      assert (text + [c])[i] == text[i];
    }
    if !WithinLimits(s, limits) {
      if i :| 0 <= i < |s.lines| && |s.lines[i]| > limits.maximumLineBytes {
        assert t.lines[i] == s.lines[i];
      } else if |s.rest| > limits.maximumLineBytes && c == '\n' {
        assert t.lines[|s.lines|] == s.rest;
      }
    }
  }

  lemma StructureStays(s: Split, t: Split, action: PttAction, c: char)
    requires t == if c == '\n' then Split(s.lines + [s.rest], "") else Split(s.lines, s.rest + [c])
    requires !InspectSplit(s, action).Incomplete?
    ensures InspectSplit(t, action).Malformed?
  {
    hide QueryLines, GoodTerminator;
    if s.lines != [] {
      assert t.lines[0] == s.lines[0];
    }
    if |s.lines| >= 2 {
      assert t.lines[1] == s.lines[1];
    }
  }

  /** Nothing that is complete or malformed can be continued: one more byte is malformed. */
  lemma DecidedStays(text: string, c: char, action: PttAction, limits: Limits)
    requires !Inspect(text, action, limits).Incomplete?
    ensures Inspect(text + [c], action, limits).Malformed?
  {
    hide InspectSplit, SplitLines, ValidBytes, WithinLimits;
    LimitsStay(text, c, limits);
    SplitSnoc(text, c);
    if ValidBytes(text, limits) && WithinLimits(SplitLines(text), limits) {
      StructureStays(SplitLines(text), SplitLines(text + [c]), action, c);
    }
  }

  lemma {:induction false} ExtensionMalformed(text: string, more: string, action: PttAction, limits: Limits)
    requires !Inspect(text, action, limits).Incomplete? && more != ""
    ensures Inspect(text + more, action, limits).Malformed?
    decreases |more|
  {
    hide Inspect;
    var shorter := more[..|more| - 1];
    assert text + more == text + shorter + [more[|more| - 1]];
    if shorter == "" {
      assert text + shorter == text;
    } else {
      ExtensionMalformed(text, shorter, action, limits);
    }
    DecidedStays(text + shorter, more[|more| - 1], action, limits);
  }

  /** Complete replies are prefix-free: every proper prefix of one is incomplete, without
      error, and every extension is malformed. */
  lemma PrefixFree(reply: string, n: nat, more: string, action: PttAction, limits: Limits)
    requires Inspect(reply, action, limits).Complete? && n < |reply| && more != ""
    ensures Inspect(reply[..n], action, limits).Incomplete?
    ensures Inspect(reply + more, action, limits).Malformed?
  {
    hide Inspect;
    ExtensionMalformed(reply, more, action, limits);
    if !Inspect(reply[..n], action, limits).Incomplete? {
      assert reply[..n] + reply[n..] == reply;
      ExtensionMalformed(reply[..n], reply[n..], action, limits);
    }
  }

  // ------------------------------------------------------------------------ the code

  method ValidateBytes(text: string, limits: Limits) returns (ok: bool)
    ensures ok == ValidBytes(text, limits)
  {
    if |text| > limits.maximumResponseBytes {
      return false;
    }
    for i := 0 to |text|
      invariant forall k :: 0 <= k < i ==> AllowedByte(text[k])
    {
      if !AllowedByte(text[i]) {
        return false;
      }
    }
    ok := true;
  }

  method FindNewline(text: string, start: nat) returns (end: nat)
    requires start <= |text|
    ensures start <= end <= |text|
    ensures end < |text| ==> text[end] == '\n'
    ensures forall k :: start <= k < end ==> text[k] != '\n'
  {
    end := start;
    while end < |text| && text[end] != '\n'
      invariant start <= end <= |text|
      invariant forall k :: start <= k < end ==> text[k] != '\n'
    {
      end := end + 1;
    }
  }

  lemma {:induction false} SplitStretch(text: string, start: nat, end: nat)
    requires start <= end <= |text| && forall k :: start <= k < end ==> text[k] != '\n'
    requires SplitLines(text[..start]).rest == ""
    ensures SplitLines(text[..end]) == Split(SplitLines(text[..start]).lines, text[start..end])
    decreases end - start
  {
    if start < end {
      SplitStretch(text, start, end - 1);
      assert text[..end] == text[..end - 1] + [text[end - 1]];
      SplitSnoc(text[..end - 1], text[end - 1]);
    }
  }

  lemma {:induction false} LinesOnlyGrow(text: string, n: nat, limits: Limits)
    requires n <= |text| && !WithinLimits(SplitLines(text[..n]), limits)
    ensures !WithinLimits(SplitLines(text), limits)
    decreases |text| - n
  {
    if n == |text| {
      assert text[..n] == text;
    } else {
      LimitsStay(text[..n], text[n], limits);
      assert text[..n] + [text[n]] == text[..n + 1];
      LinesOnlyGrow(text, n + 1, limits);
    }
  }

  /** Collects the complete lines, unless a line or their number exceeds its limit. */
  method CollectLines(text: string, limits: Limits) returns (ok: bool, lines: seq<string>)
    ensures ok == WithinLimits(SplitLines(text), limits)
    ensures ok ==> lines == SplitLines(text).lines
  {
    EmptySplit();
    assert WithinLimits(Split([], ""), limits);
    hide WithinLimits, SplitLines;
    var start := 0;
    lines := [];
    while start < |text|
      invariant start <= |text| && SplitLines(text[..start]) == Split(lines, "")
      invariant WithinLimits(Split(lines, ""), limits)
      decreases |text| - start
    {
      var end := FindNewline(text, start);
      SplitStretch(text, start, end);
      StretchLimit(Split(lines, text[start..end]), limits);
      if end - start > limits.maximumLineBytes {
        LinesOnlyGrow(text, end, limits);
        return false, lines;
      }
      if end == |text| {
        assert text[..end] == text;
        return true, lines;
      }
      LineEnds(text, start, end);
      CountLimit(lines, text[start..end], limits);
      lines := lines + [text[start..end]];
      if |lines| > limits.maximumResponseLines {
        LinesOnlyGrow(text, end + 1, limits);
        return false, lines;
      }
      start := end + 1;
    }
    assert text[..start] == text;
    ok := true;
  }

  lemma LineEnds(text: string, start: nat, end: nat)
    requires start <= end < |text| && text[end] == '\n' && SplitLines(text[..end]).rest == text[start..end]
    ensures SplitLines(text[..end + 1]) == Split(SplitLines(text[..end]).lines + [text[start..end]], "")
  {
    SplitSnoc(text[..end], '\n');
    assert text[..end] + ['\n'] == text[..end + 1];
  }

  lemma StretchLimit(s: Split, limits: Limits)
    requires WithinLimits(Split(s.lines, ""), limits)
    ensures WithinLimits(s, limits) <==> |s.rest| <= limits.maximumLineBytes
  {
  }

  lemma CountLimit(lines: seq<string>, line: string, limits: Limits)
    requires WithinLimits(Split(lines, line), limits)
    ensures WithinLimits(Split(lines + [line], ""), limits) <==> |lines| + 1 <= limits.maximumResponseLines
  {
  }

  method InspectResponse(text: string, action: PttAction, limits: Limits) returns (status: FrameStatus)
    ensures status == Inspect(text, action, limits)
  {
    hide ValidBytes, WithinLimits, QueryLines, GoodTerminator;
    var bytesOk := ValidateBytes(text, limits);
    if !bytesOk {
      return Malformed;
    }
    var linesOk, lines := CollectLines(text, limits);
    if !linesOk {
      return Malformed;
    }
    if lines != [] && lines[0] != ExpectedHeader(action) {
      return Malformed;
    }
    var expected := if action.Query? then 3 else 2;
    if action.Query? && |lines| >= 2 {
      expected := QueryLines(lines[1]);
      if expected == 0 {
        return Malformed;
      }
    }
    if |lines| < expected {
      return Incomplete;
    }
    EndsWithNewline(text);
    if |lines| > expected || text == "" || text[|text| - 1] != '\n' {
      return Malformed;
    }
    status := if GoodTerminator(lines[|lines| - 1]) then Complete else Malformed;
  }

  lemma EndsWithNewline(text: string)
    ensures SplitLines(text).rest == "" <==> text == "" || text[|text| - 1] == '\n'
  {
  }

  // ------------------------------------------------------------------------- parsing

  datatype Response = Response(resultCode: int, state: PttObservedState)

  datatype ParseResult = Parsed(response: Response) | ParseFailed

  function Parse(text: string, action: PttAction, limits: Limits): (result: ParseResult)
    ensures result.Parsed? <==> Inspect(text, action, limits).Complete?
  {
    if !Inspect(text, action, limits).Complete? then ParseFailed
    else
      var lines := SplitLines(text).lines;
      var code := IntegerAfter(lines[|lines| - 1], 5).value;
      if !action.Query? || code != 0 then Parsed(Response(code, Unknown))
      else
        QuerySuccess(lines);
        Parsed(Response(0, if IntegerAfter(lines[1], 5).value == 0 then Unkeyed else Keyed))
  }

  /** A complete query reply with result zero has a PTT field. */
  lemma QuerySuccess(lines: seq<string>)
    requires InspectSplit(Split(lines, ""), Query).Complete? && IntegerAfter(lines[|lines| - 1], 5).value == 0
    ensures |lines| == 3 && StartsWith(lines[1], "PTT: ") && IntegerAfter(lines[1], 5).Integer?
    ensures 0 <= IntegerAfter(lines[1], 5).value <= 3
  {
  }

  // ------------------------------------------------------------------------ a printer

  /** How rigctld reports an error or an acknowledgement. */
  function PrintCode(action: PttAction, code: int): string {
    ExpectedHeader(action) + "\n" + "RPRT " + PrintInteger(code) + "\n"
  }

  /** How rigctld reports a PTT state. */
  function PrintState(ptt: nat): string {
    "get_ptt:" + "\n" + "PTT: " + PrintInteger(ptt) + "\n" + "RPRT " + PrintInteger(0) + "\n"
  }

  lemma {:induction false} SplitAppendLine(text: string, line: string)
    requires SplitLines(text).rest == "" && '\n' !in line
    ensures SplitLines(text + line + "\n") == Split(SplitLines(text).lines + [line], "")
  {
    var whole := text + line + "\n";
    assert whole[..|text|] == text && whole[|text|..|text| + |line|] == line;
    forall k | |text| <= k < |text| + |line| ensures whole[k] != '\n' {
      assert whole[k] == line[k - |text|];
    }
    SplitStretch(whole, |text|, |text| + |line|);
    SplitSnoc(whole[..|text| + |line|], '\n');
    assert whole[..|text| + |line|] + ['\n'] == whole;
  }

  lemma NoNewline(n: int)
    ensures '\n' !in PrintInteger(n) && '\n' !in "RPRT " + PrintInteger(n) && '\n' !in "PTT: " + PrintInteger(n)
  {
    var digits := if n < 0 then PrintNatural(-n) else PrintNatural(n);
    assert '\n' !in digits;
  }

  lemma PrintedLine(prefix: string, n: int)
    requires |prefix| == 5 && -0x8000_0000 <= n <= 0x7FFF_FFFF
    ensures IntegerAfter(prefix + PrintInteger(n), 5) == Integer(n) && StartsWith(prefix + PrintInteger(n), prefix)
  {
    IntegerRoundTrip(n);
    assert (prefix + PrintInteger(n))[5..] == PrintInteger(n);
  }

  /** Parsing inverts printing: an acknowledgement or error code. */
  lemma ParsesCode(action: PttAction, code: int, limits: Limits)
    requires -0x8000_0000 <= code && (if action.Query? then code < 0 else code <= 0)
    requires ValidBytes(PrintCode(action, code), limits) && WithinLimits(SplitLines(PrintCode(action, code)), limits)
    ensures Parse(PrintCode(action, code), action, limits) == Parsed(Response(code, Unknown))
  {
    hide ValidBytes, WithinLimits, PrintInteger, ParseInteger;
    var header, line := ExpectedHeader(action), "RPRT " + PrintInteger(code);
    NoNewline(code);
    PrintedLine("RPRT ", code);
    EmptySplit();
    SplitAppendLine("", header);
    assert "" + header + "\n" == header + "\n";
    SplitAppendLine(header + "\n", line);
    assert PrintCode(action, code) == header + "\n" + line + "\n";
    hide SplitLines, PrintCode;
    CodeLines(header, line, action, code);
  }

  lemma CodeLines(header: string, line: string, action: PttAction, code: int)
    requires header == ExpectedHeader(action) && (if action.Query? then code < 0 else code <= 0)
    requires StartsWith(line, "RPRT ") && IntegerAfter(line, 5) == Integer(code)
    ensures InspectSplit(Split([header, line], ""), action).Complete?
  {
    hide IntegerAfter;
  }

  /** ... and a PTT state: zero is unkeyed, one to three are keyed. */
  lemma ParsesState(ptt: nat, limits: Limits)
    requires ptt <= 3
    requires ValidBytes(PrintState(ptt), limits) && WithinLimits(SplitLines(PrintState(ptt)), limits)
    ensures Parse(PrintState(ptt), Query, limits) == Parsed(Response(0, if ptt == 0 then Unkeyed else Keyed))
  {
    hide ValidBytes, WithinLimits, PrintInteger, ParseInteger;
    PrintStateSplit(ptt);
    NoNewline(ptt);
    PrintedLine("PTT: ", ptt);
    PrintedLine("RPRT ", 0);
    hide SplitLines, PrintState;
    StateLines("PTT: " + PrintInteger(ptt), "RPRT " + PrintInteger(0), ptt);
  }

  lemma PrintStateSplit(ptt: nat)
    ensures SplitLines(PrintState(ptt)) == Split(["get_ptt:", "PTT: " + PrintInteger(ptt), "RPRT " + PrintInteger(0)], "")
  {
    hide PrintInteger;
    var first, second := "PTT: " + PrintInteger(ptt), "RPRT " + PrintInteger(0);
    NoNewline(ptt);
    NoNewline(0);
    EmptySplit();
    var a := "get_ptt:" + "\n";
    var b := a + first + "\n";
    assert PrintState(ptt) == b + second + "\n";
    assert "" + "get_ptt:" + "\n" == a;
    SplitAppendLine("", "get_ptt:");
    hide SplitLines;
    SplitAppendLine(a, first);
    SplitAppendLine(b, second);
  }

  lemma StateLines(first: string, second: string, ptt: nat)
    requires StartsWith(first, "PTT: ") && IntegerAfter(first, 5) == Integer(ptt) && ptt <= 3
    requires StartsWith(second, "RPRT ") && IntegerAfter(second, 5) == Integer(0)
    ensures InspectSplit(Split(["get_ptt:", first, second], ""), Query).Complete?
  {
    hide IntegerAfter;
    assert first[0] == 'P' && "RPRT "[0] == 'R';
  }

  lemma EmptySplit()
    ensures SplitLines("") == Split([], "")
  {
  }

  // ------------------------------------------------------------------- receive loop

  function Joined(chunks: seq<string>): string {
    if chunks == [] then "" else Joined(chunks[..|chunks| - 1]) + chunks[|chunks| - 1]
  }

  datatype ReceiveResult = Received(response: string) | TooLarge | BadReply | PeerClosed

  /** Collects chunks until the framer decides. */
  method Receive(chunks: seq<string>, action: PttAction, limits: Limits) returns (result: ReceiveResult)
    ensures result.Received? ==> Inspect(result.response, action, limits).Complete?
    ensures result.Received? <==> exists n :: 0 < n <= |chunks| && Inspect(Joined(chunks[..n]), action, limits).Complete?
    ensures result.Received? ==> exists n :: 0 < n <= |chunks| && result.response == Joined(chunks[..n])
    // however a complete reply is cut into chunks, that reply is returned
    ensures chunks != [] && Inspect(Joined(chunks), action, limits).Complete? ==> result == Received(Joined(chunks))
    ensures result.PeerClosed? <==>
              forall n :: 0 < n <= |chunks| ==> Inspect(Joined(chunks[..n]), action, limits).Incomplete?
  {
    hide Inspect;
    var response := "";
    for i := 0 to |chunks|
      invariant response == Joined(chunks[..i])
      invariant forall n :: 0 < n <= i ==> Inspect(Joined(chunks[..n]), action, limits).Incomplete?
      invariant |response| <= limits.maximumResponseBytes
    {
      JoinedSnoc(chunks, i);
      if |chunks[i]| > limits.maximumResponseBytes - |response| {
        TooLong(response + chunks[i], action, limits);
        NeverComplete(chunks, i + 1, action, limits);
        assert chunks[..|chunks|] == chunks;
        return TooLarge;
      }
      response := response + chunks[i];
      var status := InspectResponse(response, action, limits);
      if status.Malformed? {
        NeverComplete(chunks, i + 1, action, limits);
        assert chunks[..|chunks|] == chunks;
        return BadReply;
      }
      if status.Complete? {
        WholeReply(chunks, i + 1, action, limits);
        return Received(response);
      }
    }
    assert chunks[..|chunks|] == chunks;
    result := PeerClosed;
  }

  lemma JoinedSnoc(chunks: seq<string>, i: nat)
    requires i < |chunks|
    ensures Joined(chunks[..i + 1]) == Joined(chunks[..i]) + chunks[i]
  {
    assert chunks[..i + 1][..i] == chunks[..i];
  }

  lemma TooLong(text: string, action: PttAction, limits: Limits)
    requires |text| > limits.maximumResponseBytes
    ensures Inspect(text, action, limits).Malformed?
  {
  }

  lemma {:induction false} JoinedExtends(chunks: seq<string>, n: nat, m: nat)
    requires n <= m <= |chunks|
    ensures Joined(chunks[..n]) <= Joined(chunks[..m])
    decreases m - n
  {
    if n < m {
      JoinedExtends(chunks, n, m - 1);
      JoinedSnoc(chunks, m - 1);
    }
  }

  /** Once malformed, never complete again. */
  lemma NeverComplete(chunks: seq<string>, n: nat, action: PttAction, limits: Limits)
    requires 0 < n <= |chunks| && Inspect(Joined(chunks[..n]), action, limits).Malformed?
    requires forall k :: 0 < k < n ==> Inspect(Joined(chunks[..k]), action, limits).Incomplete?
    ensures forall m :: 0 < m <= |chunks| ==> !Inspect(Joined(chunks[..m]), action, limits).Complete?
  {
    hide Inspect;
    forall m | 0 < m <= |chunks| ensures !Inspect(Joined(chunks[..m]), action, limits).Complete? {
      if m > n {
        JoinedExtends(chunks, n, m);
        var (a, b) := (Joined(chunks[..n]), Joined(chunks[..m]));
        if |a| < |b| {
          assert a + b[|a|..] == b;
          ExtensionMalformed(a, b[|a|..], action, limits);
        } else {
          assert a == b;
        }
      }
    }
  }

  lemma WholeReply(chunks: seq<string>, n: nat, action: PttAction, limits: Limits)
    requires 0 < n <= |chunks| && Inspect(Joined(chunks[..n]), action, limits).Complete?
    ensures Inspect(Joined(chunks), action, limits).Complete? ==> Joined(chunks[..n]) == Joined(chunks)
  {
    hide Inspect;
    if Inspect(Joined(chunks), action, limits).Complete? {
      AnyFragmentation(chunks, n, action, limits);
    }
  }

  /** No earlier chunk boundary of a complete reply is decided. */
  lemma AnyFragmentation(chunks: seq<string>, n: nat, action: PttAction, limits: Limits)
    requires Inspect(Joined(chunks), action, limits).Complete?
    requires 0 < n <= |chunks| && !Inspect(Joined(chunks[..n]), action, limits).Incomplete?
    ensures Joined(chunks[..n]) == Joined(chunks)
  {
    hide Inspect;
    assert chunks[..|chunks|] == chunks;
    JoinedExtends(chunks, n, |chunks|);
    hide Joined;
    DecidedIsLast(Joined(chunks[..n]), Joined(chunks), action, limits);
  }

  /** Of two texts that extend each other, a complete one does not extend a decided one. */
  lemma DecidedIsLast(a: string, b: string, action: PttAction, limits: Limits)
    requires a <= b && !Inspect(a, action, limits).Incomplete? && !Inspect(b, action, limits).Malformed?
    ensures a == b
  {
    hide Inspect;
    assert a + b[|a|..] == b;
    if |a| < |b| {
      ExtensionMalformed(a, b[|a|..], action, limits);
    } else {
      assert b[|a|..] == "";
    }
  }
}
