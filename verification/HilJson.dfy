/** The JSON text of evidence records (src/app/hil_evidence.cpp): string escaping as in
    section 7 of RFC 8259, printing, and the scan for the end of an object. Characters stand
    for bytes. */
module HilJson {
  import opened Arithmetic
  import opened Optional

  // ------------------------------------------------------------------------- strings

  function HexDigit(d: nat): char
    requires d < 16
  {
    if d < 10 then ('0' as int + d) as char else ('a' as int + d - 10) as char
  }

  function EscapeChar(c: char): (e: string)
    ensures 1 <= |e| <= 6
  {
    if c == '"' then "\\\""
    else if c == '\\' then "\\\\"
    else if c as int == 8 then "\\b"
    else if c as int == 12 then "\\f"
    else if c == '\n' then "\\n"
    else if c == '\r' then "\\r"
    else if c == '\t' then "\\t"
    else if c as int < 0x20 then "\\u00" + [HexDigit(c as int / 16), HexDigit(c as int % 16)]
    else [c]
  }

  /** escapeJson. */
  function Escape(s: string): string {
    if s == "" then "" else EscapeChar(s[0]) + Escape(s[1..])
  }

  method EscapeText(value: string) returns (output: string)
    ensures output == Escape(value)
  {
    hide EscapeChar;
    output := "";
    for i := 0 to |value|
      invariant output + Escape(value[i..]) == Escape(value)
    {
      assert value[i..][1..] == value[i + 1..];
      output := output + EscapeChar(value[i]);
    }
    assert value[|value|..] == "";
  }

  function Quote(s: string): (q: string)
    ensures |q| >= 2
  {
    "\"" + Escape(s) + "\""
  }

  function HexValue(c: char): (v: nat)
    ensures v < 16
  {
    if '0' <= c <= '9' then c as int - '0' as int
    else if 'a' <= c <= 'f' then c as int - 'a' as int + 10
    else if 'A' <= c <= 'F' then c as int - 'A' as int + 10
    else 0
  }

  function HexPair(high: char, low: char): (v: nat)
    ensures v < 256
  {
    HexValue(high) * 16 + HexValue(low)
  }

  /** The character of a code unit; half of a surrogate pair reads as the replacement
      character. */
  function CodeUnit(n: nat): char
    requires n < 0x1_0000
  {
    if 0xD800 <= n < 0xE000 then 0xFFFD as char else n as char
  }

  /** A reader of string contents as in section 7 of RFC 8259, except that it does not join
      surrogate pairs. */
  function Unescape(t: string): string {
    if t == "" then ""
    else if t[0] != '\\' || |t| < 2 then [t[0]] + Unescape(t[1..])
    else if t[1] == 'u' && |t| >= 6 then
      [CodeUnit(HexPair(t[2], t[3]) * 256 + HexPair(t[4], t[5]))] + Unescape(t[6..])
    else [UnescapeChar(t[1])] + Unescape(t[2..])
  }

  function UnescapeChar(c: char): char {
    if c == 'b' then 8 as char
    else if c == 'f' then 12 as char
    else if c == 'n' then '\n'
    else if c == 'r' then '\r'
    else if c == 't' then '\t'
    else c
  }

  lemma EscapedCharReads(c: char, rest: string)
    ensures Unescape(EscapeChar(c) + rest) == [c] + Unescape(rest)
  {
    var t := EscapeChar(c) + rest;
    if c as int < 0x20 && |EscapeChar(c)| == 6 {
      HexReads(c as int);
      assert t[6..] == rest;
    } else if |EscapeChar(c)| == 2 {
      assert t[2..] == rest;
    } else {
      assert t[1..] == rest;
    }
  }

  lemma HexReads(n: nat)
    requires n < 0x20
    ensures HexValue(HexDigit(n / 16)) * 16 + HexValue(HexDigit(n % 16)) == n
  {
    HexDigitReads(n / 16);
    HexDigitReads(n % 16);
  }

  lemma HexDigitReads(d: nat)
    requires d < 16
    ensures HexValue(HexDigit(d)) == d
  {
  }

  /** Reading inverts escaping; so no two strings have the same escaped text. */
  lemma {:induction false} EscapeRoundTrip(s: string)
    ensures Unescape(Escape(s)) == s
  {
    hide EscapeChar, Unescape;
    if s == "" {
      UnescapeNothing();
    } else {
      EscapeRoundTrip(s[1..]);
      EscapedCharReads(s[0], Escape(s[1..]));
    }
  }

  lemma UnescapeNothing()
    ensures Unescape("") == ""
  {
  }

  /** In escaped text every quote is preceded by a backslash. */
  predicate QuotesGuarded(t: string) {
    forall i :: 0 <= i < |t| && t[i] == '"' ==> i > 0 && t[i - 1] == '\\'
  }

  lemma CharGuarded(c: char)
    ensures QuotesGuarded(EscapeChar(c)) && (EscapeChar(c)[0] != '\\' ==> EscapeChar(c) == [c])
  {
  }

  lemma {:induction false} EscapeGuarded(s: string)
    ensures QuotesGuarded(Escape(s))
    ensures '\\' !in Escape(s) ==> Escape(s) == s
  {
    hide EscapeChar;
    if s != "" {
      CharGuarded(s[0]);
      EscapeGuarded(s[1..]);
      var (a, b) := (EscapeChar(s[0]), Escape(s[1..]));
      forall i | 0 <= i < |a + b| && (a + b)[i] == '"' ensures i > 0 && (a + b)[i - 1] == '\\' {
        if i >= |a| {
          assert b[i - |a|] == '"';
        }
      }
      if '\\' !in a + b {
        assert a[0] == (a + b)[0];
        forall i | 0 <= i < |b| ensures b[i] != '\\' {
          assert b[i] == (a + b)[|a| + i];
        }
      }
    }
  }

  lemma CharsDiffer(a: char, b: char, x: string, y: string)
    requires EscapeChar(a) + x == EscapeChar(b) + y
    ensures a == b && x == y
  {
    hide EscapeChar, Unescape;
    EscapedCharReads(a, x);
    EscapedCharReads(b, y);
    assert a == ([a] + Unescape(x))[0] == ([b] + Unescape(y))[0];
    assert x == (EscapeChar(a) + x)[|EscapeChar(a)|..] == y;
  }

  lemma EndsAtQuote(s: string, x: string)
    ensures var t := Escape(s) + "\"" + x;
            (t[0] == '"' <==> s == "") && (s == "" ==> t[1..] == x)
  {
    hide EscapeChar;
    if s != "" {
      CharGuarded(s[0]);
      assert (Escape(s) + "\"" + x)[0] == Escape(s)[0] == EscapeChar(s[0])[0];
    }
  }

  /** A quoted string is read in one way: its closing quote is the first unescaped one. */
  lemma {:induction false} QuotedOnce(s: string, t: string, x: string, y: string)
    requires Escape(s) + "\"" + x == Escape(t) + "\"" + y
    ensures s == t && x == y
  {
    hide EscapeChar;
    EndsAtQuote(s, x);
    EndsAtQuote(t, y);
    if s != "" {
      var (a, b) := (Escape(s[1..]) + "\"" + x, Escape(t[1..]) + "\"" + y);
      assert Escape(s) + "\"" + x == EscapeChar(s[0]) + a;
      assert Escape(t) + "\"" + y == EscapeChar(t[0]) + b;
      CharsDiffer(s[0], t[0], a, b);
      QuotedOnce(s[1..], t[1..], x, y);
    }
  }

  lemma QuoteOnce(s: string, t: string, x: string, y: string)
    requires Quote(s) + x == Quote(t) + y
    ensures s == t && x == y
  {
    assert Escape(s) + "\"" + x == (Quote(s) + x)[1..];
    assert Escape(t) + "\"" + y == (Quote(t) + y)[1..];
    QuotedOnce(s, t, x, y);
  }

  /** Letters, hyphens and underscores: the alphabet of stage names and member names. */
  predicate Plain(w: string) {
    w != "" && forall i :: 0 <= i < |w| ==> 'a' <= w[i] <= 'z' || w[i] == '-' || w[i] == '_'
  }

  lemma {:induction false} PlainEscapes(w: string)
    requires Plain(w)
    ensures Escape(w) == w
  {
    if |w| == 1 {
      assert w[1..] == "";
    } else {
      PlainEscapes(w[1..]);
      assert EscapeChar(w[0]) == [w[0]];
    }
  }

  // ------------------------------------------------------------------------ printing

  /** The serializer's output: scalars are null, booleans and numbers; a document is an
      object laid out with one member per line. */
  datatype Json =
    | Scalar(text: string)
    | Quoted(value: string)
    | List(items: Items)
    | Object(members: Members)
    | Document(members: Members)

  datatype Items = NoItems | Item(head: Json, tail: Items)

  datatype Members = NoMembers | Member(key: string, value: Json, tail: Members)

  const COMMA := ","
  const NEW_LINE := ",\n  "

  function Print(j: Json): (text: string)
    ensures ValidJson(j) ==> text != ""
  {
    match j
    case Scalar(text) => text
    case Quoted(value) => Quote(value)
    case List(items) => "[" + PrintItems(items) + "]"
    case Object(members) => "{" + PrintMembers(members, COMMA) + "}"
    case Document(members) => "{\n  " + PrintMembers(members, NEW_LINE) + "\n}\n"
  }

  function PrintItems(items: Items): string {
    match items
    case NoItems => ""
    case Item(head, tail) => Print(head) + if tail.NoItems? then "" else COMMA + PrintItems(tail)
  }

  function PrintMembers(members: Members, separator: string): string {
    match members
    case NoMembers => ""
    case Member(key, value, tail) =>
      Quote(key) + ":" + Print(value) + if tail.NoMembers? then "" else separator + PrintMembers(tail, separator)
  }

  function MoreItems(items: Items): string {
    if items.NoItems? then "" else COMMA + PrintItems(items)
  }

  function MoreMembers(members: Members, separator: string): string {
    if members.NoMembers? then "" else separator + PrintMembers(members, separator)
  }

  lemma PrintItem(head: Json, tail: Items)
    ensures PrintItems(Item(head, tail)) == Print(head) + MoreItems(tail)
  {
  }

  lemma PrintMember(key: string, value: Json, tail: Members, separator: string)
    ensures PrintMembers(Member(key, value, tail), separator) == Quote(key) + ":" + Print(value) + MoreMembers(tail, separator)
  {
  }

  lemma Chain(a: string, b: string, c: string, d: string, e: string)
    ensures a + b + c + d + e == a + (b + (c + (d + e)))
  {
    assert a + b + c + d + e == (a + b + c) + (d + e) == (a + b) + (c + (d + e));
  }

  lemma NoText(separator: string, rest: string)
    ensures PrintMembers(NoMembers, separator) == "" && "" + rest == rest
  {
  }

  /** Digits, letters and the signs of numbers. */
  predicate ScalarChar(c: char) {
    '0' <= c <= '9' || 'a' <= c <= 'z' || c == '-' || c == '+' || c == '.'
  }

  predicate ValidScalar(text: string) {
    text != "" && forall i :: 0 <= i < |text| ==> ScalarChar(text[i])
  }

  predicate ValidJson(j: Json) {
    match j
    case Scalar(text) => ValidScalar(text)
    case Quoted(_) => true
    case List(items) => ValidItems(items)
    case Object(members) => ValidMembers(members)
    case Document(members) => ValidMembers(members)
  }

  predicate ValidItems(items: Items) {
    items.Item? ==> ValidJson(items.head) && ValidItems(items.tail)
  }

  predicate ValidMembers(members: Members) {
    members.Member? ==> ValidJson(members.value) && ValidMembers(members.tail)
  }

  // ---------------------------------------------------------------- end of an object

  /** Unsigned counting. */
  function Incremented(depth: nat): nat {
    if depth == WORD - 1 then 0 else depth + 1
  }

  function Decremented(depth: nat): nat {
    if depth == 0 then WORD - 1 else depth - 1
  }

  /** findJsonObjectEnd: how many characters until the depth returns to zero. The depth is
      an unsigned counter. */
  function Scan(text: string, depth: nat, quoted: bool, escaped: bool): (end: Option<nat>)
    ensures end.Some? ==> 1 <= end.value <= |text|
  {
    if text == "" then None
    else
      var c, rest := text[0], text[1..];
      var next :=
        if quoted then
          if escaped then Scan(rest, depth, true, false)
          else if c == '\\' then Scan(rest, depth, true, true)
          else Scan(rest, depth, c != '"', false)
        else if c == '"' then Scan(rest, depth, true, false)
        else if c == '{' then Scan(rest, Incremented(depth), false, false)
        else if c == '}' then
          if Decremented(depth) == 0 then Some(0) else Scan(rest, Decremented(depth), false, false)
        else Scan(rest, depth, false, false);
      if next.Some? then Some(next.value + 1) else None
  }

  method FindObjectEnd(text: string, start: nat) returns (end: Option<nat>)
    requires start <= |text|
    ensures end == Shift(start, Scan(text[start..], 0, false, false))
  {
    hide Scan;
    var depth: nat, quoted, escaped := 0, false, false;
    var index := start;
    while index < |text|
      invariant start <= index <= |text| && depth < WORD && (escaped ==> quoted)
      invariant Scan(text[start..], 0, false, false) ==
                Shift(index - start, Scan(text[index..], depth, quoted, escaped))
    {
      var character := text[index];
      assert text[index..] == [character] + text[index + 1..];
      ScanStep(character, text[index + 1..], depth, quoted, escaped);
      if quoted {
        if escaped {
          escaped := false;
        } else if character == '\\' {
          escaped := true;
        } else if character == '"' {
          quoted := false;
        }
      } else if character == '"' {
        quoted := true;
      } else if character == '{' {
        depth := Incremented(depth);
      } else if character == '}' {
        depth := Decremented(depth);
        if depth == 0 {
          return Some(index + 1);
        }
      }
      index := index + 1;
    }
    assert text[index..] == "";
    ScanNothing(depth, quoted, escaped);
    end := None;
  }

  lemma ScanStep(c: char, rest: string, depth: nat, quoted: bool, escaped: bool)
    requires depth < WORD
    ensures Scan([c] + rest, depth, quoted, escaped) ==
            if quoted then
              Shift(1, Scan(rest, depth, escaped || c != '"', !escaped && c == '\\'))
            else if c == '}' && Decremented(depth) == 0 then Some(1)
            else
              Shift(1, Scan(rest,
                            if c == '{' then Incremented(depth) else if c == '}' then Decremented(depth) else depth,
                            c == '"', false))
  {
    assert ([c] + rest)[1..] == rest;
  }

  lemma ScanNothing(depth: nat, quoted: bool, escaped: bool)
    ensures Scan("", depth, quoted, escaped) == None
  {
  }

  function Shift(n: nat, o: Option<nat>): Option<nat> {
    if o.Some? then Some(n + o.value) else None
  }

  /** How deeply objects nest. */
  function Nesting(j: Json): nat {
    match j
    case Scalar(_) => 0
    case Quoted(_) => 0
    case List(items) => ItemsNesting(items)
    case Object(members) => 1 + MembersNesting(members)
    case Document(members) => 1 + MembersNesting(members)
  }

  function ItemsNesting(items: Items): nat {
    match items
    case NoItems => 0
    case Item(head, tail) => Larger(Nesting(head), ItemsNesting(tail))
  }

  function MembersNesting(members: Members): nat {
    match members
    case NoMembers => 0
    case Member(_, value, tail) => Larger(Nesting(value), MembersNesting(tail))
  }

  function Larger(a: nat, b: nat): nat {
    if a >= b then a else b
  }

  lemma {:induction false} ScanPlain(text: string, rest: string, depth: nat)
    requires forall i :: 0 <= i < |text| ==> text[i] != '{' && text[i] != '}' && text[i] != '"'
    ensures Scan(text + rest, depth, false, false) == Shift(|text|, Scan(rest, depth, false, false))
  {
    if text == "" {
      assert text + rest == rest;
    } else {
      ScanPlain(text[1..], rest, depth);
      assert (text + rest)[1..] == text[1..] + rest;
    }
  }

  lemma ScanChar(c: char, rest: string, depth: nat)
    ensures Scan(EscapeChar(c) + rest, depth, true, false) == Shift(|EscapeChar(c)|, Scan(rest, depth, true, false))
  {
    var e := EscapeChar(c);
    var t := e + rest;
    if |e| == 1 {
      assert t[1..] == rest;
    } else if |e| == 2 {
      assert t[1..][1..] == rest;
    } else {
      assert t[1..] == e[1..] + rest && t[1..][1..] == e[2..] + rest;
      HexIsNoQuote(c as int / 16);
      HexIsNoQuote(c as int % 16);
      ScanInside(e[2..], rest, depth);
    }
  }

  lemma HexIsNoQuote(d: nat)
    requires d < 16
    ensures HexDigit(d) != '"' && HexDigit(d) != '\\'
  {
  }

  lemma {:induction false} ScanInside(text: string, rest: string, depth: nat)
    requires forall i :: 0 <= i < |text| ==> text[i] != '\\' && text[i] != '"'
    ensures Scan(text + rest, depth, true, false) == Shift(|text|, Scan(rest, depth, true, false))
  {
    if text == "" {
      assert text + rest == rest;
    } else {
      ScanInside(text[1..], rest, depth);
      assert (text + rest)[1..] == text[1..] + rest;
    }
  }

  lemma {:induction false} ScanEscaped(s: string, rest: string, depth: nat)
    ensures Scan(Escape(s) + rest, depth, true, false) == Shift(|Escape(s)|, Scan(rest, depth, true, false))
  {
    hide EscapeChar, Scan;
    if s == "" {
      assert Escape(s) + rest == rest;
    } else {
      ScanEscaped(s[1..], rest, depth);
      ScanChar(s[0], Escape(s[1..]) + rest, depth);
      assert EscapeChar(s[0]) + (Escape(s[1..]) + rest) == Escape(s) + rest;
    }
  }

  /** A string leaves the depth alone, whatever it contains. */
  lemma ScanQuote(s: string, rest: string, depth: nat)
    ensures Scan(Quote(s) + rest, depth, false, false) == Shift(|Quote(s)|, Scan(rest, depth, false, false))
  {
    var t := Quote(s) + rest;
    assert t[1..] == Escape(s) + ("\"" + rest);
    ScanEscaped(s, "\"" + rest, depth);
    assert ("\"" + rest)[1..] == rest;
  }

  lemma {:induction false} ScanJson(j: Json, rest: string, depth: nat)
    requires ValidJson(j) && 1 <= depth && depth + Nesting(j) < WORD
    ensures Scan(Print(j) + rest, depth, false, false) == Shift(|Print(j)|, Scan(rest, depth, false, false))
    decreases j
  {
    hide Scan, Quote, PrintItems, PrintMembers;
    match j
    case Scalar(text) => ScanPlain(text, rest, depth);
    case Quoted(value) => ScanQuote(value, rest, depth);
    case List(items) =>
      var inner := PrintItems(items);
      assert Print(j) + rest == "[" + (inner + ("]" + rest));
      ScanPlain("[", inner + ("]" + rest), depth);
      ScanItems(items, "]" + rest, depth);
      ScanPlain("]", rest, depth);
    case Object(members) =>
      assert Print(j) == "{" + "" + PrintMembers(members, COMMA) + "" + "}" + "";
      ScanBraces("", "", members, COMMA, rest, depth);
    case Document(members) =>
      assert Print(j) == "{" + "\n  " + PrintMembers(members, NEW_LINE) + "\n" + "}" + "\n";
      ScanBraces("\n  ", "\n", members, NEW_LINE, rest, depth);
  }

  lemma {:induction false} ScanItems(items: Items, rest: string, depth: nat)
    requires ValidItems(items) && 1 <= depth && depth + ItemsNesting(items) < WORD
    ensures Scan(PrintItems(items) + rest, depth, false, false) == Shift(|PrintItems(items)|, Scan(rest, depth, false, false))
    decreases items, 0
  {
    hide Scan;
    match items
    case NoItems => assert PrintItems(items) + rest == rest;
    case Item(head, tail) =>
      if tail.NoItems? {
        assert PrintItems(items) == Print(head);
        ScanJson(head, rest, depth);
      } else {
        var more := PrintItems(tail) + rest;
        ScanJson(head, COMMA + more, depth);
        ScanPlain(COMMA, more, depth);
        ScanItems(tail, rest, depth);
        assert PrintItems(items) + rest == Print(head) + (COMMA + more);
      }
  }

  lemma {:induction false} ScanMembers(members: Members, separator: string, rest: string, depth: nat)
    requires ValidMembers(members) && 1 <= depth && depth + MembersNesting(members) < WORD
    requires separator == COMMA || separator == NEW_LINE
    ensures Scan(PrintMembers(members, separator) + rest, depth, false, false)
         == Shift(|PrintMembers(members, separator)|, Scan(rest, depth, false, false))
    decreases members, 0
  {
    hide Scan, Quote, PrintItems, Print, PrintMembers;
    match members
    case NoMembers => NoText(separator, rest);
    case Member(key, value, tail) =>
      var more := MoreMembers(tail, separator) + rest;
      PrintMember(key, value, tail, separator);
      Chain(Quote(key), ":", Print(value), MoreMembers(tail, separator), rest);
      ScanQuote(key, ":" + (Print(value) + more), depth);
      ScanPlain(":", Print(value) + more, depth);
      ScanJson(value, more, depth);
      if tail.NoMembers? {
        assert more == rest;
      } else {
        assert more == separator + (PrintMembers(tail, separator) + rest);
        ScanPlain(separator, PrintMembers(tail, separator) + rest, depth);
        ScanMembers(tail, separator, rest, depth);
      }
  }

  /** An object or document inside something else. */
  lemma {:induction false} ScanBraces(open: string, close: string, members: Members, separator: string,
                                      rest: string, depth: nat)
    requires ValidMembers(members) && 1 <= depth && depth + 1 + MembersNesting(members) < WORD
    requires (separator == COMMA && open == close == "") || (separator == NEW_LINE && open == "\n  " && close == "\n")
    ensures var text := "{" + open + PrintMembers(members, separator) + close + "}" + close;
            Scan(text + rest, depth, false, false) == Shift(|text|, Scan(rest, depth, false, false))
    decreases members, 1
  {
    hide Scan, PrintMembers;
    var inner := PrintMembers(members, separator);
    var last := close + rest;
    var after := "}" + last;
    var closing := close + after;
    ScanOpen(open + (inner + closing), depth);
    ScanPlain(open, inner + closing, depth + 1);
    ScanMembers(members, separator, closing, depth + 1);
    ScanPlain(close, after, depth + 1);
    ScanClose(last, depth + 1);
    ScanPlain(close, rest, depth);
    BracesText(open, inner, close, rest);
  }

  lemma BracesText(open: string, inner: string, close: string, rest: string)
    ensures "{" + open + inner + close + "}" + close + rest == "{" + (open + (inner + (close + ("}" + (close + rest)))))
  {
  }

  lemma ScanOpen(rest: string, depth: nat)
    requires depth + 1 < WORD
    ensures Scan("{" + rest, depth, false, false) == Shift(1, Scan(rest, depth + 1, false, false))
  {
    assert ("{" + rest)[1..] == rest;
  }

  lemma ScanClose(rest: string, depth: nat)
    requires 1 <= depth < WORD
    ensures Scan("}" + rest, depth, false, false) ==
            if depth == 1 then Some(1) else Shift(1, Scan(rest, depth - 1, false, false))
  {
    assert ("}" + rest)[1..] == rest;
  }

  /** From the opening brace of an object the scan stops exactly after its closing brace,
      for any strings in it and whatever follows. */
  lemma ScanStopsAtEnd(members: Members, rest: string)
    requires ValidMembers(members) && MembersNesting(members) + 1 < WORD
    ensures Scan(Print(Object(members)) + rest, 0, false, false) == Some(|Print(Object(members))|)
  {
    hide Scan, PrintMembers;
    var inner := PrintMembers(members, COMMA);
    JoinText("{" + inner, "}", rest);
    JoinText("{", inner, "}" + rest);
    ScanOpen(inner + ("}" + rest), 0);
    ScanMembers(members, COMMA, "}" + rest, 1);
    ScanClose(rest, 1);
  }

  // ------------------------------------------------------- a text has one document only

  /** What may follow a value. */
  predicate Ends(rest: string) {
    rest == "" || rest[0] == ',' || rest[0] == ']' || rest[0] == '}' || rest[0] == '\n'
  }

  lemma PrintStarts(j: Json)
    requires ValidJson(j)
    ensures var c := Print(j)[0];
            && (j.Quoted? <==> c == '"') && (j.List? <==> c == '[') && (j.Object? || j.Document? <==> c == '{')
            && (j.Scalar? ==> ScalarChar(c)) && !Ends([c])
  {
    hide PrintItems, PrintMembers;
  }

  lemma ScalarSplits(a: string, x: string)
    requires forall i :: 0 <= i < |a| ==> ScalarChar(a[i])
    requires Ends(x)
    ensures Ends(a + x) <==> a == ""
    ensures if a == "" then a + x == x else (a + x)[0] == a[0] && (a + x)[1..] == a[1..] + x
  {
    if a != "" {
      assert (a + x)[0] == a[0] && ScalarChar(a[0]);
    } else {
      assert a + x == x;
    }
  }

  lemma {:induction false} ScalarOnce(a: string, b: string, x: string, y: string)
    requires forall i :: 0 <= i < |a| ==> ScalarChar(a[i])
    requires forall i :: 0 <= i < |b| ==> ScalarChar(b[i])
    requires Ends(x) && Ends(y) && a + x == b + y
    ensures a == b && x == y
  {
    ScalarSplits(a, x);
    ScalarSplits(b, y);
    hide ScalarChar, Ends;
    if a != "" && b != "" {
      ScalarOnce(a[1..], b[1..], x, y);
    }
  }

  /** Two printed values with the same text are the same value: no string, whatever it
      contains, can pass for structure. */
  lemma {:induction false} PrintOnce(a: Json, b: Json, x: string, y: string)
    requires ValidJson(a) && ValidJson(b) && Ends(x) && Ends(y)
    requires Print(a) + x == Print(b) + y
    ensures a == b && x == y
    decreases a
  {
    hide Quote, PrintItems, PrintMembers;
    PrintStarts(a);
    PrintStarts(b);
    assert Print(a)[0] == (Print(a) + x)[0] == Print(b)[0];
    if a.Quoted? {
      QuoteOnce(a.value, b.value, x, y);
    } else if a.Scalar? {
      ScalarOnce(a.text, b.text, x, y);
    } else if a.List? {
      Inside("[", PrintItems(a.items), "]", x);
      Inside("[", PrintItems(b.items), "]", y);
      ItemsOnce(a.items, b.items, x, y);
    } else {
      BracesDiffer(a, x);
      BracesDiffer(b, y);
      assert a.Object? <==> b.Object?;
      if a.Object? {
        Inside("{", PrintMembers(a.members, COMMA), "}", x);
        Inside("{", PrintMembers(b.members, COMMA), "}", y);
        MembersOnce(a.members, b.members, COMMA, "}", x, y);
      } else {
        Inside("{\n  ", PrintMembers(a.members, NEW_LINE), "\n}\n", x);
        Inside("{\n  ", PrintMembers(b.members, NEW_LINE), "\n}\n", y);
        MembersOnce(a.members, b.members, NEW_LINE, "\n}\n", x, y);
      }
    }
  }

  lemma Inside(open: string, inner: string, close: string, rest: string)
    ensures (open + inner + close + rest)[|open|..] == inner + (close + rest)
  {
  }

  lemma BracesDiffer(j: Json, rest: string)
    requires j.Object? || j.Document?
    ensures |Print(j)| >= 2 && (j.Document? <==> (Print(j) + rest)[1] == '\n')
  {
    hide PrintItems;
  }

  lemma {:induction false} ItemsOnce(a: Items, b: Items, x: string, y: string)
    requires ValidItems(a) && ValidItems(b) && Ends(x) && Ends(y)
    requires PrintItems(a) + ("]" + x) == PrintItems(b) + ("]" + y)
    ensures a == b && x == y
    decreases a, 0
  {
    hide Print, PrintItems, MoreItems;
    var (p, q) := ("]" + x, "]" + y);
    assert p[1..] == x && q[1..] == y;
    ItemsText(a, p);
    ItemsText(b, q);
    if a.Item? {
      var (r, s) := (MoreItems(a.tail) + p, MoreItems(b.tail) + q);
      MoreItemsText(a.tail, p);
      MoreItemsText(b.tail, q);
      PrintOnce(a.head, b.head, r, s);
      if a.tail.Item? {
        ItemsOnce(a.tail, b.tail, x, y);
      }
    }
  }

  lemma ItemsText(a: Items, p: string)
    requires ValidItems(a) && p != "" && p[0] == ']'
    ensures a.NoItems? <==> (PrintItems(a) + p)[0] == ']'
    ensures PrintItems(a) + p == if a.NoItems? then p else Print(a.head) + (MoreItems(a.tail) + p)
  {
    hide Print, MoreItems;
    if a.Item? {
      PrintStarts(a.head);
      PrintItem(a.head, a.tail);
      assert Print(a.head) + MoreItems(a.tail) + p == Print(a.head) + (MoreItems(a.tail) + p);
    }
  }

  lemma MoreItemsText(a: Items, p: string)
    requires p != "" && p[0] == ']'
    ensures var t := MoreItems(a) + p;
            && Ends(t) && (a.Item? <==> t[0] == ',') && (a.Item? ==> t[1..] == PrintItems(a) + p) && (a.NoItems? ==> t == p)
  {
    hide PrintItems;
  }

  lemma {:induction false} MembersOnce(a: Members, b: Members, separator: string, close: string, x: string, y: string)
    requires ValidMembers(a) && ValidMembers(b) && Ends(x) && Ends(y)
    requires (separator == COMMA && close == "}") || (separator == NEW_LINE && close == "\n}\n")
    requires PrintMembers(a, separator) + (close + x) == PrintMembers(b, separator) + (close + y)
    ensures a == b && x == y
    decreases a, 0
  {
    hide Print, PrintMembers, MoreMembers, Quote;
    var (p, q) := (close + x, close + y);
    assert p[|close|..] == x && q[|close|..] == y;
    MembersText(a, separator, p);
    MembersText(b, separator, q);
    if a.Member? {
      var (r, s) := (MoreMembers(a.tail, separator) + p, MoreMembers(b.tail, separator) + q);
      QuoteOnce(a.key, b.key, ":" + (Print(a.value) + r), ":" + (Print(b.value) + s));
      Unprefix(":", Print(a.value) + r, Print(b.value) + s);
      MoreMembersText(a.tail, separator, p);
      MoreMembersText(b.tail, separator, q);
      PrintOnce(a.value, b.value, r, s);
      if a.tail.Member? {
        Unprefix(separator, PrintMembers(a.tail, separator) + p, PrintMembers(b.tail, separator) + q);
        MembersOnce(a.tail, b.tail, separator, close, x, y);
      }
    }
  }

  lemma Unprefix(start: string, t: string, u: string)
    requires start + t == start + u
    ensures t == u
  {
    assert (start + t)[|start|..] == t && (start + u)[|start|..] == u;
  }

  lemma MembersText(a: Members, separator: string, p: string)
    requires p != "" && (p[0] == '}' || p[0] == '\n')
    ensures a.Member? <==> (PrintMembers(a, separator) + p)[0] == '"'
    ensures PrintMembers(a, separator) + p ==
            if a.NoMembers? then p else Quote(a.key) + (":" + (Print(a.value) + (MoreMembers(a.tail, separator) + p)))
  {
    hide Print, PrintMembers, MoreMembers;
    if a.Member? {
      PrintMember(a.key, a.value, a.tail, separator);
      Chain(Quote(a.key), ":", Print(a.value), MoreMembers(a.tail, separator), p);
    } else {
      NoText(separator, p);
    }
  }

  lemma MoreMembersText(a: Members, separator: string, p: string)
    requires p != "" && (p[0] == '}' || p[0] == '\n') && (separator == COMMA || separator == NEW_LINE)
    ensures var t := MoreMembers(a, separator) + p;
            && Ends(t) && (a.Member? <==> t[0] == ',')
            && t == if a.Member? then separator + (PrintMembers(a, separator) + p) else p
  {
    hide PrintMembers;
    if a.Member? {
      JoinText(separator, PrintMembers(a, separator), p);
      assert (separator + (PrintMembers(a, separator) + p))[0] == ',';
    } else {
      assert MoreMembers(a, separator) + p == p;
    }
  }

  lemma JoinText(a: string, b: string, c: string)
    ensures a + b + c == a + (b + c)
  {
  }
}
