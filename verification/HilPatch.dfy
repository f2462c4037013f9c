/** Replacing one object inside printed JSON without parsing it: the search for the first
    object that opens with a given stage name, and what replacing its text amounts to
    (src/app/hil_evidence.cpp). */
module HilPatch {
  import opened Arithmetic
  import opened Optional
  import opened HilJson

  const STAGE := "stage"

  /** The opening of a stage object, as the patch looks for it. */
  function Marker(name: string): (m: string)
    ensures |m| == |name| + 11
  {
    "{\"stage\":\"" + name + "\""
  }

  // ------------------------------------------------------------------------ searching

  /** std::string::find. */
  function Find(text: string, marker: string): (position: Option<nat>)
    ensures position.Some? ==> position.value <= |text|
  {
    if marker <= text then Some(0)
    else if text == "" then None
    else Shift(1, Find(text[1..], marker))
  }

  method FindMarker(text: string, marker: string) returns (position: Option<nat>)
    ensures position == Find(text, marker)
    ensures position.Some? ==> position.value <= |text| && marker <= text[position.value..]
    ensures position.Some? ==> forall i :: 0 <= i < position.value ==> !(marker <= text[i..])
    ensures position.None? ==> forall i :: 0 <= i <= |text| ==> !(marker <= text[i..])
  {
    hide Find;
    var index := 0;
    while index <= |text|
      invariant index <= |text| + 1
      invariant index <= |text| ==> Find(text, marker) == Shift(index, Find(text[index..], marker))
      invariant index > |text| ==> Find(text, marker) == None
      invariant forall i :: 0 <= i < index ==> !(marker <= text[i..])
    {
      FindStep(text, index, marker);
      if marker <= text[index..] {
        return Some(index);
      }
      index := index + 1;
    }
    position := None;
  }

  lemma FindStep(text: string, index: nat, marker: string)
    requires index <= |text|
    ensures Find(text[index..], marker) ==
            if marker <= text[index..] then Some(0)
            else if index == |text| then None
            else Shift(1, Find(text[index + 1..], marker))
  {
    assert index < |text| ==> text[index..][1..] == text[index + 1..];
  }

  /** An object of the printed text, with the text around it. */
  datatype Place = Place(before: string, members: Members, after: string)

  function Wrap(open: string, place: Option<Place>, close: string): Option<Place> {
    if place.Some? then Some(Place(open + place.value.before, place.value.members, place.value.after + close))
    else None
  }

  /** Whether an object opens with the stage name. */
  predicate Leads(members: Members, name: string) {
    members.Member? && members.key == STAGE && members.value == Quoted(name)
  }

  /** The first object, in printing order, that opens with the stage name. */
  function Locate(j: Json, name: string): Option<Place> {
    match j
    case Scalar(_) => None
    case Quoted(_) => None
    case List(items) => Wrap("[", LocateItem(items, name), "]")
    case Object(members) =>
      if Leads(members, name) then Some(Place("", members, ""))
      else Wrap("{", LocateMember(members, COMMA, name), "}")
    case Document(members) => Wrap("{\n  ", LocateMember(members, NEW_LINE, name), "\n}\n")
  }

  function LocateItem(items: Items, name: string): Option<Place> {
    match items
    case NoItems => None
    case Item(head, tail) =>
      var here := Locate(head, name);
      if here.Some? then Wrap("", here, MoreItems(tail)) else Wrap(Print(head) + COMMA, LocateItem(tail, name), "")
  }

  function LocateMember(members: Members, separator: string, name: string): Option<Place> {
    match members
    case NoMembers => None
    case Member(key, value, tail) =>
      var here := Locate(value, name);
      if here.Some? then Wrap(Quote(key) + ":", here, MoreMembers(tail, separator))
      else Wrap(Quote(key) + ":" + Print(value) + separator, LocateMember(tail, separator, name), "")
  }

  /** The document with that object replaced by another one. */
  function Replace(j: Json, name: string, patch: Json): Json {
    match j
    case Scalar(_) => j
    case Quoted(_) => j
    case List(items) => List(ReplaceItem(items, name, patch))
    case Object(members) =>
      if Leads(members, name) then patch else Object(ReplaceMember(members, name, patch))
    case Document(members) => Document(ReplaceMember(members, name, patch))
  }

  function ReplaceItem(items: Items, name: string, patch: Json): Items {
    match items
    case NoItems => NoItems
    case Item(head, tail) =>
      if Locate(head, name).Some? then Item(Replace(head, name, patch), tail)
      else Item(head, ReplaceItem(tail, name, patch))
  }

  function ReplaceMember(members: Members, name: string, patch: Json): Members {
    match members
    case NoMembers => NoMembers
    case Member(key, value, tail) =>
      if Locate(value, name).Some? then Member(key, Replace(value, name, patch), tail)
      else Member(key, value, ReplaceMember(tail, name, patch))
  }

  /** Where a place is, and what replacing it prints as. */
  predicate Splits(text: string, replaced: string, patch: Json, place: Place) {
    && text == place.before + Print(Object(place.members)) + place.after
    && replaced == place.before + Print(patch) + place.after
  }

  lemma WrapSplits(open: string, text: string, replaced: string, close: string, patch: Json, place: Place)
    requires Splits(text, replaced, patch, place)
    ensures Splits(open + text + close, open + replaced + close, patch,
                   Place(open + place.before, place.members, place.after + close))
  {
    var target := Print(Object(place.members));
    assert open + (place.before + target + place.after) + close == open + place.before + target + (place.after + close);
    var other := Print(patch);
    assert open + (place.before + other + place.after) + close == open + place.before + other + (place.after + close);
  }

  lemma {:induction false} LocatedSplits(j: Json, name: string, patch: Json)
    requires Locate(j, name).Some?
    ensures Splits(Print(j), Print(Replace(j, name, patch)), patch, Locate(j, name).value)
    decreases j
  {
    hide Splits, PrintMembers, PrintItems, LocateMember, LocateItem;
    match j
    case List(items) =>
      LocatedItemSplits(items, name, patch);
      WrapSplits("[", PrintItems(items), PrintItems(ReplaceItem(items, name, patch)), "]", patch, LocateItem(items, name).value);
    case Object(members) =>
      if Leads(members, name) {
        WholeSplits(members, patch);
      } else {
        LocatedMemberSplits(members, COMMA, name, patch);
        WrapSplits("{", PrintMembers(members, COMMA), PrintMembers(ReplaceMember(members, name, patch), COMMA), "}", patch,
                   LocateMember(members, COMMA, name).value);
      }
    case Document(members) =>
      LocatedMemberSplits(members, NEW_LINE, name, patch);
      WrapSplits("{\n  ", PrintMembers(members, NEW_LINE), PrintMembers(ReplaceMember(members, name, patch), NEW_LINE), "\n}\n",
                 patch, LocateMember(members, NEW_LINE, name).value);
  }

  lemma WholeSplits(members: Members, patch: Json)
    ensures Splits(Print(Object(members)), Print(patch), patch, Place("", members, ""))
  {
    assert "" + Print(Object(members)) + "" == Print(Object(members));
    assert "" + Print(patch) + "" == Print(patch);
  }

  lemma {:induction false} LocatedItemSplits(items: Items, name: string, patch: Json)
    requires LocateItem(items, name).Some?
    ensures Splits(PrintItems(items), PrintItems(ReplaceItem(items, name, patch)), patch, LocateItem(items, name).value)
    decreases items, 0
  {
    hide Splits, Print, PrintItems, Locate, Replace, MoreItems;
    var Item(head, tail) := items;
    PrintItem(head, tail);
    if Locate(head, name).Some? {
      LocatedSplits(head, name, patch);
      var replaced := Replace(head, name, patch);
      PrintItem(replaced, tail);
      WrapSplits("", Print(head), Print(replaced), MoreItems(tail), patch, Locate(head, name).value);
      assert "" + Print(head) + MoreItems(tail) == PrintItems(items);
      assert "" + Print(replaced) + MoreItems(tail) == PrintItems(Item(replaced, tail));
    } else {
      LocatedItemSplits(tail, name, patch);
      var replaced := ReplaceItem(tail, name, patch);
      assert tail.Item? && replaced.Item?;
      WrapSplits(Print(head) + COMMA, PrintItems(tail), PrintItems(replaced), "", patch, LocateItem(tail, name).value);
      AppendItem(head, tail);
      AppendItem(head, replaced);
    }
  }

  lemma AppendItem(head: Json, tail: Items)
    requires tail.Item?
    ensures Print(head) + COMMA + PrintItems(tail) + "" == PrintItems(Item(head, tail))
  {
    hide Print, PrintItems;
    PrintItem(head, tail);
    Regroup(Print(head), COMMA, PrintItems(tail));
  }

  lemma {:induction false} LocatedMemberSplits(members: Members, separator: string, name: string, patch: Json)
    requires LocateMember(members, separator, name).Some?
    ensures Splits(PrintMembers(members, separator), PrintMembers(ReplaceMember(members, name, patch), separator), patch,
                   LocateMember(members, separator, name).value)
    decreases members, 0
  {
    hide Splits, Print, PrintMembers, Locate, Replace, MoreMembers, Quote;
    var Member(key, value, tail) := members;
    PrintMember(key, value, tail, separator);
    if Locate(value, name).Some? {
      LocatedSplits(value, name, patch);
      var replaced := Replace(value, name, patch);
      PrintMember(key, replaced, tail, separator);
      WrapSplits(Quote(key) + ":", Print(value), Print(replaced), MoreMembers(tail, separator), patch, Locate(value, name).value);
    } else {
      LocatedMemberSplits(tail, separator, name, patch);
      var replaced := ReplaceMember(tail, name, patch);
      assert tail.Member? && replaced.Member?;
      WrapSplits(Quote(key) + ":" + Print(value) + separator, PrintMembers(tail, separator), PrintMembers(replaced, separator), "",
                 patch, LocateMember(tail, separator, name).value);
      AppendMember(key, value, tail, separator);
      AppendMember(key, value, replaced, separator);
    }
  }

  lemma AppendMember(key: string, value: Json, tail: Members, separator: string)
    requires tail.Member?
    ensures Quote(key) + ":" + Print(value) + separator + PrintMembers(tail, separator) + ""
         == PrintMembers(Member(key, value, tail), separator)
  {
    hide Quote, Print, PrintMembers;
    PrintMember(key, value, tail, separator);
    Regroup(Quote(key) + ":" + Print(value), separator, PrintMembers(tail, separator));
  }

  lemma Regroup(a: string, b: string, c: string)
    ensures a + b + c + "" == a + (b + c)
  {
  }

  /** The object found is one the scan for its end can be run on. */
  lemma {:induction false} LocatedValid(j: Json, name: string)
    requires ValidJson(j) && Locate(j, name).Some?
    ensures var members := Locate(j, name).value.members;
            Leads(members, name) && ValidMembers(members) && 1 + MembersNesting(members) <= Nesting(j)
    decreases j
  {
    match j
    case List(items) => LocatedItemValid(items, name);
    case Object(members) => if !Leads(members, name) { LocatedMemberValid(members, COMMA, name); }
    case Document(members) => LocatedMemberValid(members, NEW_LINE, name);
  }

  lemma {:induction false} LocatedItemValid(items: Items, name: string)
    requires ValidItems(items) && LocateItem(items, name).Some?
    ensures var members := LocateItem(items, name).value.members;
            Leads(members, name) && ValidMembers(members) && 1 + MembersNesting(members) <= ItemsNesting(items)
    decreases items, 0
  {
    if Locate(items.head, name).Some? {
      LocatedValid(items.head, name);
    } else {
      LocatedItemValid(items.tail, name);
    }
  }

  lemma {:induction false} LocatedMemberValid(members: Members, separator: string, name: string)
    requires ValidMembers(members) && LocateMember(members, separator, name).Some?
    ensures var found := LocateMember(members, separator, name).value.members;
            Leads(found, name) && ValidMembers(found) && 1 + MembersNesting(found) <= MembersNesting(members)
    decreases members, 0
  {
    if Locate(members.value, name).Some? {
      LocatedValid(members.value, name);
    } else {
      LocatedMemberValid(members.tail, separator, name);
    }
  }

  // ------------------------------------------- the marker is found where it should be

  /** What follows a string in printed text never continues a marker. */
  predicate Breaks(rest: string) {
    rest == "" || rest[0] != 's'
  }

  lemma {:induction false} FindNowhere(text: string, rest: string, name: string)
    requires forall i :: 0 <= i < |text| ==> !(Marker(name) <= text[i..] + rest)
    ensures Find(text + rest, Marker(name)) == Shift(|text|, Find(rest, Marker(name)))
  {
    if text == "" {
      assert text + rest == rest;
    } else {
      assert text[0..] == text && (text + rest)[1..] == text[1..] + rest;
      forall i | 0 <= i < |text[1..]| ensures !(Marker(name) <= text[1..][i..] + rest) {
        assert text[1..][i..] == text[i + 1..];
      }
      FindNowhere(text[1..], rest, name);
    }
  }

  lemma NoBraceNoMarker(text: string, rest: string, name: string)
    requires text != "" && text[0] != '{'
    ensures !(Marker(name) <= text + rest)
  {
    assert Marker(name)[0] == '{' && (text + rest)[0] == text[0];
  }

  lemma FindPlain(text: string, rest: string, name: string)
    requires forall i :: 0 <= i < |text| ==> text[i] != '{'
    ensures Find(text + rest, Marker(name)) == Shift(|text|, Find(rest, Marker(name)))
  {
    forall i | 0 <= i < |text| ensures !(Marker(name) <= text[i..] + rest) {
      NoBraceNoMarker(text[i..], rest, name);
    }
    FindNowhere(text, rest, name);
  }

  /** No marker starts inside a string, whatever it contains. */
  lemma FindQuote(s: string, rest: string, name: string)
    requires Breaks(rest)
    ensures Find(Quote(s) + rest, Marker(name)) == Shift(|Quote(s)|, Find(rest, Marker(name)))
  {
    var q := Quote(s);
    EscapeGuarded(s);
    forall i | 0 <= i < |q| ensures !(Marker(name) <= q[i..] + rest) {
      QuoteHasNoMarker(s, i, rest, name);
    }
    FindNowhere(q, rest, name);
  }

  lemma QuoteHasNoMarker(s: string, i: nat, rest: string, name: string)
    requires QuotesGuarded(Escape(s)) && i < |Quote(s)| && Breaks(rest)
    ensures !(Marker(name) <= Quote(s)[i..] + rest)
  {
    var (e, q) := (Escape(s), Quote(s));
    var t := q[i..] + rest;
    MarkerStart(t, name);
    assert forall k :: 0 <= k < |e| ==> q[k + 1] == e[k];
    assert t[0] == q[i] && (i + 1 < |q| ==> t[1] == q[i + 1]);
    assert i + 1 == |q| - 1 && |t| >= 3 ==> t[2] == rest[0];
    assert i + 1 < |q| - 1 ==> q[i + 1] == e[i];
    assert 1 <= i < |q| - 1 ==> q[i] == e[i - 1];
  }

  lemma MarkerStart(t: string, name: string)
    ensures Marker(name) <= t ==> |t| >= 3 && t[0] == '{' && t[1] == '"' && t[2] == 's'
  {
    var m := Marker(name);
    assert m[0] == '{' && m[1] == '"' && m[2] == 's';
    assert m <= t ==> forall i :: 0 <= i < |m| ==> m[i] == t[i];
  }

  /** Of an object's opening brace, the marker tells whether the object leads with the name. */
  lemma MarkerLeads(members: Members, rest: string, name: string)
    requires Plain(name) && ValidMembers(members)
    ensures Marker(name) <= Print(Object(members)) + rest <==> Leads(members, name)
  {
    hide Print, Quote;
    if members.Member? {
      var Member(key, value, tail) := members;
      var more := MoreMembers(tail, COMMA) + "}" + rest;
      ObjectText(members, rest);
      MarkerText(name);
      KeyLeads(key, ":" + (Print(value) + more), ":" + Quote(name));
      if key == STAGE {
        ValueLeads(value, more, name);
      }
    } else {
      NothingLeads(rest, name);
    }
  }

  lemma MarkerText(name: string)
    requires Plain(name)
    ensures Marker(name) == "{" + (Quote(STAGE) + (":" + Quote(name)))
  {
    PlainEscapes(name);
    PlainEscapes(STAGE);
  }

  lemma ObjectText(members: Members, rest: string)
    requires members.Member?
    ensures Print(Object(members)) + rest
         == "{" + (Quote(members.key) + (":" + (Print(members.value) + (MoreMembers(members.tail, COMMA) + "}" + rest))))
  {
    hide Quote, PrintMembers, MoreMembers;
    var Member(key, value, tail) := members;
    var more := MoreMembers(tail, COMMA);
    PrintMember(key, value, tail, COMMA);
    BracesText("", PrintMembers(members, COMMA), "", rest);
    Chain(Quote(key), ":", Print(value), more, "}" + rest);
    assert more + ("}" + rest) == more + "}" + rest;
  }

  lemma NothingLeads(rest: string, name: string)
    ensures !(Marker(name) <= Print(Object(NoMembers)) + rest)
  {
    assert Marker(name)[1] == '"' && (Print(Object(NoMembers)) + rest)[1] == '}';
  }

  /** A prefix that starts with a quoted string fixes that string. */
  lemma KeyLeads(key: string, x: string, y: string)
    ensures "{" + (Quote(STAGE) + y) <= "{" + (Quote(key) + x) <==> key == STAGE && y <= x
  {
    hide Quote;
    BracePrefix(Quote(STAGE) + y, Quote(key) + x);
    if Quote(STAGE) + y <= Quote(key) + x {
      var z := (Quote(key) + x)[|Quote(STAGE) + y|..];
      assert Quote(key) + x == Quote(STAGE) + (y + z);
      QuoteOnce(key, STAGE, x, y + z);
    }
    if key == STAGE && y <= x {
      assert Quote(key) + x == Quote(STAGE) + y + x[|y|..];
    }
  }

  lemma BracePrefix(a: string, b: string)
    ensures "{" + a <= "{" + b <==> a <= b
  {
    assert ("{" + a)[1..] == a && ("{" + b)[1..] == b;
    if "{" + a <= "{" + b {
      assert forall i :: 0 <= i < |a| ==> a[i] == ("{" + a)[i + 1] == ("{" + b)[i + 1] == b[i];
    }
  }

  lemma ValueLeads(value: Json, more: string, name: string)
    requires ValidJson(value)
    ensures ":" + Quote(name) <= ":" + (Print(value) + more) <==> value == Quoted(name)
  {
    var t := Print(value) + more;
    AfterColon(Quote(name), t);
    if Quote(name) <= t {
      assert t[0] == Quote(name)[0] == '"';
      assert Print(value)[0] == '"';
      var z := t[|Quote(name)|..];
      assert Quote(value.value) + more == Quote(name) + z;
      QuoteOnce(value.value, name, more, z);
    }
  }

  lemma AfterColon(q: string, t: string)
    ensures ":" + q <= ":" + t <==> q <= t
  {
    assert (":" + t)[1..] == t && (":" + q)[1..] == q;
    if ":" + q <= ":" + t {
      assert (":" + t)[..|":" + q|][1..] == t[..|q|];
    }
  }

  /** Where Find stops when the marker is first found inside printed text. */
  function Found(place: Option<Place>, length: nat, rest: Option<nat>): Option<nat> {
    if place.Some? then Some(|place.value.before|) else Shift(length, rest)
  }

  /** The text search finds the first object that opens with the name and nothing else:
      not a string that contains the marker, nor a member of the same text. */
  lemma {:induction false} FindPrinted(j: Json, rest: string, name: string)
    requires ValidJson(j) && Plain(name) && Breaks(rest)
    ensures Find(Print(j) + rest, Marker(name)) == Found(Locate(j, name), |Print(j)|, Find(rest, Marker(name)))
    decreases j
  {
    hide Find, Quote, Marker, PrintItems, PrintMembers, LocateItem, LocateMember;
    match j
    case Scalar(text) => FindPlain(text, rest, name);
    case Quoted(value) => FindQuote(value, rest, name);
    case List(items) =>
      var close := "]" + rest;
      Enclosed("[", PrintItems(items), "]", rest);
      FindPlain("[", PrintItems(items) + close, name);
      FindItems(items, close, name);
      FindPlain("]", rest, name);
    case Object(members) =>
      var close := "}" + rest;
      MarkerLeads(members, rest, name);
      Enclosed("{", PrintMembers(members, COMMA), "}", rest);
      FindBrace(PrintMembers(members, COMMA) + close, name);
      FindMembers(members, COMMA, close, name);
      FindPlain("}", rest, name);
    case Document(members) =>
      var close := "\n}\n" + rest;
      var open := "\n  " + (PrintMembers(members, NEW_LINE) + close);
      Enclosed("{\n  ", PrintMembers(members, NEW_LINE), "\n}\n", rest);
      assert "{" + "\n  " == "{\n  ";
      JoinText("{", "\n  ", PrintMembers(members, NEW_LINE) + close);
      NewLineLeads(PrintMembers(members, NEW_LINE) + close, name);
      FindBrace(open, name);
      FindPlain("\n  ", PrintMembers(members, NEW_LINE) + close, name);
      FindMembers(members, NEW_LINE, close, name);
      FindPlain("\n}\n", rest, name);
  }

  lemma Enclosed(open: string, inner: string, close: string, rest: string)
    ensures open + inner + close + rest == open + (inner + (close + rest))
  {
  }

  lemma FindBrace(rest: string, name: string)
    ensures Find("{" + rest, Marker(name)) ==
            if Marker(name) <= "{" + rest then Some(0) else Shift(1, Find(rest, Marker(name)))
  {
    assert ("{" + rest)[1..] == rest;
  }

  lemma NewLineLeads(rest: string, name: string)
    ensures !(Marker(name) <= "{" + ("\n  " + rest))
  {
    MarkerStart("{" + ("\n  " + rest), name);
  }

  lemma {:induction false} FindItems(items: Items, rest: string, name: string)
    requires ValidItems(items) && Plain(name) && Breaks(rest)
    ensures Find(PrintItems(items) + rest, Marker(name))
         == Found(LocateItem(items, name), |PrintItems(items)|, Find(rest, Marker(name)))
    decreases items, 0
  {
    hide Find, Quote, Marker, Print, Locate;
    match items
    case NoItems => assert PrintItems(items) + rest == rest;
    case Item(head, tail) =>
      if tail.NoItems? {
        assert PrintItems(items) == Print(head);
        FindPrinted(head, rest, name);
      } else {
        var more := PrintItems(tail) + rest;
        FindPrinted(head, COMMA + more, name);
        FindPlain(COMMA, more, name);
        FindItems(tail, rest, name);
        assert PrintItems(items) + rest == Print(head) + (COMMA + more);
      }
  }

  lemma {:induction false} FindMembers(members: Members, separator: string, rest: string, name: string)
    requires ValidMembers(members) && Plain(name) && Breaks(rest)
    requires separator == COMMA || separator == NEW_LINE
    ensures Find(PrintMembers(members, separator) + rest, Marker(name))
         == Found(LocateMember(members, separator, name), |PrintMembers(members, separator)|, Find(rest, Marker(name)))
    decreases members, 0
  {
    hide Find, Quote, Marker, Print, PrintMembers, MoreMembers, Locate;
    match members
    case NoMembers => NoText(separator, rest);
    case Member(key, value, tail) =>
      var more := MoreMembers(tail, separator) + rest;
      PrintMember(key, value, tail, separator);
      Chain(Quote(key), ":", Print(value), MoreMembers(tail, separator), rest);
      MoreShape(tail, separator, rest);
      FindQuote(key, ":" + (Print(value) + more), name);
      FindPlain(":", Print(value) + more, name);
      FindPrinted(value, more, name);
      if tail.Member? {
        FindPlain(separator, PrintMembers(tail, separator) + rest, name);
        FindMembers(tail, separator, rest, name);
      }
  }

  lemma MoreShape(tail: Members, separator: string, rest: string)
    requires (separator == COMMA || separator == NEW_LINE) && Breaks(rest)
    ensures var more := MoreMembers(tail, separator);
            && Breaks(more + rest) && |more| == (if tail.NoMembers? then 0 else |separator| + |PrintMembers(tail, separator)|)
            && more + rest == if tail.NoMembers? then rest else separator + (PrintMembers(tail, separator) + rest)
  {
    hide PrintMembers;
    if tail.Member? {
      JoinText(separator, PrintMembers(tail, separator), rest);
    } else {
      assert MoreMembers(tail, separator) + rest == rest;
    }
  }

  // ------------------------------------------------------------------------ patching

  datatype PatchResult = Patched(text: string) | Missing | Truncated

  function PatchText(text: string, name: string, patch: string): PatchResult {
    match Find(text, Marker(name))
    case None => Missing
    case Some(start) =>
      match Scan(text[start..], 0, false, false)
      case None => Truncated
      case Some(length) => Patched(text[..start] + patch + text[start + length..])
  }

  /** The text part of publishHilStageResult. The last brace at or before the marker is the
      marker's own first character, where the object starts. */
  method Patch(text: string, name: string, patch: string) returns (result: PatchResult)
    ensures result == PatchText(text, name, patch)
  {
    var position := FindMarker(text, Marker(name));
    if position.None? {
      return Missing;
    }
    var start := position.value;
    var end := FindObjectEnd(text, start);
    if end.None? {
      return Truncated;
    }
    result := Patched(text[..start] + patch + text[end.value..]);
  }

  /** Patching the text of a document replaces the first object that opens with the name,
      whatever strings the document holds; and finds no object when there is none. */
  lemma PatchReplaces(document: Json, name: string, patch: Json)
    requires ValidJson(document) && Nesting(document) < WORD && Plain(name)
    ensures PatchText(Print(document), name, Print(patch)) ==
            if Locate(document, name).Some? then Patched(Print(Replace(document, name, patch))) else Missing
  {
    hide Find, Scan, Print, Locate, Replace, Marker;
    var text := Print(document);
    FindPrinted(document, "", name);
    assert text + "" == text;
    FindsNothing(name);
    if Locate(document, name).Some? {
      var place := Locate(document, name).value;
      LocatedSplits(document, name, patch);
      LocatedValid(document, name);
      ScanStopsAtEnd(place.members, place.after);
      Cut(place.before, Print(Object(place.members)), place.after);
    }
  }

  lemma FindsNothing(name: string)
    ensures Find("", Marker(name)) == None
  {
  }

  lemma Cut(a: string, b: string, c: string)
    ensures var t := a + b + c;
            t[..|a|] == a && t[|a|..] == b + c && t[|a| + |b|..] == c
  {
    assert a + b + c == a + (b + c);
  }

  /** Replacing keeps a document printable. */
  lemma {:induction false} ReplaceValid(j: Json, name: string, patch: Json)
    requires ValidJson(j) && ValidJson(patch)
    ensures ValidJson(Replace(j, name, patch))
    decreases j
  {
    hide Locate;
    match j
    case Scalar(_) =>
    case Quoted(_) =>
    case List(items) => ReplaceItemValid(items, name, patch);
    case Object(members) => ReplaceMemberValid(members, name, patch);
    case Document(members) => ReplaceMemberValid(members, name, patch);
  }

  lemma {:induction false} ReplaceItemValid(items: Items, name: string, patch: Json)
    requires ValidItems(items) && ValidJson(patch)
    ensures ValidItems(ReplaceItem(items, name, patch))
    decreases items, 0
  {
    hide Locate;
    if items.Item? {
      ReplaceValid(items.head, name, patch);
      ReplaceItemValid(items.tail, name, patch);
    }
  }

  lemma {:induction false} ReplaceMemberValid(members: Members, name: string, patch: Json)
    requires ValidMembers(members) && ValidJson(patch)
    ensures ValidMembers(ReplaceMember(members, name, patch))
    decreases members, 0
  {
    hide Locate;
    if members.Member? {
      ReplaceValid(members.value, name, patch);
      ReplaceMemberValid(members.tail, name, patch);
    }
  }
}
