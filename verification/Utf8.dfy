/** Two independently written UTF-8 recognisers, one in the terminal escaper
    (apps/cli/audio_text.cpp) and one in the flrig codec (src/rig/flrig_codec.cpp), against
    the encoding of section 3 of RFC 3629. */
module Utf8 {

  type Bytes = seq<bv8>

  // ---------------------------------------------------------------------- reference

  /** A Unicode scalar value. */
  predicate IsScalar(c: bv32) {
    c <= 0x10FFFF && !(0xD800 <= c <= 0xDFFF)
  }

  /** The encoding of section 3 of RFC 3629. */
  function EncodeScalar(c: bv32): (bytes: Bytes)
    requires IsScalar(c)
    ensures 1 <= |bytes| <= 4
  {
    if c < 0x80 then [Low(c)]
    else if c < 0x800 then [Lead2(c), Tail(c, 0)]
    else if c < 0x1_0000 then [Lead3(c), Tail(c, 1), Tail(c, 0)]
    else [Lead4(c), Tail(c, 2), Tail(c, 1), Tail(c, 0)]
  }

  function Low(c: bv32): bv8 {
    (c & 0xFF) as bv8
  }

  function Lead2(c: bv32): bv8 {
    0xC0 | ((c >> 6) & 0x1F) as bv8
  }

  function Lead3(c: bv32): bv8 {
    0xE0 | ((c >> 12) & 0x0F) as bv8
  }

  function Lead4(c: bv32): bv8 {
    0xF0 | ((c >> 18) & 0x07) as bv8
  }

  /** The k-th group of six bits, counted from the end, in a continuation byte. */
  function Tail(c: bv32, k: nat): bv8
    requires k < 3
  {
    0x80 | ((if k == 0 then c else if k == 1 then c >> 6 else c >> 12) & 0x3F) as bv8
  }

  predicate AllScalars(text: seq<bv32>) {
    forall i :: 0 <= i < |text| ==> IsScalar(text[i])
  }

  function Encode(text: seq<bv32>): Bytes
    requires AllScalars(text)
  {
    if text == [] then [] else EncodeScalar(text[0]) + Encode(text[1..])
  }

  // ----------------------------------------------------------------- the recognisers

  function CodePoint2(a: bv8, b: bv8): bv32 {
    ((a & 0x1F) as bv32 << 6) | (b & 0x3F) as bv32
  }

  function CodePoint3(a: bv8, b: bv8, c: bv8): bv32 {
    ((((a & 0x0F) as bv32 << 6) | (b & 0x3F) as bv32) << 6) | (c & 0x3F) as bv32
  }

  function CodePoint4(a: bv8, b: bv8, c: bv8, d: bv8): bv32 {
    ((((((a & 0x07) as bv32 << 6) | (b & 0x3F) as bv32) << 6) | (c & 0x3F) as bv32) << 6) | (d & 0x3F) as bv32
  }

  predicate Continues(b: bv8) {
    b & 0xC0 == 0x80
  }

  /** validUtf8SequenceLength at the start of a text: by ranges of the first byte. */
  function TerminalLength(v: Bytes): (n: nat)
    requires v != []
    ensures n <= |v|
  {
    var first := v[0];
    if first < 0x80 then (if first >= 0x20 && first != 0x7F then 1 else 0)
    else if 0xC2 <= first <= 0xDF then
      if |v| >= 2 && Continues(v[1]) && InRange(CodePoint2(first, v[1]), 0x80) then 2 else 0
    else if 0xE0 <= first <= 0xEF then
      if |v| >= 3 && Continues(v[1]) && Continues(v[2]) && InRange(CodePoint3(first, v[1], v[2]), 0x800) then 3 else 0
    else if 0xF0 <= first <= 0xF4 then
      if |v| >= 4 && Continues(v[1]) && Continues(v[2]) && Continues(v[3])
         && InRange(CodePoint4(first, v[1], v[2], v[3]), 0x1_0000) then 4 else 0
    else 0
  }

  predicate InRange(c: bv32, minimum: bv32) {
    minimum <= c && IsScalar(c)
  }

  /** One round of isValidUtf8: by bit masks of the first byte; zero is a refusal. */
  function FlrigLength(v: Bytes): (n: nat)
    requires v != []
    ensures n <= |v|
  {
    var first := v[0];
    if first < 0x80 then 1
    else if first & 0xE0 == 0xC0 then
      if |v| >= 2 && Continues(v[1]) && InRange(CodePoint2(first, v[1]), 0x80) then 2 else 0
    else if first & 0xF0 == 0xE0 then
      if |v| >= 3 && Continues(v[1]) && Continues(v[2]) && InRange(CodePoint3(first, v[1], v[2]), 0x800) then 3 else 0
    else if first & 0xF8 == 0xF0 then
      if |v| >= 4 && Continues(v[1]) && Continues(v[2]) && Continues(v[3])
         && InRange(CodePoint4(first, v[1], v[2], v[3]), 0x1_0000) then 4 else 0
    else 0
  }

  /** C0 controls and DEL. */
  predicate IsControl(b: bv8) {
    b < 0x20 || b == 0x7F
  }

  // ------------------------------------------------- both recognise the same sequences

  lemma Overlong2(a: bv8, b: bv8)
    requires a & 0xE0 == 0xC0 && InRange(CodePoint2(a, b), 0x80)
    ensures 0xC2 <= a <= 0xDF
  {
  }

  lemma Masks(a: bv8)
    ensures 0xC2 <= a <= 0xDF ==> a & 0xE0 == 0xC0
    ensures a & 0xF0 == 0xE0 <==> 0xE0 <= a <= 0xEF
    ensures 0xF0 <= a <= 0xF4 ==> a & 0xF8 == 0xF0
    ensures a & 0xF8 == 0xF0 ==> 0xF0 <= a <= 0xF7
  {
  }

  lemma TooLarge4(a: bv8, b: bv8, c: bv8, d: bv8)
    requires 0xF5 <= a <= 0xF7
    ensures !InRange(CodePoint4(a, b, c, d), 0x1_0000)
  {
  }

  /** The two differ only on control bytes, which the terminal refuses. */
  lemma RecognisersAgree(v: Bytes)
    requires v != []
    ensures TerminalLength(v) == if IsControl(v[0]) then 0 else FlrigLength(v)
  {
    hide InRange, CodePoint2, CodePoint3, CodePoint4, Continues;
    var a := v[0];
    Masks(a);
    if a & 0xE0 == 0xC0 && |v| >= 2 && InRange(CodePoint2(a, v[1]), 0x80) {
      Overlong2(a, v[1]);
    }
    if |v| >= 4 && 0xF5 <= a <= 0xF7 {
      TooLarge4(a, v[1], v[2], v[3]);
    }
  }

  // -------------------------------------------------------- ... namely encoded scalars

  lemma Decoded2(a: bv8, b: bv8)
    requires a & 0xE0 == 0xC0 && Continues(b) && InRange(CodePoint2(a, b), 0x80)
    ensures var c := CodePoint2(a, b); 0x80 <= c < 0x800 && Lead2(c) == a && Tail(c, 0) == b
  {
  }

  lemma Decoded3(a: bv8, b: bv8, c: bv8)
    requires a & 0xF0 == 0xE0 && Continues(b) && Continues(c) && InRange(CodePoint3(a, b, c), 0x800)
    ensures var s := CodePoint3(a, b, c); 0x800 <= s < 0x1_0000 && Lead3(s) == a && Tail(s, 1) == b && Tail(s, 0) == c
  {
  }

  lemma Decoded4(a: bv8, b: bv8, c: bv8, d: bv8)
    requires a & 0xF8 == 0xF0 && Continues(b) && Continues(c) && Continues(d) && InRange(CodePoint4(a, b, c, d), 0x1_0000)
    ensures var s := CodePoint4(a, b, c, d);
            0x1_0000 <= s && Lead4(s) == a && Tail(s, 2) == b && Tail(s, 1) == c && Tail(s, 0) == d
  {
  }

  lemma Encoded1(c: bv32)
    requires c < 0x80
    ensures Low(c) < 0x80 && Low(c) as bv32 == c
  {
  }

  lemma Encoded2(c: bv32)
    requires 0x80 <= c < 0x800
    ensures Lead2(c) & 0xE0 == 0xC0 && Lead2(c) >= 0x80 && Continues(Tail(c, 0)) && CodePoint2(Lead2(c), Tail(c, 0)) == c
  {
  }

  lemma Encoded3(c: bv32)
    requires 0x800 <= c < 0x1_0000
    ensures Lead3(c) & 0xF0 == 0xE0 && Lead3(c) & 0xE0 != 0xC0 && Lead3(c) >= 0x80
    ensures Continues(Tail(c, 1)) && Continues(Tail(c, 0)) && CodePoint3(Lead3(c), Tail(c, 1), Tail(c, 0)) == c
  {
  }

  lemma Encoded4(c: bv32)
    requires 0x1_0000 <= c <= 0x10FFFF
    ensures Lead4(c) & 0xF8 == 0xF0 && Lead4(c) & 0xF0 != 0xE0 && Lead4(c) & 0xE0 != 0xC0 && Lead4(c) >= 0x80
    ensures Continues(Tail(c, 2)) && Continues(Tail(c, 1)) && Continues(Tail(c, 0))
    ensures CodePoint4(Lead4(c), Tail(c, 2), Tail(c, 1), Tail(c, 0)) == c
  {
  }

  /** The scalar at the start of a text that the recogniser accepts. */
  function FirstScalar(v: Bytes): bv32
    requires v != [] && FlrigLength(v) > 0
  {
    var n := FlrigLength(v);
    if n == 1 then v[0] as bv32
    else if n == 2 then CodePoint2(v[0], v[1])
    else if n == 3 then CodePoint3(v[0], v[1], v[2])
    else CodePoint4(v[0], v[1], v[2], v[3])
  }

  /** Accepted bytes are the encoding of a scalar. */
  lemma AcceptedIsEncoded(v: Bytes)
    requires v != [] && FlrigLength(v) > 0
    ensures IsScalar(FirstScalar(v)) && v[..FlrigLength(v)] == EncodeScalar(FirstScalar(v))
  {
    hide CodePoint2, CodePoint3, CodePoint4, Continues, Lead2, Lead3, Lead4, Tail;
    var n := FlrigLength(v);
    if n == 1 {
      Ascii(v[0]);
    } else if n == 2 {
      Decoded2(v[0], v[1]);
    } else if n == 3 {
      Decoded3(v[0], v[1], v[2]);
    } else {
      Decoded4(v[0], v[1], v[2], v[3]);
    }
  }

  lemma Ascii(a: bv8)
    requires a < 0x80
    ensures a as bv32 < 0x80 && Low(a as bv32) == a
  {
  }

  /** The encoding of a scalar is accepted, whatever follows. */
  lemma EncodedIsAccepted(c: bv32, more: Bytes)
    requires IsScalar(c)
    ensures FlrigLength(EncodeScalar(c) + more) == |EncodeScalar(c)|
    ensures FirstScalar(EncodeScalar(c) + more) == c
  {
    hide CodePoint2, CodePoint3, CodePoint4, Continues, Lead2, Lead3, Lead4, Tail, Low;
    if c < 0x80 {
      Encoded1(c);
    } else if c < 0x800 {
      Encoded2(c);
    } else if c < 0x1_0000 {
      Encoded3(c);
    } else {
      Encoded4(c);
    }
  }

  /** isValidUtf8 as a recursion over the text. */
  predicate IsValid(v: Bytes) {
    v == [] || (FlrigLength(v) > 0 && IsValid(v[FlrigLength(v)..]))
  }

  /** The flrig validator accepts exactly the encodings of sequences of scalar values. */
  lemma {:induction false} ValidIsEncoded(v: Bytes)
    ensures IsValid(v) <==> exists text :: AllScalars(text) && v == Encode(text)
  {
    if IsValid(v) {
      var text := Decode(v);
      assert AllScalars(text) && v == Encode(text);
    }
    if text :| AllScalars(text) && v == Encode(text) {
      EncodingIsValid(text);
    }
  }

  function Decode(v: Bytes): (text: seq<bv32>)
    requires IsValid(v)
    ensures AllScalars(text) && Encode(text) == v
  {
    if v == [] then []
    else
      AcceptedIsEncoded(v);
      var n := FlrigLength(v);
      assert v[..n] + v[n..] == v;
      hide FlrigLength, EncodeScalar, FirstScalar;
      var rest := Decode(v[n..]);
      assert ([FirstScalar(v)] + rest)[1..] == rest;
      [FirstScalar(v)] + rest
  }

  lemma {:induction false} EncodingIsValid(text: seq<bv32>)
    requires AllScalars(text)
    ensures IsValid(Encode(text))
  {
    hide FlrigLength, EncodeScalar, FirstScalar;
    if text != [] {
      EncodingIsValid(text[1..]);
      EncodedIsAccepted(text[0], Encode(text[1..]));
      assert (EncodeScalar(text[0]) + Encode(text[1..]))[|EncodeScalar(text[0])|..] == Encode(text[1..]);
    }
  }

  /** No two texts have the same encoding. */
  lemma {:induction false} DecodeInvertsEncode(text: seq<bv32>)
    requires AllScalars(text)
    ensures IsValid(Encode(text)) && Decode(Encode(text)) == text
  {
    EncodingIsValid(text);
    if text != [] {
      EncodingIsValid(text[1..]);
      EncodedIsAccepted(text[0], Encode(text[1..]));
      hide FlrigLength, EncodeScalar, FirstScalar;
      DecodeInvertsEncode(text[1..]);
      var v, n := Encode(text), |EncodeScalar(text[0])|;
      assert v[n..] == Encode(text[1..]);
      assert Decode(v) == [text[0]] + Decode(v[n..]);
    }
  }

  method IsValidUtf8(value: Bytes) returns (valid: bool)
    ensures valid == IsValid(value)
  {
    hide FlrigLength;
    var index := 0;
    while index < |value|
      invariant index <= |value| && IsValid(value) == IsValid(value[index..])
      decreases |value| - index
    {
      var length := FlrigLength(value[index..]);
      if length == 0 {
        return false;
      }
      assert value[index..][length..] == value[index + length..];
      index := index + length;
    }
    valid := true;
  }

  // ---------------------------------------------------------------- terminal escaping

  function Hex(digit: bv8): bv8 {
    if digit < 10 then 0x30 + digit else 0x37 + digit
  }

  function HexEscape(b: bv8): (escape: Bytes)
    ensures |escape| == 4
  {
    [0x5C, 0x78, Hex(b >> 4), Hex(b & 0x0F)]
  }

  /** escapeAudioTerminalText. */
  function Escape(v: Bytes): Bytes {
    if v == [] then []
    else
      var n := TerminalLength(v);
      if n != 0 then v[..n] + Escape(v[n..]) else HexEscape(v[0]) + Escape(v[1..])
  }

  method EscapeText(value: Bytes) returns (escaped: Bytes)
    ensures escaped == Escape(value)
  {
    hide TerminalLength, HexEscape, Escape;
    escaped := [];
    var index := 0;
    assert value[0..] == value;
    while index < |value|
      invariant index <= |value| && escaped + Escape(value[index..]) == Escape(value)
      decreases |value| - index
    {
      var length := TerminalLength(value[index..]);
      NextEscape(value, index);
      if length != 0 {
        escaped := escaped + value[index..index + length];
        index := index + length;
      } else {
        escaped := escaped + HexEscape(value[index]);
        index := index + 1;
      }
    }
    NothingEscaped();
    assert value[index..] == [];
  }

  lemma NothingEscaped()
    ensures Escape([]) == []
  {
  }

  lemma NextEscape(value: Bytes, index: nat)
    requires index < |value|
    ensures var n := TerminalLength(value[index..]);
            Escape(value[index..]) == if n != 0 then value[index..index + n] + Escape(value[index + n..])
                                      else HexEscape(value[index]) + Escape(value[index + 1..])
  {
    hide TerminalLength, HexEscape;
    var rest := value[index..];
    var n := TerminalLength(rest);
    assert rest[n..] == value[index + n..] && rest[..n] == value[index..index + n] && rest[1..] == value[index + 1..];
  }

  predicate NoControls(v: Bytes) {
    forall i :: 0 <= i < |v| ==> !IsControl(v[i])
  }

  lemma LocalLength(x: Bytes, y: Bytes)
    requires x != [] && FlrigLength(x) > 0
    ensures FlrigLength(x + y) == FlrigLength(x)
  {
    hide InRange, CodePoint2, CodePoint3, CodePoint4, Continues;
  }

  /** Valid texts can be joined. */
  lemma {:induction false} ValidJoins(x: Bytes, y: Bytes)
    requires IsValid(x) && IsValid(y)
    ensures IsValid(x + y)
    decreases |x|
  {
    if x == [] {
      assert x + y == y;
    } else {
      hide FlrigLength;
      var n := FlrigLength(x);
      LocalLength(x, y);
      ValidJoins(x[n..], y);
      assert (x + y)[n..] == x[n..] + y;
    }
  }

  /** A character that the terminal accepts is valid and free of controls. */
  lemma AcceptedCharacter(v: Bytes)
    requires v != [] && TerminalLength(v) != 0
    ensures IsValid(v[..TerminalLength(v)]) && NoControls(v[..TerminalLength(v)])
  {
    RecognisersAgree(v);
    var n := FlrigLength(v);
    CharacterAlone(v);
    assert v[..n][n..] == [];
    CharacterBytes(v);
  }

  lemma CharacterAlone(v: Bytes)
    requires v != [] && FlrigLength(v) > 0
    ensures FlrigLength(v[..FlrigLength(v)]) == FlrigLength(v)
  {
    hide InRange, CodePoint2, CodePoint3, CodePoint4, Continues;
  }

  lemma CharacterBytes(v: Bytes)
    requires v != [] && FlrigLength(v) > 0
    ensures NoControls(v[..FlrigLength(v)]) <==> !IsControl(v[0])
  {
    hide InRange, CodePoint2, CodePoint3, CodePoint4;
    var n := FlrigLength(v);
    forall i | 1 <= i < n ensures !IsControl(v[i]) {
      assert Continues(v[i]);
      ContinuationIsNoControl(v[i]);
    }
  }

  lemma ContinuationIsNoControl(b: bv8)
    requires Continues(b)
    ensures !IsControl(b)
  {
  }

  lemma EscapeIsPlain(b: bv8)
    ensures IsValid(HexEscape(b)) && NoControls(HexEscape(b))
  {
    HexIsPlain(b);
    AsciiIsValid(HexEscape(b));
  }

  lemma {:induction false} AsciiIsValid(v: Bytes)
    requires forall i :: 0 <= i < |v| ==> v[i] < 0x80
    ensures IsValid(v)
  {
    if v != [] {
      AsciiIsValid(v[1..]);
      assert FlrigLength(v) == 1;
    }
  }

  lemma HexIsPlain(b: bv8)
    ensures 0x30 <= Hex(b >> 4) < 0x7F && 0x30 <= Hex(b & 0x0F) < 0x7F
  {
  }

  /** Whatever goes in, the output is well-formed and has no control bytes. */
  lemma {:induction false} EscapedIsPlain(v: Bytes)
    ensures IsValid(Escape(v)) && NoControls(Escape(v))
    decreases |v|
  {
    hide TerminalLength, HexEscape, IsControl;
    if v != [] {
      var n := TerminalLength(v);
      if n != 0 {
        AcceptedCharacter(v);
        EscapedIsPlain(v[n..]);
        ValidJoins(v[..n], Escape(v[n..]));
      } else {
        EscapeIsPlain(v[0]);
        EscapedIsPlain(v[1..]);
        ValidJoins(HexEscape(v[0]), Escape(v[1..]));
      }
    }
  }

  /** A text is left unchanged exactly when the flrig validator accepts it and it has no
      control bytes. */
  lemma {:induction false} UnchangedExactly(v: Bytes)
    ensures Escape(v) == v <==> IsValid(v) && NoControls(v)
  {
    if Escape(v) == v {
      EscapedIsPlain(v);
    }
    if IsValid(v) && NoControls(v) {
      PlainIsUnchanged(v);
    }
  }

  lemma {:induction false} PlainIsUnchanged(v: Bytes)
    requires IsValid(v) && NoControls(v)
    ensures Escape(v) == v
    decreases |v|
  {
    hide TerminalLength, FlrigLength, HexEscape, IsControl;
    if v != [] {
      RecognisersAgree(v);
      var n := FlrigLength(v);
      assert !IsControl(v[0]) && TerminalLength(v) == n;
      forall i | 0 <= i < |v[n..]| ensures !IsControl(v[n..][i]) {
        assert v[n..][i] == v[n + i];
      }
      PlainIsUnchanged(v[n..]);
      assert v[..n] + v[n..] == v;
    }
  }

  lemma EscapingIsIdempotent(v: Bytes)
    ensures Escape(Escape(v)) == Escape(v)
  {
    EscapedIsPlain(v);
    UnchangedExactly(Escape(v));
  }

  /** It is not injective: an invalid byte and its written-out escape look the same. */
  lemma EscapingForgets()
    ensures Escape([0x80]) == Escape(HexEscape(0x80))
  {
    var e := HexEscape(0x80);
    EscapeIsPlain(0x80);
    UnchangedExactly(e);
    assert [0x80 as bv8][1..] == [];
    assert Escape([0x80]) == e + [];
  }

  predicate IsHexDigit(b: bv8) {
    0x30 <= b <= 0x39 || 0x41 <= b <= 0x46
  }

  /** The text starts with what a written-out escape looks like. */
  predicate IsWritten(t: Bytes) {
    |t| >= 4 && t[0] == 0x5C && t[1] == 0x78 && IsHexDigit(t[2]) && IsHexDigit(t[3])
  }

  predicate NothingWritten(v: Bytes) {
    forall i :: 0 <= i <= |v| ==> !IsWritten(v[i..])
  }

  function HexValue(b: bv8): bv8 {
    if b <= 0x39 then b - 0x30 else b - 0x37
  }

  /** The bytes behind written-out escapes. */
  function Unescape(t: Bytes): Bytes {
    if t == [] then []
    else if IsWritten(t) then [(HexValue(t[2]) << 4) | HexValue(t[3])] + Unescape(t[4..])
    else [t[0]] + Unescape(t[1..])
  }

  lemma HexReads(b: bv8)
    ensures IsHexDigit(Hex(b >> 4)) && IsHexDigit(Hex(b & 0x0F))
    ensures (HexValue(Hex(b >> 4)) << 4) | HexValue(Hex(b & 0x0F)) == b
  {
  }

  lemma EscapeReads(b: bv8, rest: Bytes)
    ensures Unescape(HexEscape(b) + rest) == [b] + Unescape(rest)
  {
    HexReads(b);
    hide Hex, HexValue;
    assert (HexEscape(b) + rest)[4..] == rest;
  }

  /** A character that starts escaped text and is none of an escape was copied. */
  lemma CopiedFirst(v: Bytes)
    requires v != [] && Escape(v)[0] < 0x80 && Escape(v)[0] != 0x5C
    ensures v[0] == Escape(v)[0] && Escape(v)[1..] == Escape(v[1..])
  {
    var n := TerminalLength(v);
    if n != 0 {
      LongIsHigh(v);
    }
    hide TerminalLength;
  }

  lemma LongIsHigh(v: Bytes)
    requires v != [] && TerminalLength(v) > 0
    ensures v[0] < 0x80 ==> TerminalLength(v) == 1
    ensures v[0] >= 0x80 ==> forall i :: 0 <= i < TerminalLength(v) ==> v[i] >= 0x80
  {
  }

  /** Escaping creates nothing that looks written out. */
  lemma NotMadeByEscaping(v: Bytes)
    requires v != [] && v[0] == 0x5C
    ensures IsWritten([v[0]] + Escape(v[1..])) ==> IsWritten(v)
  {
    hide TerminalLength, Escape, HexValue;
    var (a, e) := (v[1..], Escape(v[1..]));
    NoEscape();
    if IsWritten([v[0]] + e) {
      assert e[0] == 0x78 && IsHexDigit(e[1]) && IsHexDigit(e[2]);
      CopiedFirst(a);
      assert e[1] == e[1..][0] && e[2] == e[1..][1];
      CopiedFirst(a[1..]);
      assert e[2] == e[1..][1..][0];
      CopiedFirst(a[1..][1..]);
      assert v[1] == a[0] && v[2] == a[1..][0] && v[3] == a[1..][1..][0];
    }
  }

  lemma NoEscape()
    ensures Escape([]) == []
  {
  }

  lemma {:induction false} CopiedReads(c: Bytes, rest: Bytes)
    requires forall i :: 0 <= i < |c| ==> c[i] >= 0x80
    ensures Unescape(c + rest) == c + Unescape(rest)
  {
    if c == [] {
      assert c + rest == rest;
    } else {
      CopiedReads(c[1..], rest);
      assert (c + rest)[1..] == c[1..] + rest && !IsWritten(c + rest);
      assert c + Unescape(rest) == [c[0]] + (c[1..] + Unescape(rest));
    }
  }

  /** Text in which nothing looks written out is recovered from its escaped form. */
  lemma {:induction false} UnescapeInverts(v: Bytes)
    requires NothingWritten(v)
    ensures Unescape(Escape(v)) == v
    decreases |v|
  {
    hide TerminalLength, HexEscape, HexValue, Unescape, IsWritten;
    if v == [] {
      NothingUnescaped();
    } else {
      var n := TerminalLength(v);
      forall k, i | 0 <= k <= |v| && 0 <= i <= |v[k..]| ensures !IsWritten(v[k..][i..]) {
        assert v[k..][i..] == v[k + i..];
      }
      if n == 0 {
        EscapeReads(v[0], Escape(v[1..]));
        UnescapeInverts(v[1..]);
      } else {
        UnescapeInverts(v[n..]);
        LongIsHigh(v);
        if v[0] >= 0x80 {
          CopiedReads(v[..n], Escape(v[n..]));
        } else {
          assert v[0..] == v;
          PlainFirst(v);
        }
      }
    }
  }

  lemma NothingUnescaped()
    ensures Unescape(Escape([])) == []
  {
  }

  lemma PlainFirst(v: Bytes)
    requires v != [] && TerminalLength(v) == 1 && !IsWritten(v)
    ensures Unescape(Escape(v)) == [v[0]] + Unescape(Escape(v[1..]))
  {
    var e := Escape(v[1..]);
    assert Escape(v) == [v[0]] + e && ([v[0]] + e)[1..] == e;
    if v[0] == 0x5C {
      NotMadeByEscaping(v);
    }
    hide TerminalLength, Escape, HexValue;
  }

  /** Two texts in which nothing looks written out have the same escaped form only if they
      are the same. */
  lemma EscapingTellsApart(v: Bytes, w: Bytes)
    requires NothingWritten(v) && NothingWritten(w)
    ensures Escape(v) == Escape(w) <==> v == w
  {
    hide Escape, Unescape, NothingWritten;
    UnescapeInverts(v);
    UnescapeInverts(w);
  }
}
