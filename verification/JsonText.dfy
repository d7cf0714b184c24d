/** JSON strings as Go's encoder writes and its decoder reads them. */
module JsonText {
  import opened Basics

  /** A Go string as its bytes decode: Unicode scalar values and stray bytes. */
  datatype Unit = Scalar(c: char) | StrayByte

  type Text = seq<Unit>

  const REPLACEMENT: char := '\U{FFFD}'

  function Scrub(text: Text): string {
    if text == [] then ""
    else [if text[0].Scalar? then text[0].c else REPLACEMENT] + Scrub(text[1..])
  }

  // ---------------------------------------------------------------- sizes

  /** Bytes of a scalar value in UTF-8. */
  function Width(c: char): (n: nat)
    ensures 1 <= n <= 4
  {
    if c < '\U{80}' then 1 else if c < '\U{800}' then 2 else if c < '\U{10000}' then 3 else 4
  }

  function Bytes(s: string): nat {
    if s == "" then 0 else Width(s[0]) + Bytes(s[1..])
  }

  function TextBytes(text: Text): nat {
    if text == [] then 0
    else (if text[0].Scalar? then Width(text[0].c) else 1) + TextBytes(text[1..])
  }

  lemma {:induction false} BytesAppend(a: string, b: string)
    ensures Bytes(a + b) == Bytes(a) + Bytes(b)
  {
    if a == "" {
      assert a + b == b;
    } else {
      assert (a + b)[1..] == a[1..] + b;
      BytesAppend(a[1..], b);
    }
  }

  // ---------------------------------------------------------------- encoding

  function HexDigit(n: nat): (d: char)
    requires n < 16
    ensures ('0' <= d <= '9') || ('a' <= d <= 'f')
  {
    if n < 10 then '0' + n as char else 'a' + (n - 10) as char
  }

  /** Characters written as \u00XX. */
  predicate EscapedByCode(c: char) {
    (c < ' ' && c !in "\n\r\t" && c != '\U{8}' && c != '\U{C}') || c in "<>&"
  }

  function Escape(c: char): string {
    if c == '"' then "\\\""
    else if c == '\\' then "\\\\"
    else if c == '\n' then "\\n"
    else if c == '\r' then "\\r"
    else if c == '\t' then "\\t"
    else if c == '\U{8}' then "\\b"
    else if c == '\U{C}' then "\\f"
    else if EscapedByCode(c) then "\\u00" + [HexDigit(c as int / 16), HexDigit(c as int % 16)]
    else if c == '\U{2028}' then "\\u2028"
    else if c == '\U{2029}' then "\\u2029"
    else [c]
  }

  function EscapeUnit(u: Unit): string {
    if u.Scalar? then Escape(u.c) else "\\ufffd"
  }

  function EscapeText(text: Text): string {
    if text == [] then "" else EscapeUnit(text[0]) + EscapeText(text[1..])
  }

  function Quote(text: Text): string {
    "\"" + EscapeText(text) + "\""
  }

  // ---------------------------------------------------------------- decoding

  predicate IsHex(c: char) {
    '0' <= c <= '9' || 'a' <= c <= 'f' || 'A' <= c <= 'F'
  }

  function HexValue(c: char): (n: nat)
    requires IsHex(c)
    ensures n < 16
  {
    if c <= '9' then c as int - '0' as int
    else if c <= 'F' then c as int - 'A' as int + 10
    else c as int - 'a' as int + 10
  }

  /** The code of an escape \uXXXX at the start of `s`. */
  function CodeAt(s: string): (code: Option<nat>)
    ensures code.Some? ==> |s| >= 6 && code.value < 0x10000
  {
    if |s| >= 6 && s[0] == '\\' && s[1] == 'u' && IsHex(s[2]) && IsHex(s[3]) && IsHex(s[4]) && IsHex(s[5])
    then Some(4096 * HexValue(s[2]) + 256 * HexValue(s[3]) + 16 * HexValue(s[4]) + HexValue(s[5]))
    else None
  }

  /** One character of a JSON string: what it means and how long it is. */
  datatype Piece = Piece(c: char, length: nat) | Bad

  function SimpleEscape(c: char): Piece {
    if c == '"' || c == '\\' || c == '/' then Piece(c, 2)
    else if c == 'b' then Piece('\U{8}', 2)
    else if c == 'f' then Piece('\U{C}', 2)
    else if c == 'n' then Piece('\n', 2)
    else if c == 'r' then Piece('\r', 2)
    else if c == 't' then Piece('\t', 2)
    else Bad
  }

  /** Surrogates count only in pairs; a lone one reads as U+FFFD. */
  function CodePiece(s: string, code: nat): Piece
    requires |s| >= 6 && code < 0x10000
  {
    if code < 0xD800 || code >= 0xE000 then Piece(code as char, 6)
    else
      var low := CodeAt(s[6..]);
      if code < 0xDC00 && low.Some? && 0xDC00 <= low.value < 0xE000
      then Piece((0x10000 + (code - 0xD800) * 0x400 + (low.value - 0xDC00)) as char, 12)
      else Piece(REPLACEMENT, 6)
  }

  function NextPiece(s: string): (p: Piece)
    requires s != ""
    ensures p.Piece? ==> 1 <= p.length <= |s|
  {
    if s[0] == '\\' then
      if |s| < 2 then Bad
      else if s[1] != 'u' then SimpleEscape(s[1])
      else
        var code := CodeAt(s);
        if code.None? then Bad else CodePiece(s, code.value)
    else if s[0] < ' ' then Bad
    else Piece(s[0], 1)
  }

  /** The rest of a JSON string after its opening quote. */
  function UnquoteRest(s: string): Option<string>
    decreases |s|
  {
    if s == "" then None
    else if s[0] == '"' then if |s| == 1 then Some("") else None
    else
      var p := NextPiece(s);
      if p.Bad? then None else
      var rest := UnquoteRest(s[p.length..]);
      if rest.None? then None else Some([p.c] + rest.value)
  }

  predicate IsSpace(c: char) {
    c == ' ' || c == '\t' || c == '\n' || c == '\r'
  }

  function TrimLeft(s: string): string {
    if s != "" && IsSpace(s[0]) then TrimLeft(s[1..]) else s
  }

  function TrimRight(s: string): string {
    if s != "" && IsSpace(s[|s| - 1]) then TrimRight(s[..|s| - 1]) else s
  }

  /** Decoding into a string variable: a JSON string gives its value, null leaves
      the variable empty, anything else is an error. */
  function UnmarshalString(s: string): Option<string> {
    var t := TrimRight(TrimLeft(s));
    if t == "null" then Some("")
    else if t != "" && t[0] == '"' then UnquoteRest(t[1..])
    else None
  }

  // ---------------------------------------------------------------- laws

  lemma HexRoundTrip(n: nat)
    requires n < 16
    ensures IsHex(HexDigit(n)) && HexValue(HexDigit(n)) == n
  {
  }

  lemma EscapeReads(c: char, rest: string)
    ensures Escape(c) != "" && Escape(c)[0] != '"'
    ensures NextPiece(Escape(c) + rest) == Piece(c, |Escape(c)|)
  {
    var s := Escape(c) + rest;
    if EscapedByCode(c) {
      HexRoundTrip(c as int / 16);
      HexRoundTrip(c as int % 16);
      assert s[0] == '\\' && s[1] == 'u' && s[2] == '0' && s[3] == '0';
      assert s[4] == HexDigit(c as int / 16) && s[5] == HexDigit(c as int % 16);
      assert CodeAt(s) == Some(c as int);
    } else if c == '\U{2028}' || c == '\U{2029}' {
      assert s[1] == 'u' && s[2] == '2' && s[3] == '0' && s[4] == '2';
      assert s[5] == if c == '\U{2028}' then '8' else '9';
      assert CodeAt(s) == Some(c as int);
    } else {
      assert s[0] == Escape(c)[0] && (|Escape(c)| == 2 ==> s[1] == Escape(c)[1]);
    }
  }

  lemma UnitReads(u: Unit, rest: string)
    ensures EscapeUnit(u) != "" && EscapeUnit(u)[0] != '"'
    ensures NextPiece(EscapeUnit(u) + rest) == Piece(if u.Scalar? then u.c else REPLACEMENT, |EscapeUnit(u)|)
  {
    if u.Scalar? {
      EscapeReads(u.c, rest);
    } else {
      var s := "\\ufffd" + rest;
      assert s[0] == '\\' && s[1] == 'u' && s[2] == 'f' && s[3] == 'f' && s[4] == 'f' && s[5] == 'd';
      assert CodeAt(s) == Some(0xFFFD);
    }
  }

  lemma {:induction false} EscapedTextReads(text: Text)
    ensures UnquoteRest(EscapeText(text) + "\"") == Some(Scrub(text))
  {
    if text == [] {
      assert EscapeText(text) + "\"" == "\"";
    } else {
      var head, rest := EscapeUnit(text[0]), EscapeText(text[1..]) + "\"";
      UnitReads(text[0], rest);
      EscapedTextReads(text[1..]);
      var s := EscapeText(text) + "\"";
      assert s == head + rest;
      assert s[|head|..] == rest && s[0] == head[0];
    }
  }

  lemma QuoteIsTrimmed(text: Text)
    ensures TrimRight(TrimLeft(Quote(text))) == Quote(text)
    ensures Quote(text)[0] == '"' && Quote(text)[1..] == EscapeText(text) + "\""
  {
    var s := Quote(text);
    assert s[0] == '"' && s[|s| - 1] == '"';
  }

  /** Decoding an encoded string gives it back, with each stray byte replaced. */
  lemma QuoteRoundTrip(text: Text)
    ensures UnmarshalString(Quote(text)) == Some(Scrub(text))
  {
    QuoteIsTrimmed(text);
    EscapedTextReads(text);
  }

  function Valid(s: string): Text {
    if s == "" then [] else [Scalar(s[0])] + Valid(s[1..])
  }

  lemma {:induction false} ScrubValid(s: string)
    ensures Scrub(Valid(s)) == s
  {
    if s != "" { ScrubValid(s[1..]); }
  }

  lemma {:induction false} ValidBytes(s: string)
    ensures TextBytes(Valid(s)) == Bytes(s)
  {
    if s != "" { ValidBytes(s[1..]); }
  }

  /** Nothing is lost exactly when the text is valid Unicode. */
  lemma {:induction false} ScrubIsExact(text: Text)
    ensures Valid(Scrub(text)) == text <==> StrayByte !in text
  {
    if text != [] {
      ScrubIsExact(text[1..]);
      assert text == [text[0]] + text[1..];
      var v := Valid(Scrub(text));
      assert Scrub(text)[1..] == Scrub(text[1..]);
      assert v[0].Scalar? && v[1..] == Valid(Scrub(text[1..]));
      if StrayByte !in text { assert text[0] in text; }
    }
  }

  lemma EscapeUnitBytes(u: Unit)
    ensures Bytes(EscapeUnit(u)) <= 6 * if u.Scalar? then Width(u.c) else 1
  {
    var s := EscapeUnit(u);
    if |s| == 1 {
      assert s[1..] == "";
    } else {
      AsciiBytes(s);
    }
  }

  lemma {:induction false} AsciiBytes(s: string)
    requires forall c :: c in s ==> c < '\U{80}'
    ensures Bytes(s) == |s|
  {
    if s != "" {
      assert s[0] in s;
      forall c | c in s[1..] ensures c in s { }
      AsciiBytes(s[1..]);
    }
  }

  lemma {:induction false} EscapedBytes(text: Text)
    ensures Bytes(EscapeText(text)) <= 6 * TextBytes(text)
  {
    if text != [] {
      EscapeUnitBytes(text[0]);
      EscapedBytes(text[1..]);
      BytesAppend(EscapeUnit(text[0]), EscapeText(text[1..]));
    }
  }

  /** A string of n bytes takes at most 6n + 2 bytes as JSON. */
  lemma QuoteBytes(text: Text)
    ensures Bytes(Quote(text)) <= 6 * TextBytes(text) + 2
  {
    EscapedBytes(text);
    BytesAppend("\"" + EscapeText(text), "\"");
    BytesAppend("\"", EscapeText(text));
    AsciiBytes("\"");
  }

  /** What an encoded string may hold: no control character, nothing that HTML or
      JavaScript reads as its own. */
  predicate Harmless(c: char) {
    c >= ' ' && c !in "<>&" && c != '\U{2028}' && c != '\U{2029}'
  }

  lemma EscapeIsHarmless(u: Unit)
    ensures forall c :: c in EscapeUnit(u) ==> Harmless(c)
  {
  }

  /** An encoded string is one line. */
  lemma {:induction false} EscapedIsHarmless(text: Text)
    ensures forall c :: c in EscapeText(text) ==> Harmless(c)
  {
    if text != [] {
      EscapeIsHarmless(text[0]);
      EscapedIsHarmless(text[1..]);
    }
  }
}
