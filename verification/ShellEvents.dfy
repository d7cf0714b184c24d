/** The shell's server-sent events: the agent prints them, the client parses
    them back. */
module ShellEvents {
  import opened Basics
  import opened JsonText

  /** A line must end before the client's scanner has read this many bytes. */
  const MAX_LINE := 16 * 1024 * 1024

  /** What an event carries: text, a number (pid) or an object of strings (env). */
  datatype Payload = Str(text: Text) | Number(n: nat) | Object(fields: seq<(Text, Text)>)

  datatype AgentEvent = AgentEvent(name: string, payload: Payload)

  datatype ShellEvent = ShellEvent(kind: string, data: string)

  // ---------------------------------------------------------------- printing

  function Digits(n: nat): (s: string)
    ensures s != "" && forall c :: c in s ==> '0' <= c <= '9'
  {
    var d := ['0' + (n % 10) as char];
    if n < 10 then d else Digits(n / 10) + d
  }

  function Fields(fields: seq<(Text, Text)>): string {
    if fields == [] then ""
    else
      var one := Quote(fields[0].0) + ":" + Quote(fields[0].1);
      if |fields| == 1 then one else one + "," + Fields(fields[1..])
  }

  function Marshal(p: Payload): string {
    match p
    case Str(text) => Quote(text)
    case Number(n) => Digits(n)
    case Object(fields) => "{" + Fields(fields) + "}"
  }

  function Print(e: AgentEvent): string {
    "event: " + e.name + "\ndata: " + Marshal(e.payload) + "\n\n"
  }

  function PrintAll(events: seq<AgentEvent>): string {
    if events == [] then "" else Print(events[0]) + PrintAll(events[1..])
  }

  // ---------------------------------------------------------------- parsing

  /** The length of the first line. */
  function LineLength(s: string): (n: nat)
    ensures n <= |s|
    ensures n < |s| ==> s[n] == '\n'
    ensures forall i :: 0 <= i < n ==> s[i] != '\n'
  {
    if s == "" || s[0] == '\n' then 0 else 1 + LineLength(s[1..])
  }

  function DropCr(line: string): string {
    if line != "" && line[|line| - 1] == '\r' then line[..|line| - 1] else line
  }

  predicate HasPrefix(s: string, prefix: string) {
    prefix <= s
  }

  /** What follows the first colon, without one leading space. */
  function FieldValue(line: string): string {
    if line == "" then ""
    else if line[0] == ':' then if |line| > 1 && line[1] == ' ' then line[2..] else line[1..]
    else FieldValue(line[1..])
  }

  predicate IsFirstColon(line: string, i: int) {
    0 <= i < |line| && line[i] == ':' && forall k :: 0 <= k < i ==> line[k] != ':'
  }

  /** A space follows the colon. */
  predicate AfterSpace(line: string, i: nat) {
    i + 1 < |line| && line[i + 1] == ' '
  }

  function JoinLines(lines: seq<string>): string {
    if lines == [] then ""
    else if |lines| == 1 then lines[0]
    else lines[0] + "\n" + JoinLines(lines[1..])
  }

  /** The event a block of fields stands for. */
  function Received(kind: string, data: seq<string>): ShellEvent {
    var joined := JoinLines(data);
    var decoded := UnmarshalString(joined);
    ShellEvent(kind, if decoded.Some? then decoded.value else joined)
  }

  /** `delivered` is what the callback was given; it refuses an event by
      answering false on the history that ends with it. */
  datatype Parser = Parser(kind: string, data: seq<string>, delivered: seq<ShellEvent>)

  datatype Outcome = Finished | Refused | TooLong

  type Callback = seq<ShellEvent> -> bool

  datatype Result = Result(delivered: seq<ShellEvent>, outcome: Outcome)

  function Dispatch(p: Parser): Parser {
    if p.kind == "" then p else p.(delivered := p.delivered + [Received(p.kind, p.data)])
  }

  predicate Accepts(onEvent: Callback, p: Parser) {
    p.kind == "" || onEvent(Dispatch(p).delivered)
  }

  function FieldLine(p: Parser, line: string): Parser {
    if HasPrefix(line, "event:") then p.(kind := FieldValue(line))
    else if HasPrefix(line, "data:") then p.(data := p.data + [FieldValue(line)])
    else p
  }

  /** Reading a stream to its end, the first refusal or the first line that is
      too long. */
  function Parse(s: string, p: Parser, onEvent: Callback): Result
    decreases |s|
  {
    if s == "" then
      Result(Dispatch(p).delivered, if Accepts(onEvent, p) then Finished else Refused)
    else
      var n := LineLength(s);
      if Bytes(s[..n]) >= MAX_LINE then Result(p.delivered, TooLong)
      else
        var line := DropCr(s[..n]);
        var rest := s[if n < |s| then n + 1 else n..];
        if line != "" then Parse(rest, FieldLine(p, line), onEvent)
        else if !Accepts(onEvent, p) then Result(Dispatch(p).delivered, Refused)
        else Parse(rest, Parser("", [], Dispatch(p).delivered), onEvent)
  }

  method SseFieldValue(line: string) returns (value: string)
    ensures value == FieldValue(line)
    ensures ':' !in line ==> value == ""
    ensures forall i :: IsFirstColon(line, i) ==> line[i + 1..] == if AfterSpace(line, i) then " " + value else value
  {
    var i := 0;
    while i < |line| && line[i] != ':'
      invariant i <= |line| && forall k :: 0 <= k < i ==> line[k] != ':'
      invariant FieldValue(line) == FieldValue(line[i..])
    {
      i := i + 1;
    }
    if i == |line| { return ""; }
    value := line[i + 1..];
    if value != "" && value[0] == ' ' { value := value[1..]; }
  }

  /** The client's event loop over a response body. */
  method Shell(body: string, onEvent: Callback) returns (result: Result)
    ensures result == Parse(body, Parser("", [], []), onEvent)
  {
    var kind, data: seq<string>, delivered: seq<ShellEvent> := "", [], [];
    var rest := body;
    while rest != ""
      invariant Parse(body, Parser("", [], []), onEvent) == Parse(rest, Parser(kind, data, delivered), onEvent)
      decreases |rest|
    {
      var n := LineLength(rest);
      if Bytes(rest[..n]) >= MAX_LINE { return Result(delivered, TooLong); }
      var line := DropCr(rest[..n]);
      rest := rest[if n < |rest| then n + 1 else n..];
      if line == "" {
        if kind != "" {
          delivered := delivered + [Received(kind, data)];
          if !onEvent(delivered) { return Result(delivered, Refused); }
        }
        kind, data := "", [];
      } else if HasPrefix(line, "event:") {
        kind := SseFieldValue(line);
      } else if HasPrefix(line, "data:") {
        var value := SseFieldValue(line);
        data := data + [value];
      }
    }
    if kind != "" {
      delivered := delivered + [Received(kind, data)];
      if !onEvent(delivered) { return Result(delivered, Refused); }
    }
    return Result(delivered, Finished);
  }

  // ---------------------------------------------------------------- the round trip

  /** What the client should make of an event: decoded text, raw JSON otherwise. */
  function Meant(e: AgentEvent): ShellEvent {
    ShellEvent(e.name, if e.payload.Str? then Scrub(e.payload.text) else Marshal(e.payload))
  }

  predicate ProperName(name: string) {
    name != "" && '\n' !in name && name[|name| - 1] != '\r' && Bytes("event: " + name) < MAX_LINE
  }

  predicate Fits(e: AgentEvent) {
    Bytes("data: " + Marshal(e.payload)) < MAX_LINE
  }

  /** The events in order, up to the first refused or oversized one. */
  function Deliver(events: seq<AgentEvent>, delivered: seq<ShellEvent>, onEvent: Callback): Result {
    if events == [] then Result(delivered, Finished)
    else if !Fits(events[0]) then Result(delivered, TooLong)
    else
      var more := delivered + [Meant(events[0])];
      if onEvent(more) then Deliver(events[1..], more, onEvent) else Result(more, Refused)
  }

  predicate OneLine(s: string) {
    forall c :: c in s ==> c >= ' '
  }

  lemma {:induction false} FieldsAreOneLine(fields: seq<(Text, Text)>)
    ensures OneLine(Fields(fields))
  {
    if fields != [] {
      FieldIsOneLine(fields[0]);
      FieldsAreOneLine(fields[1..]);
    }
  }

  lemma FieldIsOneLine(field: (Text, Text))
    ensures OneLine(Quote(field.0) + ":" + Quote(field.1))
  {
    EscapedIsHarmless(field.0);
    EscapedIsHarmless(field.1);
  }

  lemma MarshalIsOneLine(p: Payload)
    ensures Marshal(p) != "" && OneLine(Marshal(p))
  {
    match p
    case Str(text) => EscapedIsHarmless(text);
    case Number(n) =>
    case Object(fields) => FieldsAreOneLine(fields);
  }

  lemma {:induction false} TrimKeepsEnds(s: string)
    requires s != "" && !IsSpace(s[0]) && !IsSpace(s[|s| - 1])
    ensures TrimRight(TrimLeft(s)) == s
  {
  }

  lemma DigitsEnds(n: nat)
    ensures '0' <= Digits(n)[0] <= '9' && '0' <= Digits(n)[|Digits(n)| - 1] <= '9'
  {
    assert Digits(n)[0] in Digits(n) && Digits(n)[|Digits(n)| - 1] in Digits(n);
  }

  lemma PayloadIsMeant(e: AgentEvent)
    ensures Received(e.name, [Marshal(e.payload)]) == Meant(e)
  {
    match e.payload
    case Str(text) => QuoteRoundTrip(text);
    case Number(n) =>
      DigitsEnds(n);
      TrimKeepsEnds(Digits(n));
      assert "null"[0] == 'n';
    case Object(fields) =>
      var s := Marshal(e.payload);
      assert s[0] == '{' && s[|s| - 1] == '}';
      TrimKeepsEnds(s);
      assert "null"[0] == 'n';
  }

  /** Parsing a text that starts with a full line. */
  lemma {:induction false} LineLengthIs(line: string, rest: string)
    requires '\n' !in line
    ensures LineLength(line + "\n" + rest) == |line|
  {
    var s := line + "\n" + rest;
    if line == "" {
      assert s[0] == '\n';
    } else {
      assert s[0] == line[0] && s[0] in line;
      assert s[1..] == line[1..] + "\n" + rest;
      forall c | c in line[1..] ensures c in line { }
      LineLengthIs(line[1..], rest);
    }
  }

  lemma ParseLine(line: string, rest: string, p: Parser, onEvent: Callback)
    requires '\n' !in line && line != "" && line[|line| - 1] != '\r'
    ensures Parse(line + "\n" + rest, p, onEvent)
            == if Bytes(line) >= MAX_LINE then Result(p.delivered, TooLong)
               else Parse(rest, FieldLine(p, line), onEvent)
  {
    var s := line + "\n" + rest;
    LineLengthIs(line, rest);
    assert s[..|line|] == line && s[|line| + 1..] == rest;
  }

  lemma ParseBlank(rest: string, p: Parser, onEvent: Callback)
    ensures Parse("\n" + rest, p, onEvent)
            == if !Accepts(onEvent, p) then Result(Dispatch(p).delivered, Refused)
               else Parse(rest, Parser("", [], Dispatch(p).delivered), onEvent)
  {
    var s := "\n" + rest;
    assert s[0] == '\n' && s[..0] == "" && s[1..] == rest;
  }

  lemma FieldLines(name: string, data: string)
    ensures HasPrefix("event: " + name, "event:") && FieldValue("event: " + name) == name
    ensures HasPrefix("data: " + data, "data:") && !HasPrefix("data: " + data, "event:")
    ensures FieldValue("data: " + data) == data
  {
    var e, d := "event: " + name, "data: " + data;
    assert e[..6] == "event:" && e[5] == ':' && e[6] == ' ' && e[7..] == name;
    assert d[..5] == "data:" && d[4] == ':' && d[5] == ' ' && d[6..] == data && d[0] == 'd';
    ValueAfterColon(e, 5);
    ValueAfterColon(d, 4);
    assert e[5..][2..] == name && d[4..][2..] == data;
  }

  lemma {:induction false} ValueAfterColon(line: string, i: nat)
    requires i < |line| && line[i] == ':' && forall k :: 0 <= k < i ==> line[k] != ':'
    ensures FieldValue(line) == FieldValue(line[i..])
  {
    if i > 0 {
      ValueAfterColon(line[1..], i - 1);
      assert line[1..][i - 1..] == line[i..];
    }
  }

  lemma DataIsALine(p: Payload)
    ensures var data := "data: " + Marshal(p); '\n' !in data && data[|data| - 1] != '\r'
  {
    var data := "data: " + Marshal(p);
    MarshalIsOneLine(p);
    assert data[|data| - 1] in Marshal(p);
  }

  lemma PrintedLines(e: AgentEvent, rest: string)
    ensures Print(e) + rest == "event: " + e.name + "\n" + ("data: " + Marshal(e.payload) + "\n" + ("\n" + rest))
  {
  }

  lemma ParseHead(name: string, more: string, delivered: seq<ShellEvent>, onEvent: Callback)
    requires ProperName(name)
    ensures Parse("event: " + name + "\n" + more, Parser("", [], delivered), onEvent)
            == Parse(more, Parser(name, [], delivered), onEvent)
  {
    var head := "event: " + name;
    assert head[|head| - 1] == name[|name| - 1];
    FieldLines(name, "");
    ParseLine(head, more, Parser("", [], delivered), onEvent);
  }

  lemma ParseData(e: AgentEvent, rest: string, delivered: seq<ShellEvent>, onEvent: Callback)
    requires ProperName(e.name)
    ensures Parse("data: " + Marshal(e.payload) + "\n" + ("\n" + rest), Parser(e.name, [], delivered), onEvent)
            == if !Fits(e) then Result(delivered, TooLong)
               else Parse("\n" + rest, Parser(e.name, [Marshal(e.payload)], delivered), onEvent)
  {
    var data := "data: " + Marshal(e.payload);
    FieldLines("", Marshal(e.payload));
    DataIsALine(e.payload);
    ParseLine(data, "\n" + rest, Parser(e.name, [], delivered), onEvent);
  }

  lemma ParseEvent(e: AgentEvent, rest: string, delivered: seq<ShellEvent>, onEvent: Callback)
    requires ProperName(e.name)
    ensures Parse(Print(e) + rest, Parser("", [], delivered), onEvent)
            == if !Fits(e) then Result(delivered, TooLong)
               else if !onEvent(delivered + [Meant(e)]) then Result(delivered + [Meant(e)], Refused)
               else Parse(rest, Parser("", [], delivered + [Meant(e)]), onEvent)
  {
    PrintedLines(e, rest);
    ParseHead(e.name, "data: " + Marshal(e.payload) + "\n" + ("\n" + rest), delivered, onEvent);
    ParseData(e, rest, delivered, onEvent);
    ParseBlank(rest, Parser(e.name, [Marshal(e.payload)], delivered), onEvent);
    PayloadIsMeant(e);
  }

  /** Parsing what was printed gives back every event, in order, with text decoded
      and numbers and objects raw; reading stops early only at an event the
      callback refuses or that does not fit a line. */
  lemma {:induction false} PrintParse(events: seq<AgentEvent>, delivered: seq<ShellEvent>, onEvent: Callback)
    requires forall e :: e in events ==> ProperName(e.name)
    ensures Parse(PrintAll(events), Parser("", [], delivered), onEvent) == Deliver(events, delivered, onEvent)
    decreases events
  {
    if events != [] {
      var more := delivered + [Meant(events[0])];
      assert events[0] in events;
      ParseEvent(events[0], PrintAll(events[1..]), delivered, onEvent);
      if Fits(events[0]) && onEvent(more) {
        PrintParse(events[1..], more, onEvent);
      }
    }
  }

  function AllMeant(events: seq<AgentEvent>): seq<ShellEvent> {
    if events == [] then [] else [Meant(events[0])] + AllMeant(events[1..])
  }

  /** Everything is delivered exactly when nothing is refused and everything
      fits. */
  lemma {:induction false} DeliversAll(events: seq<AgentEvent>, delivered: seq<ShellEvent>, onEvent: Callback)
    requires forall history :: onEvent(history)
    ensures Deliver(events, delivered, onEvent) == Result(delivered + AllMeant(events), Finished)
            <==> forall e :: e in events ==> Fits(e)
    decreases events
  {
    if events != [] {
      var more := delivered + [Meant(events[0])];
      assert more + AllMeant(events[1..]) == delivered + AllMeant(events);
      DeliversAll(events[1..], more, onEvent);
      assert events[0] in events;
    } else {
      assert delivered + [] == delivered;
    }
  }

  // ---------------------------------------------------------------- other senders

  /** Data fields are joined by newlines. */
  lemma {:induction false} DataIsJoined(a: seq<string>, b: seq<string>)
    ensures JoinLines([]) == "" && forall line :: JoinLines([line]) == line
    ensures a != [] && b != [] ==> JoinLines(a + b) == JoinLines(a) + "\n" + JoinLines(b)
  {
    if |a| == 1 && b != [] {
      assert (a + b)[1..] == b;
    } else if a != [] && b != [] {
      assert (a + b)[1..] == a[1..] + b && (a + b)[0] == a[0];
      DataIsJoined(a[1..], b);
      assert a[0] + "\n" + (JoinLines(a[1..]) + "\n" + JoinLines(b)) == JoinLines(a) + "\n" + JoinLines(b);
    }
  }

  predicate EndsLine(eol: string) {
    eol == "\n" || eol == "\r\n"
  }

  /** A line without its end, well within the limit. */
  predicate PlainLine(line: string) {
    '\n' !in line && (line == "" || line[|line| - 1] != '\r') && Bytes(line) + 1 < MAX_LINE
  }

  /** What a line does: a field is noted, an empty line dispatches the event. */
  lemma ReadLine(line: string, eol: string, rest: string, p: Parser, onEvent: Callback)
    requires PlainLine(line) && EndsLine(eol)
    ensures Parse(line + eol + rest, p, onEvent)
            == if line != "" then Parse(rest, FieldLine(p, line), onEvent)
               else if !Accepts(onEvent, p) then Result(Dispatch(p).delivered, Refused)
               else Parse(rest, Parser("", [], Dispatch(p).delivered), onEvent)
  {
    var raw := if eol == "\n" then line else line + "\r";
    var s := raw + "\n" + rest;
    assert line + eol + rest == s;
    LineLengthIs(raw, rest);
    assert s[..|raw|] == raw && s[|raw| + 1..] == rest;
    BytesAppend(line, "\r");
    AsciiBytes("\r");
    assert DropCr(raw) == line;
  }

  /** Comments and fields of other names are skipped. */
  lemma OtherLinesAreSkipped(line: string, eol: string, rest: string, p: Parser, onEvent: Callback)
    requires PlainLine(line) && EndsLine(eol) && line != ""
    requires !HasPrefix(line, "event:") && !HasPrefix(line, "data:")
    ensures Parse(line + eol + rest, p, onEvent) == Parse(rest, p, onEvent)
  {
    ReadLine(line, eol, rest, p, onEvent);
  }

  function Stream(lines: seq<string>, eol: string): string {
    if lines == [] then "" else lines[0] + eol + Stream(lines[1..], eol)
  }

  /** Lines may end in a carriage return and a newline, or in a newline alone. */
  lemma {:induction false} LineEndsAreAlike(lines: seq<string>, p: Parser, onEvent: Callback)
    requires forall line :: line in lines ==> PlainLine(line)
    ensures Parse(Stream(lines, "\r\n"), p, onEvent) == Parse(Stream(lines, "\n"), p, onEvent)
    decreases |lines|
  {
    if lines != [] {
      var line, rest := lines[0], lines[1..];
      assert line in lines;
      ReadLine(line, "\r\n", Stream(rest, "\r\n"), p, onEvent);
      ReadLine(line, "\n", Stream(rest, "\n"), p, onEvent);
      if line != "" {
        LineEndsAreAlike(rest, FieldLine(p, line), onEvent);
      } else if Accepts(onEvent, p) {
        LineEndsAreAlike(rest, Parser("", [], Dispatch(p).delivered), onEvent);
      }
    }
  }
}
