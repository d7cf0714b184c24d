/** A shell call end to end: what the client makes of a finished call's stream. */
module ShellCall {
  import opened JsonText
  import opened ShellStream
  import opened ShellHistory
  import opened ShellEvents

  function StreamName(stream: Stream): string {
    if stream.Stdout? then "stdout" else "stderr"
  }

  function Itoa(n: int): string {
    if n < 0 then "-" + Digits(-n) else Digits(n)
  }

  /** An event as it is written to the response. */
  function Named(ev: Event): AgentEvent {
    match ev
    case PidIs(pid) => AgentEvent("pid", Number(pid))
    case Line(stream, text) => AgentEvent(StreamName(stream), Str(text))
    case Broken(stream, why) => AgentEvent("error", Str(Valid(StreamName(stream) + " stream: ") + why))
    case Exit(code) => AgentEvent("exit", Str(Valid(Itoa(code))))
    case Cwd(dir) => AgentEvent("cwd", Str(dir))
    case Env(fields) => AgentEvent("env", Object(fields))
    case StartError(why) => AgentEvent("error", Str(why))
  }

  function NamedAll(events: seq<Event>): (named: seq<AgentEvent>)
    ensures |named| == |events| && forall i :: 0 <= i < |events| ==> named[i] == Named(events[i])
  {
    if events == [] then [] else [Named(events[0])] + NamedAll(events[1..])
  }

  /** The response body for the events written. */
  function Body(events: seq<Event>): string {
    PrintAll(NamedAll(events))
  }

  /** What the client is given for an event. */
  function Gives(ev: Event): ShellEvent {
    match ev
    case PidIs(pid) => ShellEvent("pid", Digits(pid))
    case Line(Stdout, text) => ShellEvent("stdout", Scrub(text))
    case Line(Stderr, text) => ShellEvent("stderr", Scrub(text))
    case Broken(Stdout, why) => ShellEvent("error", "stdout" + " stream: " + Scrub(why))
    case Broken(Stderr, why) => ShellEvent("error", "stderr" + " stream: " + Scrub(why))
    case Exit(code) => ShellEvent("exit", if code < 0 then "-" + Digits(-code) else Digits(code))
    case Cwd(dir) => ShellEvent("cwd", Scrub(dir))
    case Env(fields) => ShellEvent("env", "{" + Fields(fields) + "}")
    case StartError(why) => ShellEvent("error", Scrub(why))
  }

  /** What the client should be given for the events. */
  function Given(events: seq<Event>): seq<ShellEvent> {
    if events == [] then [] else [Gives(events[0])] + Given(events[1..])
  }

  const FRESH_PARSER := Parser("", [], [])

  lemma {:induction false} ScrubAppend(a: Text, b: Text)
    ensures Scrub(a + b) == Scrub(a) + Scrub(b)
  {
    if a == [] {
      assert a + b == b;
    } else {
      assert (a + b)[1..] == a[1..] + b && (a + b)[0] == a[0];
      ScrubAppend(a[1..], b);
    }
  }

  lemma BrokenIsGiven(stream: Stream, why: Text)
    ensures Meant(Named(Broken(stream, why))) == Gives(Broken(stream, why))
  {
    var s := StreamName(stream) + " stream: ";
    ScrubAppend(Valid(s), why);
    ScrubValid(s);
  }

  /** The client decodes what the agent encoded. */
  lemma MeantIsGiven(ev: Event)
    ensures Meant(Named(ev)) == Gives(ev)
  {
    if ev.Exit? {
      ScrubValid(Itoa(ev.code));
    } else if ev.Broken? {
      BrokenIsGiven(ev.stream, ev.why);
    }
  }

  lemma {:induction false} AllMeantIsGiven(events: seq<Event>)
    ensures AllMeant(NamedAll(events)) == Given(events)
  {
    if events != [] {
      MeantIsGiven(events[0]);
      AllMeantIsGiven(events[1..]);
      assert NamedAll(events)[1..] == NamedAll(events[1..]);
    }
  }

  /** The number a decimal text stands for. */
  function Reads(s: string): int {
    if s == "" then 0 else 10 * Reads(s[..|s| - 1]) + (s[|s| - 1] as int - '0' as int)
  }

  /** Pids and exit codes are written in decimal, without superfluous zeros. */
  lemma {:induction false} DigitsRead(n: nat)
    ensures Reads(Digits(n)) == n && (Digits(n)[0] == '0' ==> n == 0)
  {
    var d := ['0' + (n % 10) as char];
    assert d[..0] == "";
    if n >= 10 {
      DigitsRead(n / 10);
      assert Digits(n)[..|Digits(n)| - 1] == Digits(n / 10);
    }
  }

  lemma {:induction false} GivenAppend(a: seq<Event>, b: seq<Event>)
    ensures Given(a + b) == Given(a) + Given(b)
  {
    if a == [] {
      assert a + b == b;
    } else {
      assert (a + b)[1..] == a[1..] + b;
      GivenAppend(a[1..], b);
    }
  }

  lemma GivenOne(ev: Event)
    ensures Given([ev]) == [Gives(ev)]
  {
    assert [ev][1..] == [];
    assert Given([]) == [];
  }

  lemma NamesAreProper(ev: Event)
    ensures ProperName(Named(ev).name)
  {
    var name := Named(ev).name;
    assert |name| <= 6 && |"event: " + name| <= 13;
    AsciiBytes("event: " + name);
  }

  /** Every output line the agent's scanner accepts fits, whatever its bytes. */
  lemma OutputLinesFit(name: string, text: Text)
    requires Short(text)
    ensures Fits(AgentEvent(name, Str(text)))
  {
    QuoteBytes(text);
    BytesAppend("data: ", Quote(text));
    AsciiBytes("data: ");
  }

  function Power(k: nat): nat {
    if k == 0 then 1 else 10 * Power(k - 1)
  }

  lemma {:induction false} DigitsAreFew(n: nat, k: nat)
    requires k > 0 && n < Power(k)
    ensures |Digits(n)| <= k
  {
    if n >= 10 {
      assert Power(k) == 10 * Power(k - 1) && Power(0) == 1;
      DigitsAreFew(n / 10, k - 1);
    }
  }

  /** A number of at most ten digits is written in as many bytes. */
  lemma DigitsAreBytes(n: nat)
    requires n < 10_000_000_000
    ensures Bytes(Digits(n)) == |Digits(n)| <= 10
  {
    assert Power(5) == 100_000;
    assert Power(10) == 10_000_000_000;
    DigitsAreFew(n, 10);
    AsciiBytes(Digits(n));
  }

  lemma PidFits(pid: Pid)
    ensures Fits(Named(PidIs(pid)))
  {
    DigitsAreBytes(pid);
    BytesAppend("data: ", Digits(pid));
    AsciiBytes("data: ");
  }

  lemma ExitFits(code: ExitCode)
    ensures Fits(Named(Exit(code)))
  {
    var text := Itoa(code);
    DigitsAreBytes(if code < 0 then -code else code);
    AsciiBytes(text);
    ValidBytes(text);
    OutputLinesFit("exit", Valid(text));
  }

  /** Whatever fits is parsed back in order. */
  lemma EventsArrive(events: seq<Event>, onEvent: Callback)
    requires forall ev :: ev in events ==> Fits(Named(ev))
    requires forall history :: onEvent(history)
    ensures Parse(Body(events), FRESH_PARSER, onEvent) == Result(Given(events), Finished)
  {
    forall e | e in NamedAll(events) ensures ProperName(e.name) && Fits(e) {
      var i :| 0 <= i < |events| && e == Named(events[i]);
      NamesAreProper(events[i]);
      assert events[i] in events;
    }
    PrintParse(NamedAll(events), [], onEvent);
    DeliversAll(NamedAll(events), [], onEvent);
    AllMeantIsGiven(events);
    assert [] + Given(events) == Given(events);
  }

  // ---------------------------------------------------------------- lines are short

  lemma {:induction false} StreamHasItsEvents(events: seq<Event>, stream: Stream, ev: Event)
    requires ev in events && IsFrom(ev, stream)
    ensures ev in OfStream(events, stream)
  {
    var n := |events| - 1;
    if ev != events[n] { StreamHasItsEvents(events[..n], stream, ev); }
  }

  lemma {:induction false} LinesAreTaken(stream: Stream, lines: seq<Text>, ev: Event)
    requires ev in Lines(stream, lines)
    ensures ev.Line? && ev.text in lines
  {
    var n := |lines| - 1;
    if ev != Line(stream, lines[n]) { LinesAreTaken(stream, lines[..n], ev); }
  }

  lemma ProducedLinesAreShort(sc: Scanner, stream: Stream, ev: Event)
    requires ev in Produced(stream, sc) && ev.Line? && forall line :: line in sc.taken ==> Short(line)
    ensures Short(ev.text)
  {
    assert ev in Lines(stream, sc.taken);
    LinesAreTaken(stream, sc.taken, ev);
  }

  lemma BodyLinesFit(s: Sys, body: seq<Event>, ev: Event)
    requires Inv(s) && IsMerge(body, Produced(Stdout, s.out), Produced(Stderr, s.err))
    requires ev in body && ev.Line?
    ensures Fits(Named(ev))
  {
    StreamHasItsEvents(body, ev.stream, ev);
    ProducedLinesAreShort(Of(s, ev.stream), ev.stream, ev);
    OutputLinesFit(Named(ev).name, ev.text);
  }

  // ---------------------------------------------------------------- the whole call

  /** The directory, the environment and the error texts of a call. */
  predicate IsReport(ev: Event) {
    ev.Cwd? || ev.Env? || ev.Broken? || ev.StartError?
  }

  /** Every report fits a line of the client's. */
  ghost predicate ReportsFit(events: seq<Event>) {
    forall ev :: ev in events && IsReport(ev) ==> Fits(Named(ev))
  }

  lemma GivenParts(first: Event, body: seq<Event>, last: Event, tail: seq<Event>)
    ensures Given([first] + body + [last] + tail) == [Gives(first)] + Given(body) + [Gives(last)] + Given(tail)
  {
    GivenAppend([first] + body + [last], tail);
    GivenAppend([first] + body, [last]);
    GivenAppend([first], body);
    GivenOne(first);
    GivenOne(last);
  }

  lemma WholeCallFits(s: Sys, body: seq<Event>, tail: seq<Event>, ev: Event)
    requires Inv(s) && WholeOutput(s, body, tail) && ReportsFit(s.output) && ev in s.output
    ensures Fits(Named(ev))
  {
    match ev
    case PidIs(pid) => PidFits(pid);
    case Exit(code) => ExitFits(code);
    case Line(_, _) => BodyLinesFit(s, body, ev);
    case _ =>
  }

  lemma WholeCallArrives(s: Sys, body: seq<Event>, tail: seq<Event>, onEvent: Callback)
    requires Inv(s) && WholeOutput(s, body, tail) && ReportsFit(s.output)
    requires forall history :: onEvent(history)
    ensures Parse(Body(s.output), FRESH_PARSER, onEvent)
            == Result([Gives(PidIs(s.pid))] + Given(body) + [Gives(Exit(s.waiter.code))] + Given(tail), Finished)
  {
    assert forall ev :: ev in s.output ==> Fits(Named(ev)) by {
      forall ev | ev in s.output ensures Fits(Named(ev)) { WholeCallFits(s, body, tail, ev); }
    }
    EventsArrive(s.output, onEvent);
    GivenParts(PidIs(s.pid), body, Exit(s.waiter.code), tail);
  }

  /** The client of a finished call is given the pid, an order-preserving merge of
      every line either pipe gave and the scanners' failures, the exit code the
      command's wait returned, then the working directory and the environment the
      snapshots held, each exactly if there was one. Pid, output lines and exit code
      always arrive; only a report that does not fit a line could cut the stream
      short. */
  lemma CallArrives(run: seq<Sys>, steps: seq<Step>, i: nat, onEvent: Callback)
    requires IsCall(run, steps) && i < |run| && run[i].handler == Returned
    requires ReportsFit(run[i].output) && forall history :: onEvent(history)
    ensures exists body, code, dir, vars ::
              && WholeCall(StoryOf(steps[..i]), run[i], body, code, dir, vars)
              && Parse(Body(run[i].output), FRESH_PARSER, onEvent)
                 == Result([Gives(PidIs(run[i].pid))] + Given(body) + [Gives(Exit(code))]
                           + Given(CwdEvents(dir) + EnvEvents(vars)), Finished)
  {
    var dir, vars := ReturnedCall(run, steps, i);
    WholeCallArrives(run[i], ShellStream.Body(run[i]), CwdEvents(dir) + EnvEvents(vars), onEvent);
  }

  lemma DigitsOf127()
    ensures Digits(127) == "127"
  {
    assert Digits(1) == "1" && Digits(12) == Digits(1) + "2" && Digits(127) == Digits(12) + "7";
  }

  lemma TwoEventsArrive(first: Event, last: Event, onEvent: Callback)
    requires Fits(Named(first)) && Fits(Named(last)) && forall history :: onEvent(history)
    ensures Parse(Body([first, last]), FRESH_PARSER, onEvent) == Result([Gives(first), Gives(last)], Finished)
  {
    EventsArrive([first, last], onEvent);
    assert [first, last] == [first] + [last];
    GivenAppend([first], [last]);
    GivenOne(first);
    GivenOne(last);
  }

  /** A call whose command cannot be started gives the error and exit code 127. */
  lemma FailedStartArrives(why: Text, events: seq<Event>, onEvent: Callback)
    requires FailedStart(events, why) && Fits(Named(StartError(why))) && forall history :: onEvent(history)
    ensures Parse(Body(events), FRESH_PARSER, onEvent)
            == Result([ShellEvent("error", Scrub(why)), ShellEvent("exit", "127")], Finished)
  {
    var first, last := events[0], events[1];
    assert events == [first, last];
    DigitsOf127();
    ExitFits(last.code);
    TwoEventsArrive(first, last, onEvent);
  }
}
