/** The goroutines behind one shell call: two scanners, a waiter and the handler
    share a bounded channel. */
module ShellStream {
  import opened Basics
  import opened JsonText

  datatype Stream = Stdout | Stderr

  /** Process ids are 31 bits wide. */
  type Pid = n: nat | n < 0x8000_0000

  /** A status byte, 128 plus a signal, or -1 when there is neither. */
  type ExitCode = n: int | -1 <= n <= 255

  datatype Event =
    | PidIs(pid: Pid)
    | Line(stream: Stream, text: Text)
    | Broken(stream: Stream, why: Text)
    | Exit(code: ExitCode)
    | Cwd(dir: Text)
    | Env(fields: seq<(Text, Text)>)
    | StartError(why: Text)

  const CAPACITY := 64

  /** An output line must end before the scanner has read this many bytes. */
  const MAX_OUTPUT_LINE := 1024 * 1024

  predicate Short(line: Text) {
    TextBytes(line) < MAX_OUTPUT_LINE
  }

  datatype Stage = Reading | Sending(ev: Event) | SendingError(ev: Event) | Draining | Done

  /** `buffer` holds the lines already read from the pipe, `taken` the lines
      scanned so far, `broke` why scanning failed, if it did. */
  datatype Scanner = Scanner(stage: Stage, buffer: seq<Text>, taken: seq<Text>, broke: Option<Text>)

  datatype Waiter =
    | Waiting
    | Joining(code: ExitCode)
    | SendingExit(code: ExitCode)
    | Closing(code: ExitCode)
    | Ended(code: ExitCode)

  datatype Handler = Ranging | ReadingCwd | ReadingEnv | Returned

  /** `sent` lists everything ever sent on the channel; `panicked` records a send
      on the closed channel. */
  datatype Sys = Sys(
    pid: Pid,
    out: Scanner,
    err: Scanner,
    wg: int,
    waiter: Waiter,
    queue: seq<Event>,
    closed: bool,
    panicked: bool,
    sent: seq<Event>,
    handler: Handler,
    output: seq<Event>
  )

  const FRESH: Scanner := Scanner(Reading, [], [], None)

  /** The state right after the command was started and its pid reported. */
  function Started(pid: Pid): Sys {
    Sys(pid, FRESH, FRESH, 2, Waiting, [], false, false, [], Ranging, [PidIs(pid)])
  }

  /** What the handler writes when the command cannot be started. */
  predicate FailedStart(output: seq<Event>, why: Text) {
    |output| == 2 && output[0] == StartError(why) && output[1].Exit? && output[1].code == 127
  }

  datatype Step =
    | Fill(stream: Stream, lines: seq<Text>)
    | Scan(stream: Stream)
    | Break(stream: Stream, why: Text)
    | Hangup(stream: Stream)
    | Send(stream: Stream)
    | DrainEnds(stream: Stream)
    | WaitReturns(code: ExitCode)
    | Join
    | SendExit
    | Close
    | Receive
    | RangeEnds
    | ReportCwd(dir: Option<Text>)
    | ReportEnv(vars: Option<seq<(Text, Text)>>)

  function Of(s: Sys, stream: Stream): Scanner {
    if stream.Stdout? then s.out else s.err
  }

  function With(s: Sys, stream: Stream, scanner: Scanner): Sys {
    if stream.Stdout? then s.(out := scanner) else s.(err := scanner)
  }

  /** A send proceeds when there is room, and panics when the channel is closed. */
  predicate CanSend(s: Sys) {
    s.closed || |s.queue| < CAPACITY
  }

  function Sent(s: Sys, ev: Event): Sys {
    if s.closed then s.(panicked := true) else s.(queue := s.queue + [ev], sent := s.sent + [ev])
  }

  predicate Sends(stage: Stage) {
    stage.Sending? || stage.SendingError?
  }

  predicate ScannerEnabled(s: Sys, step: Step) {
    match step
    case Fill(stream, lines) =>
      Of(s, stream).stage == Reading && s.waiter == Waiting && forall line :: line in lines ==> Short(line)
    case Scan(stream) => Of(s, stream).stage == Reading && Of(s, stream).buffer != []
    case Break(stream, why) => Of(s, stream).stage == Reading && Of(s, stream).buffer == []
    case Hangup(stream) => Of(s, stream).stage == Reading && Of(s, stream).buffer == []
    case Send(stream) => Sends(Of(s, stream).stage) && CanSend(s)
    case DrainEnds(stream) => Of(s, stream).stage == Draining
    case _ => false
  }

  predicate WaiterEnabled(s: Sys, step: Step) {
    match step
    case WaitReturns(code) => s.waiter == Waiting
    case Join => s.waiter.Joining? && s.wg == 0
    case SendExit => s.waiter.SendingExit? && CanSend(s)
    case Close => s.waiter.Closing?
    case _ => false
  }

  predicate HandlerEnabled(s: Sys, step: Step) {
    match step
    case Receive => s.handler == Ranging && s.queue != []
    case RangeEnds => s.handler == Ranging && s.queue == [] && s.closed
    case ReportCwd(dir) => s.handler == ReadingCwd
    case ReportEnv(vars) => s.handler == ReadingEnv
    case _ => false
  }

  predicate Enabled(s: Sys, step: Step) {
    ScannerEnabled(s, step) || WaiterEnabled(s, step) || HandlerEnabled(s, step)
  }

  /** The pipes are read until the command's Wait returns and closes them; a scanner
      fails or ends only after the lines it has read. */
  function ScannerStep(s: Sys, step: Step): Sys
    requires ScannerEnabled(s, step)
  {
    var sc := Of(s, step.stream);
    match step
    case Fill(stream, lines) => With(s, stream, sc.(buffer := sc.buffer + lines))
    case Scan(stream) =>
      var line := sc.buffer[0];
      With(s, stream, sc.(stage := Sending(Line(stream, line)), buffer := sc.buffer[1..], taken := sc.taken + [line]))
    case Break(stream, why) =>
      With(s, stream, sc.(stage := SendingError(Broken(stream, why)), broke := Some(why)))
    case Hangup(stream) => With(s, stream, sc.(stage := Done)).(wg := s.wg - 1)
    case Send(stream) =>
      With(Sent(s, sc.stage.ev), stream, sc.(stage := if sc.stage.Sending? then Reading else Draining))
    case DrainEnds(stream) => With(s, stream, sc.(stage := Done)).(wg := s.wg - 1)
  }

  function WaiterStep(s: Sys, step: Step): Sys
    requires WaiterEnabled(s, step)
  {
    match step
    case WaitReturns(code) => s.(waiter := Joining(code))
    case Join => s.(waiter := SendingExit(s.waiter.code))
    case SendExit => Sent(s, Exit(s.waiter.code)).(waiter := Closing(s.waiter.code))
    case Close => s.(waiter := Ended(s.waiter.code), closed := true)
  }

  /** A text without the newlines it ends with. */
  function TrimNewlines(text: Text): (r: Text)
    ensures r <= text && forall i :: |r| <= i < |text| ==> text[i] == Scalar('\n')
    ensures r != [] ==> r[|r| - 1] != Scalar('\n')
  {
    if text != [] && text[|text| - 1] == Scalar('\n') then TrimNewlines(text[..|text| - 1]) else text
  }

  function HandlerStep(s: Sys, step: Step): Sys
    requires HandlerEnabled(s, step)
  {
    match step
    case Receive => s.(output := s.output + [s.queue[0]], queue := s.queue[1..])
    case RangeEnds => s.(handler := ReadingCwd)
    case ReportCwd(dir) =>
      s.(handler := ReadingEnv, output := s.output + if dir.Some? then [Cwd(TrimNewlines(dir.value))] else [])
    case ReportEnv(vars) =>
      s.(handler := Returned, output := s.output + if vars.Some? then [Env(vars.value)] else [])
  }

  function Next(s: Sys, step: Step): Sys
    requires Enabled(s, step)
  {
    if ScannerEnabled(s, step) then ScannerStep(s, step)
    else if WaiterEnabled(s, step) then WaiterStep(s, step)
    else HandlerStep(s, step)
  }

  // ---------------------------------------------------------------- order

  /** The lines of one stream as events. */
  function Lines(stream: Stream, lines: seq<Text>): seq<Event> {
    if lines == [] then []
    else Lines(stream, lines[..|lines| - 1]) + [Line(stream, lines[|lines| - 1])]
  }

  /** Everything a scanner has produced: a line event per line scanned, then an
      error event if scanning failed. */
  function Produced(stream: Stream, sc: Scanner): seq<Event> {
    if sc.broke.Some? then Lines(stream, sc.taken) + [Broken(stream, sc.broke.value)] else Lines(stream, sc.taken)
  }

  predicate IsFrom(ev: Event, stream: Stream) {
    (ev.Line? || ev.Broken?) && ev.stream == stream
  }

  /** One stream's events, in order. */
  function OfStream(events: seq<Event>, stream: Stream): seq<Event> {
    if events == [] then []
    else
      var last := events[|events| - 1];
      var before := OfStream(events[..|events| - 1], stream);
      if IsFrom(last, stream) then before + [last] else before
  }

  /** An order-preserving merge of two streams' events, and nothing else. */
  ghost predicate IsMerge(events: seq<Event>, out: seq<Event>, err: seq<Event>) {
    && (forall ev :: ev in events ==> ev.Line? || ev.Broken?)
    && OfStream(events, Stdout) == out
    && OfStream(events, Stderr) == err
  }

  lemma OneMoreEvent(events: seq<Event>, ev: Event, stream: Stream)
    ensures OfStream(events + [ev], stream)
            == if IsFrom(ev, stream) then OfStream(events, stream) + [ev] else OfStream(events, stream)
  {
    assert (events + [ev])[..|events|] == events;
  }

  lemma OneMoreLine(stream: Stream, lines: seq<Text>, line: Text)
    ensures Lines(stream, lines + [line]) == Lines(stream, lines) + [Line(stream, line)]
  {
    assert (lines + [line])[..|lines|] == lines;
  }

  // ---------------------------------------------------------------- the invariant

  predicate ScannerOk(sc: Scanner, sent: seq<Event>, stream: Stream) {
    && (Sends(sc.stage) ==> IsFrom(sc.stage.ev, stream))
    && (forall line :: line in sc.buffer + sc.taken ==> Short(line))
    && (sc.stage.Reading? || sc.stage.Sending? ==> sc.broke == None)
    && var handed := OfStream(sent, stream);
       Produced(stream, sc) == if Sends(sc.stage) then handed + [sc.stage.ev] else handed
  }

  function Undone(s: Sys): int {
    (if s.out.stage.Done? then 0 else 1) + if s.err.stage.Done? then 0 else 1
  }

  /** After the exit event is sent, both scanners are done for good. */
  predicate WaiterOk(s: Sys) {
    && s.wg == Undone(s)
    && (s.waiter.SendingExit? || s.waiter.Closing? || s.waiter.Ended? ==> s.wg == 0)
    && s.closed == s.waiter.Ended?
  }

  predicate ExitSent(s: Sys) {
    s.waiter.Closing? || s.waiter.Ended?
  }

  /** The stream events sent so far. */
  function Body(s: Sys): seq<Event> {
    if ExitSent(s) && s.sent != [] then s.sent[..|s.sent| - 1] else s.sent
  }

  ghost predicate SentOk(s: Sys) {
    && (forall ev :: ev in Body(s) ==> ev.Line? || ev.Broken?)
    && (ExitSent(s) ==> s.sent != [] && s.sent[|s.sent| - 1] == Exit(s.waiter.code))
  }

  ghost predicate OutputOk(s: Sys) {
    match s.handler
    case Ranging => s.output + s.queue == [PidIs(s.pid)] + s.sent
    case ReadingCwd => s.waiter.Ended? && s.queue == [] && s.output == [PidIs(s.pid)] + s.sent
    case _ =>
      s.waiter.Ended? && s.queue == []
      && exists tail :: IsTail(tail, s.handler) && s.output == [PidIs(s.pid)] + s.sent + tail
  }

  /** At most a cwd event, then at most an env event. */
  predicate IsTail(tail: seq<Event>, handler: Handler) {
    || tail == []
    || (|tail| == 1 && (tail[0].Cwd? || (handler == Returned && tail[0].Env?)))
    || (|tail| == 2 && tail[0].Cwd? && tail[1].Env? && handler == Returned)
  }

  ghost predicate Inv(s: Sys) {
    && ScannerOk(s.out, s.sent, Stdout) && ScannerOk(s.err, s.sent, Stderr)
    && WaiterOk(s) && SentOk(s) && OutputOk(s)
    && |s.queue| <= CAPACITY && !s.panicked
  }

  // ---------------------------------------------------------------- every step keeps it

  lemma SendingScannerOk(sc: Scanner, sent: seq<Event>, stream: Stream)
    requires ScannerOk(sc, sent, stream) && Sends(sc.stage)
    ensures ScannerOk(sc.(stage := if sc.stage.Sending? then Reading else Draining), sent + [sc.stage.ev], stream)
  {
    OneMoreEvent(sent, sc.stage.ev, stream);
  }

  lemma OtherScannerOk(sc: Scanner, sent: seq<Event>, stream: Stream, ev: Event)
    requires ScannerOk(sc, sent, stream) && !IsFrom(ev, stream)
    ensures ScannerOk(sc, sent + [ev], stream)
  {
    OneMoreEvent(sent, ev, stream);
  }

  lemma ScanningScannerOk(sc: Scanner, sent: seq<Event>, stream: Stream)
    requires ScannerOk(sc, sent, stream) && sc.stage == Reading && sc.buffer != []
    ensures var line := sc.buffer[0];
            var stage := Sending(Line(stream, line));
            ScannerOk(sc.(stage := stage, buffer := sc.buffer[1..], taken := sc.taken + [line]), sent, stream)
  {
    OneMoreLine(stream, sc.taken, sc.buffer[0]);
  }

  lemma QueueGrows(s: Sys, ev: Event)
    requires s.output + s.queue == [PidIs(s.pid)] + s.sent
    ensures s.output + (s.queue + [ev]) == [PidIs(s.pid)] + (s.sent + [ev])
  {
    assert s.output + (s.queue + [ev]) == (s.output + s.queue) + [ev];
    assert [PidIs(s.pid)] + (s.sent + [ev]) == ([PidIs(s.pid)] + s.sent) + [ev];
  }

  lemma SendKeepsInv(s: Sys, stream: Stream)
    requires Inv(s) && ScannerEnabled(s, Send(stream))
    ensures Inv(ScannerStep(s, Send(stream)))
  {
    var ev := Of(s, stream).stage.ev;
    assert s.wg > 0 && !s.closed && !ExitSent(s) && s.handler == Ranging;
    SendingScannerOk(Of(s, stream), s.sent, stream);
    match stream {
      case Stdout => OtherScannerOk(s.err, s.sent, Stderr, ev);
      case Stderr => OtherScannerOk(s.out, s.sent, Stdout, ev);
    }
    QueueGrows(s, ev);
  }

  lemma ScannerKeepsInv(s: Sys, step: Step)
    requires Inv(s) && ScannerEnabled(s, step)
    ensures Inv(ScannerStep(s, step))
  {
    match step
    case Send(stream) => SendKeepsInv(s, stream);
    case Scan(stream) => ScanningScannerOk(Of(s, stream), s.sent, stream);
    case _ => OthersKeepInv(s, step);
  }

  lemma OthersKeepInv(s: Sys, step: Step)
    requires Inv(s) && ScannerEnabled(s, step) && !step.Send? && !step.Scan?
    ensures Inv(ScannerStep(s, step))
  {
    var t := ScannerStep(s, step);
    assert t.sent == s.sent && t.queue == s.queue && t.output == s.output && Body(t) == Body(s);
  }

  lemma WaiterKeepsInv(s: Sys, step: Step)
    requires Inv(s) && WaiterEnabled(s, step)
    ensures Inv(WaiterStep(s, step))
  {
    if step.SendExit? {
      var ev := Exit(s.waiter.code);
      assert !s.closed && s.handler == Ranging;
      OtherScannerOk(s.out, s.sent, Stdout, ev);
      OtherScannerOk(s.err, s.sent, Stderr, ev);
      QueueGrows(s, ev);
      assert (s.sent + [ev])[..|s.sent|] == s.sent;
    } else {
      assert WaiterStep(s, step).sent == s.sent;
    }
  }

  lemma ReceiveKeepsInv(s: Sys)
    requires Inv(s) && HandlerEnabled(s, Receive)
    ensures Inv(HandlerStep(s, Receive))
  {
    assert (s.output + [s.queue[0]]) + s.queue[1..] == s.output + s.queue;
  }

  lemma RangeEndKeepsInv(s: Sys)
    requires Inv(s) && HandlerEnabled(s, RangeEnds)
    ensures Inv(HandlerStep(s, RangeEnds))
  {
    assert s.output + [] == s.output;
  }

  lemma ReportKeepsOutput(s: Sys, step: Step)
    requires OutputOk(s) && HandlerEnabled(s, step) && (step.ReportCwd? || step.ReportEnv?)
    ensures OutputOk(HandlerStep(s, step))
  {
    if step.ReportCwd? {
      var tail := if step.dir.Some? then [Cwd(TrimNewlines(step.dir.value))] else [];
      assert IsTail(tail, ReadingEnv);
    } else {
      var tail :| IsTail(tail, s.handler) && s.output == [PidIs(s.pid)] + s.sent + tail;
      var more := tail + if step.vars.Some? then [Env(step.vars.value)] else [];
      assert IsTail(more, Returned) && HandlerStep(s, step).output == [PidIs(s.pid)] + s.sent + more;
    }
  }

  lemma HandlerKeepsInv(s: Sys, step: Step)
    requires Inv(s) && HandlerEnabled(s, step)
    ensures Inv(HandlerStep(s, step))
  {
    if step.Receive? {
      ReceiveKeepsInv(s);
    } else if step.RangeEnds? {
      RangeEndKeepsInv(s);
    } else {
      ReportKeepsOutput(s, step);
      assert HandlerStep(s, step).sent == s.sent;
    }
  }

  lemma NextKeepsInv(s: Sys, step: Step)
    requires Inv(s) && Enabled(s, step)
    ensures Inv(Next(s, step)) && Next(s, step).pid == s.pid
  {
    if ScannerEnabled(s, step) {
      ScannerKeepsInv(s, step);
    } else if WaiterEnabled(s, step) {
      WaiterKeepsInv(s, step);
    } else {
      HandlerKeepsInv(s, step);
    }
  }

  // ---------------------------------------------------------------- runs

  ghost predicate IsRun(run: seq<Sys>, steps: seq<Step>) {
    && |run| == |steps| + 1
    && forall i :: 0 <= i < |steps| ==> StepAt(run, steps, i)
  }

  predicate StepAt(run: seq<Sys>, steps: seq<Step>, i: nat)
    requires i < |steps| && i + 1 < |run|
  {
    Enabled(run[i], steps[i]) && run[i + 1] == Next(run[i], steps[i])
  }

  ghost predicate IsCall(run: seq<Sys>, steps: seq<Step>) {
    IsRun(run, steps) && run[0] == Started(run[0].pid)
  }

  lemma RunStep(run: seq<Sys>, steps: seq<Step>, i: nat)
    requires IsRun(run, steps) && i < |steps|
    ensures Enabled(run[i], steps[i]) && run[i + 1] == Next(run[i], steps[i])
  {
    assert StepAt(run, steps, i);
  }

  lemma {:induction false} CallsKeepInv(run: seq<Sys>, steps: seq<Step>, i: nat)
    requires IsCall(run, steps) && i < |run|
    ensures Inv(run[i]) && run[i].pid == run[0].pid
    decreases i
  {
    if i > 0 {
      CallsKeepInv(run, steps, i - 1);
      RunStep(run, steps, i - 1);
      NextKeepsInv(run[i - 1], steps[i - 1]);
    }
  }

  /** Nothing is ever sent after the channel is closed. */
  lemma NothingAfterClose(run: seq<Sys>, steps: seq<Step>, i: nat)
    requires IsCall(run, steps) && i < |run|
    ensures !run[i].panicked
    ensures run[i].closed ==> forall stream :: !ScannerEnabled(run[i], Send(stream))
  {
    CallsKeepInv(run, steps, i);
  }

  /** The whole output of a call: the pid, an order-preserving merge of
      everything either scanner produced, exactly one exit event, then at most
      a cwd and at most an env event. */
  ghost predicate WholeOutput(s: Sys, body: seq<Event>, tail: seq<Event>) {
    && s.waiter.Ended?
    && s.output == [PidIs(s.pid)] + body + [Exit(s.waiter.code)] + tail
    && IsMerge(body, Produced(Stdout, s.out), Produced(Stderr, s.err))
    && IsTail(tail, Returned)
  }

  lemma BodyIsMerge(s: Sys)
    requires Inv(s) && s.waiter.Ended?
    ensures s.sent == Body(s) + [Exit(s.waiter.code)]
    ensures IsMerge(Body(s), Produced(Stdout, s.out), Produced(Stderr, s.err))
  {
    var exit := Exit(s.waiter.code);
    assert s.sent == Body(s) + [exit];
    OneMoreEvent(Body(s), exit, Stdout);
    OneMoreEvent(Body(s), exit, Stderr);
  }

  lemma FinishedOutput(s: Sys, tail: seq<Event>)
    requires Inv(s) && s.handler == Returned
    requires IsTail(tail, Returned) && s.output == [PidIs(s.pid)] + s.sent + tail
    ensures WholeOutput(s, Body(s), tail)
  {
    BodyIsMerge(s);
    Regroup([PidIs(s.pid)], Body(s), [Exit(s.waiter.code)]);
  }

  lemma Regroup(a: seq<Event>, b: seq<Event>, c: seq<Event>)
    ensures a + (b + c) == a + b + c
  {
  }

  /** At any moment the output is a prefix of the pid and what was sent, in order,
      or all of that and a part of the closing reports; and what each stream has
      sent is a prefix of what it produced. */
  lemma OutputSoFar(run: seq<Sys>, steps: seq<Step>, i: nat, stream: Stream)
    requires IsCall(run, steps) && i < |run|
    ensures var s := run[i]; var all := [PidIs(run[0].pid)] + s.sent;
            s.output <= all || exists tail :: IsTail(tail, s.handler) && s.output == all + tail
    ensures OfStream(run[i].sent, stream) <= Produced(stream, Of(run[i], stream))
  {
    CallsKeepInv(run, steps, i);
  }

  // ---------------------------------------------------------------- progress

  function ScannerRank(sc: Scanner): nat {
    match sc.stage
    case Reading => 4 + 3 * |sc.buffer|
    case Sending(_) => 6 + 3 * |sc.buffer|
    case SendingError(_) => 3
    case Draining => 1
    case Done => 0
  }

  function WaiterRank(w: Waiter): nat {
    match w
    case Waiting => 6
    case Joining(_) => 5
    case SendingExit(_) => 4
    case Closing(_) => 2
    case Ended(_) => 0
  }

  function HandlerRank(h: Handler): nat {
    match h
    case Ranging => 3
    case ReadingCwd => 2
    case ReadingEnv => 1
    case Returned => 0
  }

  /** An upper bound on the steps left once nothing more is read from the pipes. */
  function Rank(s: Sys): nat {
    ScannerRank(s.out) + ScannerRank(s.err) + WaiterRank(s.waiter) + |s.queue| + HandlerRank(s.handler)
  }

  lemma ScannerCountsDown(s: Sys, step: Step)
    requires !s.closed && ScannerEnabled(s, step) && !step.Fill?
    ensures Rank(ScannerStep(s, step)) < Rank(s)
  {
    var t := ScannerStep(s, step);
    assert t.waiter == s.waiter && t.handler == s.handler;
    assert |t.queue| == if step.Send? then |s.queue| + 1 else |s.queue|;
  }

  lemma StepsCountDown(s: Sys, step: Step)
    requires Inv(s) && Enabled(s, step) && !step.Fill?
    ensures Rank(Next(s, step)) < Rank(s)
  {
    if ScannerEnabled(s, step) { ScannerCountsDown(s, step); }
  }

  lemma StepAfterWait(s: Sys, step: Step)
    requires Inv(s) && Enabled(s, step) && s.waiter != Waiting
    ensures Next(s, step).waiter != Waiting && Rank(Next(s, step)) < Rank(s)
  {
    StepsCountDown(s, step);
  }

  function ScannerMove(s: Sys, stream: Stream): Step {
    var sc := Of(s, stream);
    if Sends(sc.stage) then Send(stream)
    else if sc.stage.Draining? then DrainEnds(stream)
    else if sc.buffer != [] then Scan(stream)
    else Hangup(stream)
  }

  /** A step the call can take: receiving when there is something to receive,
      then the scanners', then the waiter's. */
  function Move(s: Sys): Step {
    match s.handler
    case ReadingCwd => ReportCwd(None)
    case ReadingEnv => ReportEnv(None)
    case _ =>
      if s.queue != [] then Receive
      else if s.closed then RangeEnds
      else if !s.out.stage.Done? then ScannerMove(s, Stdout)
      else if !s.err.stage.Done? then ScannerMove(s, Stderr)
      else
        match s.waiter
        case Joining(_) => Join
        case SendingExit(_) => SendExit
        case _ => Close
  }

  /** Once the command's Wait has returned, a call that has not returned yet can
      always take a step. */
  lemma NeverStuck(run: seq<Sys>, steps: seq<Step>, i: nat)
    requires IsCall(run, steps) && i < |run|
    requires run[i].handler != Returned && run[i].waiter != Waiting
    ensures Enabled(run[i], Move(run[i]))
  {
    CallsKeepInv(run, steps, i);
  }

  /** Even before that, a full channel never blocks for good: the handler can
      receive. */
  lemma FullChannelDrains(run: seq<Sys>, steps: seq<Step>, i: nat)
    requires IsCall(run, steps) && i < |run| && |run[i].queue| == CAPACITY
    ensures Enabled(run[i], Receive)
  {
    CallsKeepInv(run, steps, i);
  }

  lemma RankFalls(run: seq<Sys>, steps: seq<Step>, i: nat)
    requires IsCall(run, steps) && i < |steps| && run[i].waiter != Waiting
    ensures run[i + 1].waiter != Waiting && Rank(run[i + 1]) < Rank(run[i])
  {
    CallsKeepInv(run, steps, i);
    RunStep(run, steps, i);
    StepAfterWait(run[i], steps[i]);
  }

  /** Once the command's Wait has returned, no more than Rank steps follow, so
      with NeverStuck the call returns. */
  lemma {:induction false} CallsEnd(run: seq<Sys>, steps: seq<Step>, i: nat, j: nat)
    requires IsCall(run, steps) && i <= j < |run| && run[i].waiter != Waiting
    ensures run[j].waiter != Waiting && j - i + Rank(run[j]) <= Rank(run[i])
    decreases j
  {
    if i < j {
      CallsEnd(run, steps, i, j - 1);
      RankFalls(run, steps, j - 1);
    }
  }
}
