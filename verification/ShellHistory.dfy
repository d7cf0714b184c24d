/** What a call's output has to do with what happened in the call: what the pipes
    gave, what the command's wait returned, and what the snapshots held. */
module ShellHistory {
  import opened Basics
  import opened JsonText
  import opened ShellStream

  // ---------------------------------------------------------------- what happened

  /** What came from one pipe: all lines it gave, and the failures of its scanner. */
  datatype Speech = Speech(lines: seq<Text>, failures: seq<Text>)

  /** Everything that happened around a call: what came from the pipes, and, each time
      it happened, what the command's wait returned and what reading the snapshots of
      the directory and of the environment gave. */
  datatype Story = Story(
    out: Speech,
    err: Speech,
    codes: seq<ExitCode>,
    dirs: seq<Option<Text>>,
    envs: seq<Option<seq<(Text, Text)>>>
  )

  const SILENCE := Speech([], [])

  function SpeechOf(story: Story, stream: Stream): Speech {
    if stream.Stdout? then story.out else story.err
  }

  function SpeechAfter(speech: Speech, stream: Stream, step: Step): Speech {
    if step.Fill? && step.stream == stream then speech.(lines := speech.lines + step.lines)
    else if step.Break? && step.stream == stream then speech.(failures := speech.failures + [step.why])
    else speech
  }

  function StoryAfter(story: Story, step: Step): Story {
    Story(
      SpeechAfter(story.out, Stdout, step), SpeechAfter(story.err, Stderr, step),
      if step.WaitReturns? then story.codes + [step.code] else story.codes,
      if step.ReportCwd? then story.dirs + [step.dir] else story.dirs,
      if step.ReportEnv? then story.envs + [step.vars] else story.envs)
  }

  function StoryOf(steps: seq<Step>): Story {
    if steps == [] then Story(SILENCE, SILENCE, [], [], [])
    else StoryAfter(StoryOf(steps[..|steps| - 1]), steps[|steps| - 1])
  }

  function Failures(stream: Stream, failures: seq<Text>): seq<Event> {
    if failures == [] then []
    else Failures(stream, failures[..|failures| - 1]) + [Broken(stream, failures[|failures| - 1])]
  }

  /** A stream's events: every line, in order, then the failure, if there was one. */
  function Spoken(stream: Stream, speech: Speech): seq<Event> {
    Lines(stream, speech.lines) + Failures(stream, speech.failures)
  }

  /** The report of a snapshot, if there was one. */
  function CwdEvents(dir: Option<Text>): seq<Event> {
    if dir.Some? then [Cwd(TrimNewlines(dir.value))] else []
  }

  function EnvEvents(vars: Option<seq<(Text, Text)>>): seq<Event> {
    if vars.Some? then [Env(vars.value)] else []
  }

  // ---------------------------------------------------------------- the invariant

  predicate Heard(speech: Speech, sc: Scanner) {
    && sc.taken + sc.buffer == speech.lines
    && (!sc.stage.Reading? && !sc.stage.Sending? ==> sc.buffer == [])
    && (sc.stage.Reading? || sc.stage.Sending? ==> sc.broke == None)
    && speech.failures == if sc.broke.Some? then [sc.broke.value] else []
  }

  predicate Waited(story: Story, w: Waiter) {
    story.codes == if w == Waiting then [] else [w.code]
  }

  predicate Closed(story: Story, s: Sys) {
    match s.handler
    case ReadingEnv =>
      && |story.dirs| == 1 && story.envs == []
      && s.output == [PidIs(s.pid)] + s.sent + CwdEvents(story.dirs[0])
    case Returned =>
      && |story.dirs| == 1 && |story.envs| == 1
      && s.output == [PidIs(s.pid)] + s.sent + CwdEvents(story.dirs[0]) + EnvEvents(story.envs[0])
    case _ => story.dirs == [] && story.envs == []
  }

  predicate Tells(story: Story, s: Sys) {
    Heard(story.out, s.out) && Heard(story.err, s.err) && Waited(story, s.waiter) && Closed(story, s)
  }

  // ---------------------------------------------------------------- every step keeps it

  lemma ScannerIsHeard(speech: Speech, s: Sys, step: Step)
    requires ScannerEnabled(s, step) && Heard(speech, Of(s, step.stream))
    ensures Heard(SpeechAfter(speech, step.stream, step), Of(ScannerStep(s, step), step.stream))
  {
    var sc := Of(s, step.stream);
    if step.Fill? {
      assert sc.taken + (sc.buffer + step.lines) == (sc.taken + sc.buffer) + step.lines;
    } else if step.Scan? {
      assert sc.taken + [sc.buffer[0]] + sc.buffer[1..] == sc.taken + sc.buffer;
    }
  }

  lemma OtherIsHeard(speech: Speech, s: Sys, step: Step, stream: Stream)
    requires Enabled(s, step) && (ScannerEnabled(s, step) ==> step.stream != stream) && Heard(speech, Of(s, stream))
    ensures Heard(SpeechAfter(speech, stream, step), Of(Next(s, step), stream))
  {
  }

  lemma ScannersAreHeard(story: Story, s: Sys, step: Step, stream: Stream)
    requires Enabled(s, step) && Heard(SpeechOf(story, stream), Of(s, stream))
    ensures Heard(SpeechAfter(SpeechOf(story, stream), stream, step), Of(Next(s, step), stream))
  {
    if ScannerEnabled(s, step) && step.stream == stream {
      ScannerIsHeard(SpeechOf(story, stream), s, step);
    } else {
      OtherIsHeard(SpeechOf(story, stream), s, step, stream);
    }
  }

  lemma WaitIsKnown(story: Story, s: Sys, step: Step)
    requires Enabled(s, step) && Waited(story, s.waiter)
    ensures Waited(StoryAfter(story, step), Next(s, step).waiter)
  {
  }

  /** Once the range over the channel has ended, only the handler moves. */
  lemma OnlyHandlerMoves(s: Sys, step: Step)
    requires Inv(s) && s.handler != Ranging && Enabled(s, step)
    ensures HandlerEnabled(s, step)
  {
    assert s.waiter.Ended? && s.wg == 0;
  }

  lemma OthersLeaveClosed(story: Story, s: Sys, step: Step)
    requires Enabled(s, step) && !HandlerEnabled(s, step) && s.handler == Ranging && Closed(story, s)
    ensures Closed(StoryAfter(story, step), Next(s, step))
  {
  }

  lemma HandlerCloses(story: Story, s: Sys, step: Step)
    requires OutputOk(s) && HandlerEnabled(s, step) && Closed(story, s)
    ensures Closed(StoryAfter(story, step), HandlerStep(s, step))
  {
  }

  lemma StepIsTold(story: Story, s: Sys, step: Step)
    requires Inv(s) && Enabled(s, step) && Tells(story, s)
    ensures Tells(StoryAfter(story, step), Next(s, step))
  {
    ScannersAreHeard(story, s, step, Stdout);
    ScannersAreHeard(story, s, step, Stderr);
    WaitIsKnown(story, s, step);
    if s.handler != Ranging { OnlyHandlerMoves(s, step); }
    if HandlerEnabled(s, step) {
      HandlerCloses(story, s, step);
    } else {
      OthersLeaveClosed(story, s, step);
    }
  }

  lemma StoryGrows(steps: seq<Step>, i: nat)
    requires i < |steps|
    ensures StoryOf(steps[..i + 1]) == StoryAfter(StoryOf(steps[..i]), steps[i])
  {
    assert steps[..i + 1][..i] == steps[..i];
  }

  lemma NextIsTold(run: seq<Sys>, steps: seq<Step>, i: nat)
    requires IsCall(run, steps) && 0 < i < |run| && Tells(StoryOf(steps[..i - 1]), run[i - 1])
    ensures Tells(StoryOf(steps[..i]), run[i])
  {
    var before := StoryOf(steps[..i - 1]);
    CallsKeepInv(run, steps, i - 1);
    RunStep(run, steps, i - 1);
    StepIsTold(before, run[i - 1], steps[i - 1]);
    StoryGrows(steps, i - 1);
    assert StoryOf(steps[..i]) == StoryAfter(before, steps[i - 1]);
  }

  lemma StoryBegins(steps: seq<Step>, pid: Pid)
    ensures Tells(StoryOf(steps[..0]), Started(pid))
  {
  }

  lemma {:induction false} CallsAreTold(run: seq<Sys>, steps: seq<Step>, i: nat)
    requires IsCall(run, steps) && i < |run|
    ensures Tells(StoryOf(steps[..i]), run[i])
    decreases i
  {
    if i == 0 {
      StoryBegins(steps, run[0].pid);
    } else {
      CallsAreTold(run, steps, i - 1);
      NextIsTold(run, steps, i);
    }
  }

  // ---------------------------------------------------------------- the whole call

  /** In every state of every call, the exit code the agent holds is what the
      command's wait returned, and it returned once; and what a scanner has taken is a
      prefix of the lines its pipe gave. */
  lemma CodesAndLinesAreTrue(run: seq<Sys>, steps: seq<Step>, i: nat, stream: Stream)
    requires IsCall(run, steps) && i < |run|
    ensures StoryOf(steps[..i]).codes == if run[i].waiter == Waiting then [] else [run[i].waiter.code]
    ensures Of(run[i], stream).taken <= SpeechOf(StoryOf(steps[..i]), stream).lines
  {
    CallsAreTold(run, steps, i);
  }

  /** The whole output of a call: the pid; an order-preserving merge of every line
      either pipe gave and the scanners' failures; the exit code the command's wait
      returned; and the directory and the environment the snapshots held, each exactly
      if there was one. */
  ghost predicate WholeCall(story: Story, s: Sys, body: seq<Event>, code: ExitCode, dir: Option<Text>,
                            vars: Option<seq<(Text, Text)>>)
  {
    && story.codes == [code] && story.dirs == [dir] && story.envs == [vars]
    && s.output == [PidIs(s.pid)] + body + [Exit(code)] + (CwdEvents(dir) + EnvEvents(vars))
    && IsMerge(body, Spoken(Stdout, story.out), Spoken(Stderr, story.err))
  }

  lemma ScannersSaidAll(speech: Speech, s: Sys, stream: Stream)
    requires Inv(s) && Heard(speech, Of(s, stream)) && s.waiter.Ended?
    ensures Produced(stream, Of(s, stream)) == Spoken(stream, speech)
  {
    var sc := Of(s, stream);
    assert sc.stage == Done && sc.taken == speech.lines;
    if sc.broke.Some? { OneFailure(stream, sc.broke.value); }
  }

  lemma OneFailure(stream: Stream, why: Text)
    ensures Failures(stream, [why]) == [Broken(stream, why)]
  {
    assert [why][..0] == [];
    assert Failures(stream, []) == [];
  }

  lemma ReportsAreTail(dir: Option<Text>, vars: Option<seq<(Text, Text)>>)
    ensures IsTail(CwdEvents(dir) + EnvEvents(vars), Returned)
  {
  }

  lemma FinishedReports(story: Story, s: Sys, dir: Option<Text>, vars: Option<seq<(Text, Text)>>)
    requires Inv(s) && Closed(story, s) && s.handler == Returned && story.dirs == [dir] && story.envs == [vars]
    ensures WholeOutput(s, Body(s), CwdEvents(dir) + EnvEvents(vars))
  {
    Regroup([PidIs(s.pid)] + s.sent, CwdEvents(dir), EnvEvents(vars));
    ReportsAreTail(dir, vars);
    FinishedOutput(s, CwdEvents(dir) + EnvEvents(vars));
  }

  lemma FinishedCall(story: Story, s: Sys, dir: Option<Text>, vars: Option<seq<(Text, Text)>>)
    requires Inv(s) && Tells(story, s) && s.handler == Returned && story.dirs == [dir] && story.envs == [vars]
    ensures WholeCall(story, s, Body(s), s.waiter.code, dir, vars)
    ensures WholeOutput(s, Body(s), CwdEvents(dir) + EnvEvents(vars))
  {
    FinishedReports(story, s, dir, vars);
    ScannersSaidAll(story.out, s, Stdout);
    ScannersSaidAll(story.err, s, Stderr);
  }

  lemma ReturnedCall(run: seq<Sys>, steps: seq<Step>, i: nat)
    returns (dir: Option<Text>, vars: Option<seq<(Text, Text)>>)
    requires IsCall(run, steps) && i < |run| && run[i].handler == Returned
    ensures Inv(run[i]) && WholeCall(StoryOf(steps[..i]), run[i], Body(run[i]), run[i].waiter.code, dir, vars)
    ensures WholeOutput(run[i], Body(run[i]), CwdEvents(dir) + EnvEvents(vars))
  {
    CallsKeepInv(run, steps, i);
    CallsAreTold(run, steps, i);
    var story := StoryOf(steps[..i]);
    dir, vars := story.dirs[0], story.envs[0];
    FinishedCall(story, run[i], dir, vars);
  }

  lemma ReturnedOutput(run: seq<Sys>, steps: seq<Step>, i: nat)
    requires IsCall(run, steps) && i < |run| && run[i].handler == Returned
    ensures run[i].pid == run[0].pid
    ensures exists body, code, dir, vars :: WholeCall(StoryOf(steps[..i]), run[i], body, code, dir, vars)
  {
    CallsKeepInv(run, steps, i);
    var dir, vars := ReturnedCall(run, steps, i);
  }
}
