/** Who may collect which child: commands wait for their own, the PID 1 reaper
    for adopted orphans, while the kernel reuses process ids. */
module ChildOwnership {
  import opened Basics

  type Pid = nat

  type Cmd = nat

  /** An unreaped child of the agent. `owner` is the command it was started for,
      None for an adopted orphan; `status` is set once it is a zombie. */
  datatype Child = Child(owner: Option<Cmd>, status: Option<int>)

  type Kernel = map<Pid, Child>

  type Registry = map<Pid, Cmd>

  /** How far a command has come: forked but not yet registered, registered,
      status collected but not yet deregistered, deregistered, never forked. */
  datatype Phase =
    | Forked(pid: Pid)
    | Running(pid: Pid)
    | Collected(pid: Pid)
    | Finished(pid: Pid)
    | NotForked

  datatype Holder = Nobody | Starting(cmd: Cmd) | Reaping

  /** The reaper's position. `pids` is what is left of its listing. */
  datatype Reaper =
    | Resting
    | Scanning(pids: seq<Pid>)
    | Inspecting(pids: seq<Pid>)
    | Unmanaged(pids: seq<Pid>)
    | FallingBack
    | Counting
    | Sweeping

  datatype Taker = Waiter(cmd: Cmd) | Reaper

  /** One return of wait4: who called, whose child it was, and the status; None
      when there was no such child. */
  datatype Record = Record(taker: Taker, owner: Option<Cmd>, status: Option<int>)

  datatype Sys = Sys(
    kernel: Kernel,
    managed: Registry,
    holder: Holder,
    cmds: map<Cmd, Phase>,
    exits: map<Cmd, int>,
    reaper: Reaper,
    log: seq<Record>
  )

  const START: Sys := Sys(map[], map[], Nobody, map[], map[], Resting, [])

  datatype Step =
    | StartLocks(cmd: Cmd)
    | ForkFails(cmd: Cmd)
    | Fork(cmd: Cmd, pid: Pid)
    | Register(cmd: Cmd)
    | Exit(pid: Pid, status: int)
    | Adopt(pid: Pid)
    | WaitReturns(cmd: Cmd)
    | Deregister(cmd: Cmd)
    | List(pids: seq<Pid>)
    | ListFails
    | GiveUp
    | LockNext
    | CheckOwner
    | WaitListed
    | WaitListedFails
    | LockForAny
    | CheckIdle
    | WaitAny(pid: Pid)
    | WaitAnyFails
    | StopSweeping

  predicate Zombie(kernel: Kernel, pid: Pid) {
    pid in kernel && kernel[pid].status.Some?
  }

  function Zombies(kernel: Kernel): set<Pid> {
    set pid | pid in kernel.Keys && Zombie(kernel, pid)
  }

  // ---------------------------------------------------------------- the shared decisions

  /** Registration after a fork replaces whatever the process id named before. */
  function Registered(managed: Registry, pid: Pid, cmd: Cmd): Registry {
    managed[pid := cmd]
  }

  /** Deregistration only removes the command's own entry. */
  function Deregistered(managed: Registry, pid: Pid, cmd: Cmd): Registry {
    if pid in managed && managed[pid] == cmd then managed - {pid} else managed
  }

  /** wait4 without blocking: only a zombie goes away. */
  function Collect(kernel: Kernel, pid: Pid): Kernel {
    if Zombie(kernel, pid) then kernel - {pid} else kernel
  }

  /** What wait4 on `pid` reports to `taker`. */
  function Report(kernel: Kernel, pid: Pid, taker: Taker): Record {
    if pid in kernel then Record(taker, kernel[pid].owner, kernel[pid].status) else Record(taker, None, None)
  }

  // ---------------------------------------------------------------- steps

  predicate StartEnabled(s: Sys, step: Step) {
    match step
    case StartLocks(c) => s.holder == Nobody && c !in s.cmds
    case ForkFails(c) => s.holder == Starting(c) && c !in s.cmds
    case Fork(c, pid) => s.holder == Starting(c) && c !in s.cmds && pid !in s.kernel
    case Register(c) => s.holder == Starting(c) && c in s.cmds && s.cmds[c].Forked?
    case _ => false
  }

  /** Cmd.Wait blocks while its process id names a live child. */
  predicate WaitEnabled(s: Sys, step: Step) {
    match step
    case WaitReturns(c) =>
      c in s.cmds && s.cmds[c].Running? && (s.cmds[c].pid !in s.kernel || Zombie(s.kernel, s.cmds[c].pid))
    case Deregister(c) => s.holder == Nobody && c in s.cmds && s.cmds[c].Collected?
    case _ => false
  }

  predicate WorldEnabled(s: Sys, step: Step) {
    match step
    case Exit(pid, status) => pid in s.kernel && s.kernel[pid].status == None
    case Adopt(pid) => pid !in s.kernel
    case _ => false
  }

  predicate ReaperEnabled(s: Sys, step: Step) {
    match step
    case List(pids) => s.reaper == Resting
    case ListFails => s.reaper == Resting
    case GiveUp => s.reaper.Scanning?
    case LockNext => s.reaper.Scanning? && s.reaper.pids != [] && s.holder == Nobody
    case CheckOwner => s.reaper.Inspecting? && s.reaper.pids != []
    case WaitListed => s.reaper.Unmanaged? && s.reaper.pids != []
    case WaitListedFails => s.reaper.Unmanaged? && s.reaper.pids != []
    case LockForAny => s.reaper == FallingBack && s.holder == Nobody
    case CheckIdle => s.reaper == Counting
    case WaitAny(pid) => s.reaper == Sweeping && Zombie(s.kernel, pid)
    case WaitAnyFails => s.reaper == Sweeping
    case StopSweeping => s.reaper == Sweeping && Zombies(s.kernel) == {}
    case _ => false
  }

  predicate Enabled(s: Sys, step: Step) {
    StartEnabled(s, step) || WaitEnabled(s, step) || WorldEnabled(s, step) || ReaperEnabled(s, step)
  }

  function StartStep(s: Sys, step: Step): Sys
    requires StartEnabled(s, step)
  {
    match step
    case StartLocks(c) => s.(holder := Starting(c))
    case ForkFails(c) => s.(holder := Nobody, cmds := s.cmds[c := NotForked])
    case Fork(c, pid) => s.(kernel := s.kernel[pid := Child(Some(c), None)], cmds := s.cmds[c := Forked(pid)])
    case Register(c) =>
      var pid := s.cmds[c].pid;
      s.(managed := Registered(s.managed, pid, c), holder := Nobody, cmds := s.cmds[c := Running(pid)])
  }

  function WaitStep(s: Sys, step: Step): Sys
    requires WaitEnabled(s, step)
  {
    match step
    case WaitReturns(c) =>
      var pid := s.cmds[c].pid;
      s.(kernel := Collect(s.kernel, pid), log := s.log + [Report(s.kernel, pid, Waiter(c))],
         cmds := s.cmds[c := Collected(pid)])
    case Deregister(c) =>
      var pid := s.cmds[c].pid;
      s.(managed := Deregistered(s.managed, pid, c), cmds := s.cmds[c := Finished(pid)])
  }

  /** Exits happen at any time, and so does the adoption of an orphan, live or
      about to die, under any free process id. */
  function WorldStep(s: Sys, step: Step): Sys
    requires WorldEnabled(s, step)
  {
    match step
    case Exit(pid, status) =>
      var child := s.kernel[pid];
      s.(kernel := s.kernel[pid := child.(status := Some(status))],
         exits := if child.owner.Some? then s.exits[child.owner.value := status] else s.exits)
    case Adopt(pid) => s.(kernel := s.kernel[pid := Child(None, None)])
  }

  /** The listing is arbitrary: by the time a process id is looked at, it may
      name another child, or none. */
  function ReaperStep(s: Sys, step: Step): Sys
    requires ReaperEnabled(s, step)
  {
    match step
    case List(pids) => s.(reaper := Scanning(pids))
    case ListFails => s.(reaper := FallingBack)
    case GiveUp => s.(reaper := Resting)
    case LockNext => s.(reaper := Inspecting(s.reaper.pids), holder := Reaping)
    case CheckOwner =>
      if s.reaper.pids[0] in s.managed then s.(reaper := Scanning(s.reaper.pids[1..]), holder := Nobody)
      else s.(reaper := Unmanaged(s.reaper.pids))
    case WaitListed =>
      var pid := s.reaper.pids[0];
      s.(kernel := Collect(s.kernel, pid), reaper := Scanning(s.reaper.pids[1..]), holder := Nobody,
         log := if Zombie(s.kernel, pid) then s.log + [Report(s.kernel, pid, Taker.Reaper)] else s.log)
    case WaitListedFails => s.(reaper := Resting, holder := Nobody)
    case LockForAny => s.(reaper := Counting, holder := Reaping)
    case CheckIdle =>
      if s.managed == map[] then s.(reaper := Sweeping) else s.(reaper := Resting, holder := Nobody)
    case WaitAny(pid) =>
      s.(kernel := Collect(s.kernel, pid), log := s.log + [Report(s.kernel, pid, Taker.Reaper)])
    case WaitAnyFails => s.(reaper := Resting, holder := Nobody)
    case StopSweeping => s.(reaper := Resting, holder := Nobody)
  }

  function Next(s: Sys, step: Step): Sys
    requires Enabled(s, step)
  {
    if StartEnabled(s, step) then StartStep(s, step)
    else if WaitEnabled(s, step) then WaitStep(s, step)
    else if WorldEnabled(s, step) then WorldStep(s, step)
    else ReaperStep(s, step)
  }

  // ---------------------------------------------------------------- the invariant

  /** A command's child is unreaped exactly while the command is forked or
      running, and then it is registered under its process id with its own
      command, or its starter still holds the lock. */
  predicate CmdOk(s: Sys, c: Cmd)
    requires c in s.cmds
  {
    match s.cmds[c]
    case Forked(pid) => pid in s.kernel && s.kernel[pid].owner == Some(c) && s.holder == Starting(c)
    case Running(pid) =>
      pid in s.kernel && s.kernel[pid].owner == Some(c) && pid in s.managed && s.managed[pid] == c
    case _ => true
  }

  predicate ChildOk(s: Sys, pid: Pid)
    requires pid in s.kernel
  {
    var child := s.kernel[pid];
    child.owner.Some? ==>
      var c := child.owner.value;
      && c in s.cmds && (s.cmds[c] == Forked(pid) || s.cmds[c] == Running(pid))
      && (child.status.Some? ==> c in s.exits && child.status == Some(s.exits[c]))
  }

  predicate EntryOk(s: Sys, pid: Pid)
    requires pid in s.managed
  {
    var c := s.managed[pid];
    c in s.cmds && (s.cmds[c] == Running(pid) || s.cmds[c] == Collected(pid))
  }

  predicate ReaperHolds(r: Reaper) {
    r.Inspecting? || r.Unmanaged? || r.Counting? || r.Sweeping?
  }

  predicate LockOk(s: Sys) {
    && (s.holder == Reaping <==> ReaperHolds(s.reaper))
    && (s.holder.Starting? && s.holder.cmd in s.cmds ==> s.cmds[s.holder.cmd].Forked?)
    && (s.reaper.Inspecting? ==> s.reaper.pids != [])
    && (s.reaper.Unmanaged? ==> s.reaper.pids != [] && s.reaper.pids[0] !in s.managed)
    && (s.reaper == Sweeping ==> s.managed == map[])
  }

  predicate IsCollected(s: Sys, c: Cmd) {
    c in s.cmds && (s.cmds[c].Collected? || s.cmds[c].Finished?)
  }

  /** Each status went to its owner, and orphans' to the reaper. */
  predicate RecordOk(s: Sys, r: Record) {
    match r.taker
    case Waiter(c) => IsCollected(s, c) && c in s.exits && r == Record(Waiter(c), Some(c), Some(s.exits[c]))
    case Reaper => r.owner == None && r.status.Some?
  }

  ghost predicate OncePerCmd(log: seq<Record>) {
    forall i, j {:trigger Differ(i, j)} ::
      Differ(i, j) && 0 <= i < |log| && 0 <= j < |log| && log[i].taker.Waiter? ==> log[i].taker != log[j].taker
  }

  ghost predicate Inv(s: Sys) {
    && (forall c :: c in s.cmds ==> CmdOk(s, c))
    && (forall pid :: pid in s.kernel ==> ChildOk(s, pid))
    && (forall pid :: pid in s.managed ==> EntryOk(s, pid))
    && LockOk(s)
    && (forall r :: r in s.log ==> RecordOk(s, r))
    && OncePerCmd(s.log)
    && (forall c :: IsCollected(s, c) ==> HasRecord(s.log, c))
  }

  ghost predicate HasRecord(log: seq<Record>, c: Cmd) {
    exists r :: r in log && r.taker == Waiter(c)
  }

  lemma StartKeepsInv(s: Sys, step: Step)
    requires Inv(s) && StartEnabled(s, step)
    ensures Inv(StartStep(s, step))
  {
    var t := StartStep(s, step);
    forall c | c in t.cmds ensures CmdOk(t, c) {
      if c in s.cmds { assert CmdOk(s, c); }
    }
    forall pid | pid in t.kernel ensures ChildOk(t, pid) {
      if pid in s.kernel { assert ChildOk(s, pid); }
    }
    forall pid | pid in t.managed ensures EntryOk(t, pid) {
      if pid in s.managed { assert EntryOk(s, pid); }
    }
    forall r | r in t.log ensures RecordOk(t, r) { assert RecordOk(s, r); }
    forall c | IsCollected(t, c) ensures HasRecord(t.log, c) { assert IsCollected(s, c); }
  }

  lemma WorldKeepsInv(s: Sys, step: Step)
    requires Inv(s) && WorldEnabled(s, step)
    ensures Inv(WorldStep(s, step))
  {
    var t := WorldStep(s, step);
    forall c | c in t.cmds ensures CmdOk(t, c) { assert CmdOk(s, c); }
    forall pid | pid in t.kernel ensures ChildOk(t, pid) {
      if pid in s.kernel { assert ChildOk(s, pid); }
    }
    forall pid | pid in t.managed ensures EntryOk(t, pid) { assert EntryOk(s, pid); }
    forall r | r in t.log ensures RecordOk(t, r) { assert RecordOk(s, r); }
    forall c | IsCollected(t, c) ensures HasRecord(t.log, c) { assert IsCollected(s, c); }
  }

  /** A command's own child is a zombie when its wait returns. */
  lemma WaitFindsItsChild(s: Sys, c: Cmd)
    requires Inv(s) && WaitEnabled(s, WaitReturns(c))
    ensures Zombie(s.kernel, s.cmds[c].pid) && c in s.exits
    ensures Report(s.kernel, s.cmds[c].pid, Waiter(c)) == Record(Waiter(c), Some(c), Some(s.exits[c]))
  {
    assert CmdOk(s, c) && ChildOk(s, s.cmds[c].pid);
  }

  lemma AppendKeepsOnce(log: seq<Record>, r: Record)
    requires OncePerCmd(log) && (r.taker.Waiter? ==> forall q :: q in log ==> q.taker != r.taker)
    ensures OncePerCmd(log + [r])
  {
    var longer := log + [r];
    forall i, j | Differ(i, j) && 0 <= i < |longer| && 0 <= j < |longer| && longer[i].taker.Waiter?
      ensures longer[i].taker != longer[j].taker
    {
      if i < |log| { assert log[i] in log; }
      if j < |log| { assert log[j] in log; }
    }
  }

  lemma WaitKeepsInv(s: Sys, step: Step)
    requires Inv(s) && WaitEnabled(s, step)
    ensures Inv(WaitStep(s, step))
  {
    var t := WaitStep(s, step);
    if step.WaitReturns? {
      WaitFindsItsChild(s, step.cmd);
      forall r | r in s.log ensures r.taker != Waiter(step.cmd) { assert RecordOk(s, r); }
      AppendKeepsOnce(s.log, Report(s.kernel, s.cmds[step.cmd].pid, Waiter(step.cmd)));
    }
    forall c | c in t.cmds ensures CmdOk(t, c) { assert CmdOk(s, c) && CmdOk(s, step.cmd); }
    forall pid | pid in t.kernel ensures ChildOk(t, pid) { assert ChildOk(s, pid); }
    forall pid | pid in t.managed ensures EntryOk(t, pid) { assert EntryOk(s, pid); }
    forall r | r in t.log ensures RecordOk(t, r) {
      if r in s.log { assert RecordOk(s, r); }
    }
    forall c | IsCollected(t, c) ensures HasRecord(t.log, c) {
      if IsCollected(s, c) {
        var r :| r in s.log && r.taker == Waiter(c);
        assert r in t.log;
      } else {
        assert t.log[|s.log|] in t.log;
      }
    }
  }

  /** The process id is registered with the command, or the command's starter
      still holds the lock. */
  predicate IsAccounted(s: Sys, pid: Pid, c: Cmd) {
    (pid in s.managed && s.managed[pid] == c) || s.holder == Starting(c)
  }

  lemma UnreapedIsRegistered(s: Sys, pid: Pid)
    requires Inv(s) && pid in s.kernel && s.kernel[pid].owner.Some?
    ensures IsAccounted(s, pid, s.kernel[pid].owner.value)
  {
    assert ChildOk(s, pid) && CmdOk(s, s.kernel[pid].owner.value);
  }

  /** What the reaper collects is never a command's child. */
  lemma ReaperTakesOrphans(s: Sys, step: Step)
    requires Inv(s) && ReaperEnabled(s, step) && Collects(step)
    ensures var pid := if step.WaitListed? then s.reaper.pids[0] else step.pid;
            pid in s.kernel ==> s.kernel[pid].owner == None
  {
    var pid := if step.WaitListed? then s.reaper.pids[0] else step.pid;
    if pid in s.kernel && s.kernel[pid].owner.Some? { UnreapedIsRegistered(s, pid); }
  }

  predicate Collects(step: Step) {
    step.WaitListed? || step.WaitAny?
  }

  /** A step that takes no status moves only the reaper and the lock. */
  lemma ScanOnlyMoves(s: Sys, step: Step)
    requires LockOk(s) && ReaperEnabled(s, step) && !Collects(step)
    ensures var t := ReaperStep(s, step);
            LockOk(t) && t == s.(reaper := t.reaper, holder := t.holder)
            && forall c :: t.holder == Starting(c) <==> s.holder == Starting(c)
  {
  }

  lemma ScanKeepsInv(s: Sys, step: Step)
    requires Inv(s) && ReaperEnabled(s, step) && !Collects(step)
    ensures Inv(ReaperStep(s, step))
  {
    ScanOnlyMoves(s, step);
    MovingKeepsInv(s, ReaperStep(s, step));
  }

  lemma MovingKeepsInv(s: Sys, t: Sys)
    requires Inv(s) && LockOk(t) && t == s.(reaper := t.reaper, holder := t.holder)
    requires forall c :: t.holder == Starting(c) <==> s.holder == Starting(c)
    ensures Inv(t)
  {
    forall c | c in t.cmds ensures CmdOk(t, c) { assert CmdOk(s, c); }
    forall pid | pid in t.kernel ensures ChildOk(t, pid) { assert ChildOk(s, pid); }
    forall pid | pid in t.managed ensures EntryOk(t, pid) { assert EntryOk(s, pid); }
    forall r | r in t.log ensures RecordOk(t, r) { assert RecordOk(s, r); }
    forall c | IsCollected(t, c) ensures HasRecord(t.log, c) { assert IsCollected(s, c); }
  }

  lemma CollectingKeepsInv(s: Sys, step: Step)
    requires Inv(s) && ReaperEnabled(s, step) && Collects(step)
    ensures Inv(ReaperStep(s, step))
  {
    var t := ReaperStep(s, step);
    ReaperTakesOrphans(s, step);
    var pid := if step.WaitListed? then s.reaper.pids[0] else step.pid;
    AppendKeepsOnce(s.log, Report(s.kernel, pid, Taker.Reaper));
    forall c | c in t.cmds ensures CmdOk(t, c) { assert CmdOk(s, c); }
    forall pid | pid in t.kernel ensures ChildOk(t, pid) { assert ChildOk(s, pid); }
    forall pid | pid in t.managed ensures EntryOk(t, pid) { assert EntryOk(s, pid); }
    forall r | r in t.log ensures RecordOk(t, r) {
      if r in s.log { assert RecordOk(s, r); }
    }
    forall c | IsCollected(t, c) ensures HasRecord(t.log, c) {
      assert IsCollected(s, c);
      var r :| r in s.log && r.taker == Waiter(c);
      assert r in t.log;
    }
  }

  // ---------------------------------------------------------------- runs

  ghost predicate IsRun(run: seq<Sys>, steps: seq<Step>) {
    && |run| == |steps| + 1 && run[0] == START
    && forall i :: 0 <= i < |steps| ==> StepAt(run, steps, i)
  }

  predicate StepAt(run: seq<Sys>, steps: seq<Step>, i: nat)
    requires i < |steps| && i + 1 < |run|
  {
    Enabled(run[i], steps[i]) && run[i + 1] == Next(run[i], steps[i])
  }

  lemma NextKeepsInv(s: Sys, step: Step)
    requires Inv(s) && Enabled(s, step)
    ensures Inv(Next(s, step))
  {
    if StartEnabled(s, step) {
      StartKeepsInv(s, step);
    } else if WaitEnabled(s, step) {
      WaitKeepsInv(s, step);
    } else if WorldEnabled(s, step) {
      WorldKeepsInv(s, step);
    } else if Collects(step) {
      CollectingKeepsInv(s, step);
    } else {
      ScanKeepsInv(s, step);
    }
  }

  lemma {:induction false} RunsKeepInv(run: seq<Sys>, steps: seq<Step>, i: nat)
    requires IsRun(run, steps) && i < |run|
    ensures Inv(run[i])
    decreases i
  {
    if i > 0 {
      RunsKeepInv(run, steps, i - 1);
      assert StepAt(run, steps, i - 1);
      NextKeepsInv(run[i - 1], steps[i - 1]);
    }
  }

  /** In every interleaving, every unreaped child of a command is registered
      under its process id with its own command, except while its starter holds
      the lock; and a command's wait always finds its own child there. */
  lemma UnreapedAreRegistered(run: seq<Sys>, steps: seq<Step>, i: nat)
    requires IsRun(run, steps) && i < |run|
    ensures var s := run[i];
            forall pid :: pid in s.kernel && s.kernel[pid].owner.Some? ==>
              IsAccounted(s, pid, s.kernel[pid].owner.value)
    ensures forall c :: c in run[i].cmds && run[i].cmds[c].Running? ==> HasItsChild(run[i], c)
  {
    RunsKeepInv(run, steps, i);
    var s := run[i];
    forall pid | pid in s.kernel && s.kernel[pid].owner.Some?
      ensures IsAccounted(s, pid, s.kernel[pid].owner.value)
    {
      UnreapedIsRegistered(s, pid);
    }
    forall c | c in s.cmds && s.cmds[c].Running? ensures HasItsChild(s, c) { assert CmdOk(s, c); }
  }

  predicate HasItsChild(s: Sys, c: Cmd)
    requires c in s.cmds && s.cmds[c].Running?
  {
    s.cmds[c].pid in s.kernel && s.kernel[s.cmds[c].pid].owner == Some(c)
  }

  lemma SameTakerSameRecord(log: seq<Record>, j: nat, k: nat)
    requires OncePerCmd(log) && j < |log| && k < |log| && log[j].taker.Waiter?
    ensures j == k || log[j].taker != log[k].taker
  {
    assert j == k || Differ(j, k);
  }

  /** A finished command's wait got its own child's status, once, and nothing
      else ever took it. */
  lemma StatusGoesToItsOwner(run: seq<Sys>, steps: seq<Step>, c: Cmd)
    requires IsRun(run, steps)
    ensures var s := run[|steps|];
            (IsCollected(s, c) ==>
               c in s.exits
               && exists k :: IsTakenAt(s, c, k) && s.log[k] == Record(Waiter(c), Some(c), Some(s.exits[c])))
            && (forall j, k :: IsTakenAt(s, c, j) && IsTakenAt(s, c, k) ==> j == k)
            && (forall k :: IsTakenAt(s, c, k) ==> s.log[k].taker == Waiter(c) && IsCollected(s, c))
            && (forall k :: 0 <= k < |s.log| && s.log[k].taker == Waiter(c) ==> IsTakenAt(s, c, k))
  {
    RunsKeepInv(run, steps, |steps|);
    var s := run[|steps|];
    forall k | 0 <= k < |s.log| ensures RecordOk(s, s.log[k]) { assert s.log[k] in s.log; }
    forall j, k | IsTakenAt(s, c, j) && IsTakenAt(s, c, k) ensures j == k {
      assert RecordOk(s, s.log[j]) && RecordOk(s, s.log[k]);
      SameTakerSameRecord(s.log, j, k);
    }
    if IsCollected(s, c) {
      var r :| r in s.log && r.taker == Waiter(c);
      var k :| 0 <= k < |s.log| && s.log[k] == r;
      assert RecordOk(s, s.log[k]) && IsTakenAt(s, c, k);
    }
  }

  predicate IsTakenAt(s: Sys, c: Cmd, k: int) {
    0 <= k < |s.log| && s.log[k].owner == Some(c)
  }

  ghost predicate Quiescent(s: Sys) {
    forall c :: c in s.cmds ==> s.cmds[c].Finished? || s.cmds[c] == NotForked
  }

  /** The command's own child exits with this status. */
  predicate ExitedAt(run: seq<Sys>, steps: seq<Step>, c: Cmd, status: int, j: int) {
    && 0 <= j < |steps| && j < |run| && steps[j].Exit? && steps[j].status == status
    && steps[j].pid in run[j].kernel && run[j].kernel[steps[j].pid].owner == Some(c)
  }

  lemma ExitIsRecorded(s: Sys, step: Step, c: Cmd)
    requires Enabled(s, step) && c in Next(s, step).exits
    ensures (c in s.exits && Next(s, step).exits[c] == s.exits[c])
            || (step.Exit? && step.status == Next(s, step).exits[c] && step.pid in s.kernel
                && s.kernel[step.pid].owner == Some(c))
  {
  }

  /** The status on record for a command is the one its own child exited with. */
  lemma {:induction false} ExitsAreTrue(run: seq<Sys>, steps: seq<Step>, c: Cmd, i: nat)
    requires IsRun(run, steps) && i < |run| && c in run[i].exits
    ensures exists j :: j < i && ExitedAt(run, steps, c, run[i].exits[c], j)
  {
    if i > 0 {
      assert StepAt(run, steps, i - 1);
      ExitIsRecorded(run[i - 1], steps[i - 1], c);
      if c in run[i - 1].exits && run[i].exits[c] == run[i - 1].exits[c] {
        ExitsAreTrue(run, steps, c, i - 1);
      } else {
        assert ExitedAt(run, steps, c, run[i].exits[c], i - 1);
      }
    }
  }

  lemma RegistrationIsLive(s: Sys, pid: Pid)
    requires Inv(s) && pid in s.managed
    ensures !Quiescent(s)
  {
    assert EntryOk(s, pid);
  }

  lemma OwnedChildIsLive(s: Sys, pid: Pid)
    requires Inv(s) && pid in s.kernel && s.kernel[pid].owner.Some?
    ensures !Quiescent(s)
  {
    assert ChildOk(s, pid);
  }

  /** Once every command has been waited for, no registration and no command's
      child is left. */
  lemma NothingLeaks(run: seq<Sys>, steps: seq<Step>, i: nat)
    requires IsRun(run, steps) && i < |run| && Quiescent(run[i])
    ensures run[i].managed == map[] && forall pid :: pid in run[i].kernel ==> run[i].kernel[pid].owner == None
  {
    RunsKeepInv(run, steps, i);
    forall pid ensures pid !in run[i].managed {
      if pid in run[i].managed { RegistrationIsLive(run[i], pid); }
    }
    forall pid | pid in run[i].kernel ensures run[i].kernel[pid].owner == None {
      if run[i].kernel[pid].owner.Some? { OwnedChildIsLive(run[i], pid); }
    }
  }

  // ---------------------------------------------------------------- progress

  /** How many steps the lock's holder is at most from letting go: the fallback
      keeps the lock for one wait per zombie, and one more that finds none. */
  function HolderRank(s: Sys): nat {
    match s.holder
    case Nobody => 0
    case Starting(c) => if c in s.cmds then 1 else 2
    case Reaping =>
      match s.reaper
      case Counting => 2 + |Zombies(s.kernel)|
      case Sweeping => 1 + |Zombies(s.kernel)|
      case Inspecting(_) => 2
      case _ => 1
  }

  /** A step of the lock's holder. */
  ghost function HolderStep(s: Sys): Step {
    match s.holder
    case Starting(c) => if c in s.cmds then Register(c) else ForkFails(c)
    case _ =>
      match s.reaper
      case Inspecting(_) => CheckOwner
      case Unmanaged(_) => WaitListed
      case Counting => CheckIdle
      case _ => if Zombies(s.kernel) == {} then StopSweeping else (var pid :| pid in Zombies(s.kernel); WaitAny(pid))
  }

  lemma CollectingLessens(kernel: Kernel, pid: Pid)
    requires Zombie(kernel, pid)
    ensures |Zombies(Collect(kernel, pid))| == |Zombies(kernel)| - 1
  {
    assert Zombies(Collect(kernel, pid)) == Zombies(kernel) - {pid};
  }

  /** The holder of the lock is never blocked, and each of its steps brings it
      nearer to letting go. */
  lemma HolderIsNeverBlocked(run: seq<Sys>, steps: seq<Step>, i: nat)
    requires IsRun(run, steps) && i < |run| && run[i].holder != Nobody
    ensures Enabled(run[i], HolderStep(run[i]))
    ensures HolderRank(Next(run[i], HolderStep(run[i]))) < HolderRank(run[i])
  {
    RunsKeepInv(run, steps, i);
    var s := run[i];
    if s.holder == Reaping && s.reaper == Sweeping && Zombies(s.kernel) != {} {
      CollectingLessens(s.kernel, HolderStep(s).pid);
    }
  }

  lemma OthersKeepZombies(s: Sys, step: Step)
    requires Enabled(s, step) && !step.Exit?
    ensures Zombies(Next(s, step).kernel) <= Zombies(s.kernel)
  {
  }

  lemma {:induction false} FewerZombies(a: set<Pid>, b: set<Pid>)
    requires a <= b
    ensures |a| <= |b|
  {
    if a != {} {
      var pid :| pid in a;
      FewerZombies(a - {pid}, b - {pid});
    }
  }

  /** While the lock is held, only an exiting child can put off its release. */
  lemma OnlyExitsDelay(run: seq<Sys>, steps: seq<Step>, i: nat)
    requires IsRun(run, steps) && i < |steps| && run[i].holder != Nobody && !steps[i].Exit?
    ensures HolderRank(run[i + 1]) <= HolderRank(run[i])
  {
    RunsKeepInv(run, steps, i);
    assert StepAt(run, steps, i);
    StepDelaysNothing(run[i], steps[i]);
  }

  lemma StepDelaysNothing(s: Sys, step: Step)
    requires Inv(s) && Enabled(s, step) && s.holder != Nobody && !step.Exit?
    ensures HolderRank(Next(s, step)) <= HolderRank(s)
  {
    OthersKeepZombies(s, step);
    FewerZombies(Zombies(Next(s, step).kernel), Zombies(s.kernel));
  }

  // ---------------------------------------------------------------- nothing listed is missed

  /** A dead child that belongs to no command. */
  predicate OrphanZombie(s: Sys, pid: Pid) {
    pid in s.kernel && s.kernel[pid].owner == None && s.kernel[pid].status.Some?
  }

  predicate InScan(r: Reaper) {
    r.Scanning? || r.Inspecting? || r.Unmanaged?
  }

  /** The scan is about to collect the child, or to pass over it because its process id
      is still registered. */
  predicate Settles(s: Sys, step: Step, pid: Pid) {
    && InScan(s.reaper) && s.reaper.pids != [] && s.reaper.pids[0] == pid
    && ((step == WaitListed && Zombie(s.kernel, pid)) || (step == CheckOwner && pid in s.managed))
  }

  /** Only the reaper takes an orphan, and during a scan only the one it looks at. */
  lemma OrphanStays(s: Sys, step: Step, pid: Pid)
    requires Inv(s) && Enabled(s, step) && InScan(s.reaper) && OrphanZombie(s, pid) && !Settles(s, step, pid)
    ensures OrphanZombie(Next(s, step), pid)
  {
    if WaitEnabled(s, step) {
      WaitLeavesOrphan(s, step, pid);
    } else {
      OthersLeaveOrphan(s, step, pid);
    }
  }

  lemma WaitLeavesOrphan(s: Sys, step: Step, pid: Pid)
    requires Inv(s) && WaitEnabled(s, step) && OrphanZombie(s, pid)
    ensures OrphanZombie(WaitStep(s, step), pid)
  {
    if step.WaitReturns? { assert CmdOk(s, step.cmd); }
  }

  lemma OthersLeaveOrphan(s: Sys, step: Step, pid: Pid)
    requires Enabled(s, step) && !WaitEnabled(s, step)
    requires InScan(s.reaper) && OrphanZombie(s, pid) && !Settles(s, step, pid)
    ensures OrphanZombie(Next(s, step), pid)
  {
  }

  /** An orphan the scan has still to look at. */
  predicate StillToCome(s: Sys, pid: Pid) {
    InScan(s.reaper) && pid in s.reaper.pids && OrphanZombie(s, pid)
  }

  /** The scan does not move past a child without settling it. */
  lemma ScanWaits(s: Sys, step: Step, pid: Pid)
    requires ReaperEnabled(s, step) && StillToCome(s, pid) && !Settles(s, step, pid)
    ensures InScan(ReaperStep(s, step).reaper) ==> pid in ReaperStep(s, step).reaper.pids
  {
    var pids := s.reaper.pids;
    assert pids == [pids[0]] + pids[1..];
  }

  lemma OthersLeaveReaper(s: Sys, step: Step)
    requires Enabled(s, step) && !ReaperEnabled(s, step)
    ensures Next(s, step).reaper == s.reaper
  {
  }

  lemma StaysToCome(s: Sys, step: Step, pid: Pid)
    requires Inv(s) && Enabled(s, step) && StillToCome(s, pid) && !Settles(s, step, pid)
    requires InScan(Next(s, step).reaper)
    ensures StillToCome(Next(s, step), pid)
  {
    OrphanStays(s, step, pid);
    if ReaperEnabled(s, step) {
      ScanWaits(s, step, pid);
    } else {
      OthersLeaveReaper(s, step);
    }
  }

  ghost predicate SettledAt(run: seq<Sys>, steps: seq<Step>, j: int, pid: Pid) {
    0 <= j < |steps| && j < |run| && Settles(run[j], steps[j], pid)
  }

  /** A collected child is gone and its status on record, taken by the reaper; one
      passed over has the process id of a command whose status is taken already, and
      which has only to deregister. */
  lemma WhatSettles(s: Sys, step: Step, pid: Pid)
    requires Inv(s) && Enabled(s, step) && OrphanZombie(s, pid) && Settles(s, step, pid)
    ensures step == WaitListed ==>
              && pid !in Next(s, step).kernel
              && Next(s, step).log == s.log + [Record(Taker.Reaper, None, s.kernel[pid].status)]
    ensures step == CheckOwner ==>
              pid in s.managed && s.managed[pid] in s.cmds && s.cmds[s.managed[pid]] == Collected(pid)
  {
    if step == CheckOwner { assert EntryOk(s, pid) && CmdOk(s, s.managed[pid]); }
  }

  lemma ScanStarts(run: seq<Sys>, steps: seq<Step>, i: nat, pid: Pid)
    requires IsRun(run, steps) && i < |steps| && steps[i].List? && pid in steps[i].pids && OrphanZombie(run[i], pid)
    ensures StillToCome(run[i + 1], pid)
  {
    assert StepAt(run, steps, i);
  }

  lemma SettledNow(run: seq<Sys>, steps: seq<Step>, j: nat, pid: Pid)
    requires IsRun(run, steps) && j < |steps| && StillToCome(run[j], pid) && !StillToCome(run[j + 1], pid)
    requires InScan(run[j + 1].reaper)
    ensures SettledAt(run, steps, j, pid)
  {
    RunsKeepInv(run, steps, j);
    assert StepAt(run, steps, j);
    if !Settles(run[j], steps[j], pid) { StaysToCome(run[j], steps[j], pid); }
  }

  lemma {:induction false} WhenSettled(run: seq<Sys>, steps: seq<Step>, i: nat, k: nat, pid: Pid) returns (j: nat)
    requires IsRun(run, steps) && i < k < |run| && StillToCome(run[i], pid) && !StillToCome(run[k], pid)
    requires forall j :: i <= j <= k ==> InScan(run[j].reaper)
    ensures i <= j < k && SettledAt(run, steps, j, pid) && OrphanZombie(run[j], pid)
    decreases k
  {
    if StillToCome(run[k - 1], pid) {
      SettledNow(run, steps, k - 1, pid);
      j := k - 1;
    } else {
      j := WhenSettled(run, steps, i, k - 1, pid);
    }
  }

  /** Every orphaned zombie on the listing is looked at before a scan gets through it,
      whatever happens meanwhile: it is collected, or passed over because its process
      id is still registered by a command that has only to deregister. */
  lemma ScansMissNothing(run: seq<Sys>, steps: seq<Step>, i: nat, k: nat, pid: Pid)
    requires IsRun(run, steps) && i < k < |run| && steps[i].List? && pid in steps[i].pids && OrphanZombie(run[i], pid)
    requires (forall j :: i < j <= k ==> InScan(run[j].reaper)) && run[k].reaper == Scanning([])
    ensures exists j :: i < j < k && SettledAt(run, steps, j, pid) && OrphanZombie(run[j], pid)
  {
    ScanStarts(run, steps, i, pid);
    var j := WhenSettled(run, steps, i + 1, k, pid);
  }
}
