/** The child manager: its methods as they run when nothing interleaves. */
module ChildManager {
  import opened Basics
  import opened ChildOwnership

  /** The kernel's table of unreaped children. wait4 on a faulty process id fails
      with something other than "no child". */
  class Processes {
    var children: Kernel
    const faulty: set<Pid>

    constructor (faulty: set<Pid>)
      ensures children == map[] && this.faulty == faulty
    {
      children := map[];
      this.faulty := faulty;
    }

    method WaitChild(pid: Pid) returns (status: Option<int>, failed: bool)
      modifies this
      ensures failed == (pid in faulty)
      ensures children == if failed then old(children) else Collect(old(children), pid)
      ensures !failed ==> status == if pid in old(children) then old(children)[pid].status else None
    {
      if pid in faulty { return None, true; }
      status := if pid in children then children[pid].status else None;
      children := Collect(children, pid);
      failed := false;
    }

    /** Any zombie, or none when every child lives. */
    method WaitAny() returns (pid: Option<Pid>)
      modifies this
      ensures pid.None? ==> Zombies(old(children)) == {} && children == old(children)
      ensures pid.Some? ==> pid.value in Zombies(old(children)) && children == old(children) - {pid.value}
    {
      if Zombies(children) == {} { return None; }
      var zombie :| zombie in Zombies(children);
      children := Collect(children, zombie);
      pid := Some(zombie);
    }
  }

  /** The first listed process id the scan would wait for and fail on; the length
      of the listing when there is none. */
  function FirstFault(managed: Registry, faulty: set<Pid>, pids: seq<Pid>): (n: nat)
    ensures n <= |pids|
    ensures n < |pids| ==> pids[n] in faulty && pids[n] !in managed
    ensures forall i :: 0 <= i < n ==> pids[i] in managed || pids[i] !in faulty
  {
    if pids == [] || (pids[0] in faulty && pids[0] !in managed) then 0
    else 1 + FirstFault(managed, faulty, pids[1..])
  }

  lemma FaultIsFirst(managed: Registry, faulty: set<Pid>, pids: seq<Pid>, i: nat)
    requires i < |pids| && pids[i] in faulty && pids[i] !in managed
    requires forall k :: 0 <= k < i ==> pids[k] in managed || pids[k] !in faulty
    ensures FirstFault(managed, faulty, pids) == i
  {
  }

  lemma NoFault(managed: Registry, faulty: set<Pid>, pids: seq<Pid>)
    requires forall k :: 0 <= k < |pids| ==> pids[k] in managed || pids[k] !in faulty
    ensures FirstFault(managed, faulty, pids) == |pids|
  {
  }

  /** The zombies among the listed process ids that no command owns. */
  function OrphanZombies(children: Kernel, managed: Registry, pids: seq<Pid>): set<Pid> {
    set pid | pid in children.Keys && pid in pids && pid !in managed && Zombie(children, pid)
  }

  /** Every unreaped command child is registered with its command. */
  ghost predicate Owned(children: Kernel, managed: Registry) {
    forall pid :: pid in children && children[pid].owner.Some? ==>
      pid in managed && managed[pid] == children[pid].owner.value
  }

  class Manager {
    var managed: Registry
    const processes: Processes

    constructor (processes: Processes)
      ensures managed == map[] && this.processes == processes
    {
      managed := map[];
      this.processes := processes;
    }

    /** Fork and registration under one lock. `forked` is the kernel's answer; a
        process id it hands out names no unreaped child. */
    method Start(cmd: Cmd, forked: Option<Pid>) returns (ok: bool)
      requires forked.Some? ==> forked.value !in processes.children
      modifies this, processes
      ensures ok == forked.Some?
      ensures !ok ==> managed == old(managed) && processes.children == old(processes.children)
      ensures ok ==> processes.children == old(processes.children)[forked.value := Child(Some(cmd), None)]
      ensures ok ==> managed == Registered(old(managed), forked.value, cmd)
      ensures Owned(old(processes.children), old(managed)) ==> Owned(processes.children, managed)
    {
      if forked.None? { return false; }
      processes.children := processes.children[forked.value := Child(Some(cmd), None)];
      managed := Registered(managed, forked.value, cmd);
      ok := true;
    }

    /** Waiting for a command: what the kernel reports under its process id, then
        its registration if that is still its own. Waiting blocks while the
        process id names a live child. */
    method Wait(cmd: Cmd, pid: Pid) returns (status: Option<int>)
      requires pid in processes.children ==> Zombie(processes.children, pid)
      modifies this, processes
      ensures status == Report(old(processes.children), pid, Waiter(cmd)).status
      ensures processes.children == old(processes.children) - {pid}
      ensures managed == Deregistered(old(managed), pid, cmd)
      ensures Owned(old(processes.children), old(managed)) ==> Owned(processes.children, managed)
    {
      status := if pid in processes.children then processes.children[pid].status else None;
      processes.children := Collect(processes.children, pid);
      if pid in managed && managed[pid] == cmd {
        managed := managed - {pid};
      }
    }

    /** One pass of the reaper over a listing. It collects exactly the unowned
        zombies listed before the first failing wait; without a listing it falls
        back to waiting for any child. */
    method Reap(listing: Option<seq<Pid>>, anyFault: Option<nat>) returns (failed: bool, ghost taken: set<Pid>)
      modifies processes
      ensures processes.children == old(processes.children) - taken
      ensures listing.Some? ==>
                var n := FirstFault(managed, processes.faulty, listing.value);
                && failed == (n < |listing.value|)
                && taken == OrphanZombies(old(processes.children), managed, listing.value[..n])
      ensures listing.None? ==> FallbackTakes(managed, old(processes.children), anyFault, failed, taken)
    {
      if listing.None? {
        failed, taken := ReapAnyIfIdle(anyFault);
        return;
      }
      var pids := listing.value;
      ghost var before := processes.children;
      for i := 0 to |pids|
        invariant forall k :: 0 <= k < i ==> pids[k] in managed || pids[k] !in processes.faulty
        invariant processes.children == before - OrphanZombies(before, managed, pids[..i])
      {
        assert pids[..i + 1] == pids[..i] + [pids[i]];
        if pids[i] in managed { continue; }
        var status, fault := processes.WaitChild(pids[i]);
        if fault {
          FaultIsFirst(managed, processes.faulty, pids, i);
          return true, OrphanZombies(before, managed, pids[..i]);
        }
      }
      NoFault(managed, processes.faulty, pids);
      assert pids[..|pids|] == pids;
      return false, OrphanZombies(before, managed, pids);
    }

    /** Without a listing: only while no command is registered may any child be
        collected, and then every zombie is, up to the wait that fails. The wait
        after `anyFault` successful ones is the failing one. */
    method ReapAnyIfIdle(anyFault: Option<nat>) returns (failed: bool, ghost taken: set<Pid>)
      modifies processes
      ensures processes.children == old(processes.children) - taken
      ensures FallbackTakes(managed, old(processes.children), anyFault, failed, taken)
    {
      taken := {};
      if managed != map[] { return true, {}; }
      ghost var before := processes.children;
      var waits := 0;
      while anyFault != Some(waits)
        invariant processes.children == before - taken && taken <= Zombies(before) && |taken| == waits
        invariant anyFault.Some? ==> waits <= anyFault.value
        decreases Zombies(before) - taken
      {
        var pid := processes.WaitAny();
        if pid.None? {
          AllTaken(before, taken);
          return false, taken;
        }
        OneMoreTaken(before, taken, pid.value);
        taken := taken + {pid.value};
        waits := waits + 1;
      }
      FewerZombies(taken, Zombies(before));
      return true, taken;
    }
  }

  lemma AllTaken(before: Kernel, taken: set<Pid>)
    requires taken <= Zombies(before) && Zombies(before - taken) == {}
    ensures taken == Zombies(before)
  {
    forall pid | pid in Zombies(before) ensures pid in taken {
      assert pid in taken || pid in Zombies(before - taken);
    }
  }

  lemma OneMoreTaken(before: Kernel, taken: set<Pid>, pid: Pid)
    requires taken <= Zombies(before) && pid in Zombies(before - taken)
    ensures taken + {pid} <= Zombies(before) && |taken + {pid}| == |taken| + 1
    ensures before - taken - {pid} == before - (taken + {pid})
  {
  }

  /** What the fallback takes: nothing while a command is registered; otherwise
      every zombie, unless the wait after `anyFault` successful ones fails first. */
  ghost predicate FallbackTakes(managed: Registry, children: Kernel, anyFault: Option<nat>, failed: bool,
                                taken: set<Pid>)
  {
    if managed != map[] then failed && taken == {}
    else
      && taken <= Zombies(children)
      && failed == (anyFault.Some? && anyFault.value <= |Zombies(children)|)
      && (if failed then |taken| == anyFault.value else taken == Zombies(children))
  }

  /** With every child registered, a pass never takes a command's child, and with
      a complete listing leaves no orphaned zombie. */
  lemma PassTakesExactlyOrphans(children: Kernel, managed: Registry, pids: seq<Pid>)
    requires Owned(children, managed)
    ensures forall pid :: pid in OrphanZombies(children, managed, pids) ==> children[pid].owner == None
    ensures Owned(children - OrphanZombies(children, managed, pids), managed)
    ensures (forall pid :: pid in children ==> pid in pids) ==>
              forall pid :: pid in children && Zombie(children, pid) && pid !in managed ==>
                pid !in children - OrphanZombies(children, managed, pids)
  {
  }
}
