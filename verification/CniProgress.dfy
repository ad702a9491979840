/** Every CNI call that is let in comes to its end by its own steps, or to the scan that never ends; and a
    death gives the lock back. */
module CniProgress {
  import opened Options
  import opened Text
  import opened Leases
  import opened LeaseRuns
  import opened CniProcesses

  /** Steps of this process alone, of which none is its death. */
  ghost predicate Alone(steps: seq<Step>, pid: Pid) {
    forall i :: 0 <= i < |steps| ==> steps[i].pid == pid && !steps[i].Crash?
  }

  /** The process has loaded the file once, and the lock is free for what it wants: entirely, or but for
      other readers. */
  ghost predicate CanEnter(s: Sys, pid: Pid) {
    && pid in s.procs && s.procs[pid].phase.Preloaded? && s.writer.None?
    && (s.readers == {} || s.procs[pid].call.CmdCheck?)
  }

  /** The scan of this call never ends. */
  ghost predicate Endless(mode: Reset, d: TenantData, call: Call) {
    && mode == RawText && call.CmdAdd? && Holder(d.ips, call.info.id).None?
    && d.last.Some? && forall x: Addr :: d.last.value < x < d.base + d.size ==> x in d.ips
  }

  /** What a call makes of the file, and its answer. */
  ghost function Outcome(mode: Reset, d: TenantData, call: Call): (TenantData, Reply)
    requires Valid(d)
  {
    match call
    case CmdAdd(info) => Allocate(mode, d, info)
    case CmdDel(id) => (Release(d, id), Released)
    case CmdCheck(id) => (d, Check(d, id))
  }

  /** The call is over, the lock is as it was, and no other process has noticed. */
  ghost predicate Finished(s: Sys, s1: Sys, pid: Pid, r: Reply) {
    && s1.writer == s.writer && s1.readers == s.readers
    && pid in s1.procs && s1.procs[pid].phase == Done(r)
    && s1.procs.Keys == s.procs.Keys + {pid}
    && (forall q :: q in s.procs && q != pid ==> s1.procs[q] == s.procs[q])
  }

  // ---------------------------------------------------------------- one step after the other

  lemma {:induction false} ExecOn(mode: Reset, s: Sys, steps: seq<Step>, step: Step)
    ensures Exec(mode, s, steps + [step]) == Do(mode, Exec(mode, s, steps), step)
  {
    assert (steps + [step])[..|steps|] == steps;
  }

  lemma {:induction false} ExecOne(mode: Reset, s: Sys, a: Step)
    ensures Exec(mode, s, [a]) == Do(mode, s, a)
  {
    assert [a][..0] == [];
    assert Exec(mode, s, []) == s;
  }

  lemma {:induction false} ExecTwo(mode: Reset, s: Sys, a: Step, b: Step)
    ensures Exec(mode, s, [a, b]) == Do(mode, Do(mode, s, a), b)
  {
    ExecOne(mode, s, a);
    ExecOn(mode, s, [a], b);
    assert [a] + [b] == [a, b];
  }

  lemma {:induction false} ExecMore(mode: Reset, s: Sys, a: seq<Step>, b: seq<Step>)
    ensures Exec(mode, s, a + b) == Exec(mode, Exec(mode, s, a), b)
  {
    if b == [] {
      assert a + b == a;
    } else {
      var n := |b| - 1;
      ExecMore(mode, s, a, b[..n]);
      assert (a + b)[..|a + b| - 1] == a + b[..n];
    }
  }

  /** The process has the lock and its copy of the file. */
  ghost predicate Ready(s: Sys, s1: Sys, pid: Pid) {
    && pid in s.procs && s1.file == s.file && s1.log == s.log
    && s1.procs == s.procs[pid := s.procs[pid].(mem := Some(s.file), phase := Loaded)]
    && (if s.procs[pid].call.CmdCheck? then s1.writer.None? && s1.readers == s.readers + {pid}
        else s1.writer == Some(pid) && s1.readers == s.readers)
  }

  lemma {:induction false} Enters(mode: Reset, s: Sys, pid: Pid)
    requires CanEnter(s, pid)
    ensures Ready(s, Exec(mode, s, [Acquire(pid), Load(pid)]), pid)
  {
    ExecTwo(mode, s, Acquire(pid), Load(pid));
    hide Exec, Decide;
  }

  /** It has acted: its scan does not end, or it is between the two stores, or it has its answer. */
  ghost predicate HasActed(mode: Reset, s: Sys, s2: Sys, pid: Pid)
    requires Valid(s.file)
  {
    && pid in s.procs && pid in s2.procs && s2.procs == s.procs[pid := s2.procs[pid]]
    && s2.procs[pid].call == s.procs[pid].call
    && (if s.procs[pid].call.CmdCheck? then s2.writer.None? && s2.readers == s.readers + {pid}
        else s2.writer == Some(pid) && s2.readers == s.readers)
    && (s2.procs[pid].phase.Spinning? <==> Endless(mode, s.file, s.procs[pid].call))
    && match s2.procs[pid].phase
       case Spinning => s2.file == s.file && s2.log == s.log
       case HalfStored(a) =>
         && s.procs[pid].call.CmdAdd? && s2.log == s.log
         && Outcome(mode, s.file, s.procs[pid].call) == (s2.file.(last := Some(a)), Ip(a))
       case Answered(r) =>
         && Outcome(mode, s.file, s.procs[pid].call) == (s2.file, r)
         && s2.log == s.log + [Logged(pid, OpOf(s.procs[pid].call), r)]
       case _ => false
  }

  lemma {:induction false} Acts(mode: Reset, s: Sys, s1: Sys, pid: Pid)
    requires Valid(s.file) && Ready(s, s1, pid)
    ensures HasActed(mode, s, Do(mode, s1, Act(pid)), pid)
  {
    EndlessScan(mode, s.file, s.procs[pid].call);
    hide ScanResult, Holder, Valid, Endless;
  }

  lemma {:induction false} EndlessScan(mode: Reset, d: TenantData, call: Call)
    requires Valid(d)
    ensures Endless(mode, d, call) <==>
            call.CmdAdd? && Holder(d.ips, call.info.id).None? && ScanResult(mode, d).Looping?
  {
    RawScanEndsIff(d);
    ParsedScanEnds(d);
    hide ScanResult, Holder, IterateN;
  }

  /** The call has come to its end: it answers as it should and has left what it should, or its scan does
      not end. */
  ghost predicate Ended(mode: Reset, s: Sys, s1: Sys, pid: Pid, call: Call)
    requires Valid(s.file)
  {
    if Endless(mode, s.file, call) then
      && pid in s1.procs && s1.procs[pid].phase.Spinning? && s1.writer == Some(pid)
      && s1.file == s.file && s1.log == s.log
    else
      var (file, r) := Outcome(mode, s.file, call);
      && Finished(s, s1, pid, r) && s1.file == file && s1.log == s.log + [Logged(pid, OpOf(call), r)]
  }

  lemma {:induction false} SpinsOn(mode: Reset, s: Sys, s2: Sys, pid: Pid)
    requires Valid(s.file) && HasActed(mode, s, s2, pid) && s2.procs[pid].phase.Spinning?
    ensures Ended(mode, s, s2, pid, s.procs[pid].call)
  {
    hide Valid, Outcome;
  }

  lemma {:induction false} Unlocks(mode: Reset, s: Sys, s2: Sys, pid: Pid)
    requires LockOk(s) && CanEnter(s, pid) && Valid(s.file) && HasActed(mode, s, s2, pid) && s2.procs[pid].phase.Answered?
    ensures Ended(mode, s, Do(mode, s2, Unlock(pid)), pid, s.procs[pid].call)
  {
    hide Valid, Outcome, Endless;
    assert pid !in s.readers;
    assert s.readers + {pid} - {pid} == s.readers;
    assert s.readers - {pid} == s.readers;
  }

  lemma {:induction false} Stores(mode: Reset, s: Sys, s2: Sys, pid: Pid)
    requires Valid(s.file) && HasActed(mode, s, s2, pid) && s2.procs[pid].phase.HalfStored?
    ensures HasActed(mode, s, Do(mode, s2, SecondStore(pid)), pid)
    ensures Do(mode, s2, SecondStore(pid)).procs[pid].phase.Answered?
  {
    hide Valid, Outcome, Endless;
  }

  // ---------------------------------------------------------------- completion

  /** Whoever is let in comes to its end: unless its scan is the one that never ends, the process answers
      and leaves what the call is to leave, with the lock as it was before; a check is let in beside other
      checks. */
  lemma {:induction false} Completes(mode: Reset, d: TenantData, s: Sys, pid: Pid) returns (steps: seq<Step>)
    requires Valid(d) && Inv(mode, d, s) && CanEnter(s, pid)
    ensures Valid(s.file) && Alone(steps, pid)
    ensures Ended(mode, s, Exec(mode, s, steps), pid, s.procs[pid].call)
  {
    hide HasActed, Ready, Inv, Valid, Do, Exec, Ended, LockOk;
    InvMeans(mode, d, s);
    Enters(mode, s, pid);
    steps := [Acquire(pid), Load(pid)];
    Acts(mode, s, Exec(mode, s, steps), pid);
    ExecOn(mode, s, steps, Act(pid));
    steps := steps + [Act(pid)];
    var s2 := Exec(mode, s, steps);
    AnswersOrWaits(mode, s, s2, pid);
    if s2.procs[pid].phase.Spinning? {
      SpinsOn(mode, s, s2, pid);
    } else {
      if s2.procs[pid].phase.HalfStored? {
        Stores(mode, s, s2, pid);
        ExecOn(mode, s, steps, SecondStore(pid));
        steps := steps + [SecondStore(pid)];
      }
      Unlocks(mode, s, Exec(mode, s, steps), pid);
      ExecOn(mode, s, steps, Unlock(pid));
      steps := steps + [Unlock(pid)];
    }
  }

  lemma {:induction false} AnswersOrWaits(mode: Reset, s: Sys, s2: Sys, pid: Pid)
    requires Valid(s.file) && HasActed(mode, s, s2, pid)
    ensures pid in s2.procs
    ensures s2.procs[pid].phase.Spinning? || s2.procs[pid].phase.HalfStored? || s2.procs[pid].phase.Answered?
  {
    hide Valid, Outcome, Endless;
  }

  lemma {:induction false} InvMeans(mode: Reset, d: TenantData, s: Sys)
    requires Valid(d) && Inv(mode, d, s) && s.writer.None?
    ensures Valid(s.file) && LockOk(s)
  {
    FileValid(mode, Replay(mode, d, s.log), s);
  }

  /** The same from the start of the process, whatever the others are doing, as long as the lock is free
      for it. */
  lemma {:induction false} CallCompletes(mode: Reset, d: TenantData, s: Sys, pid: Pid, call: Call)
    returns (steps: seq<Step>)
    requires Valid(d) && Inv(mode, d, s) && pid !in s.procs && s.writer.None? && (s.readers == {} || call.CmdCheck?)
    ensures Valid(s.file) && Alone(steps, pid)
    ensures Ended(mode, s, Exec(mode, s, steps), pid, call)
  {
    hide Inv, Valid, Do, Exec, Ended, CanEnter;
    InvMeans(mode, d, s);
    var first := [Spawn(pid, call), Preload(pid)];
    Begins(mode, s, pid, call);
    InvExec(mode, d, s, first);
    var s2 := Exec(mode, s, first);
    assert CanEnter(s2, pid) by { BegunEnters(s, s2, pid); }
    var rest := Completes(mode, d, s2, pid);
    steps := first + rest;
    ExecMore(mode, s, first, rest);
    EndedFrom(mode, s, s2, Exec(mode, s2, rest), pid, call);
  }

  /** A new process loads the file as it is, and waits for nobody. */
  lemma {:induction false} Begins(mode: Reset, s: Sys, pid: Pid, call: Call)
    requires pid !in s.procs
    ensures var s2 := Exec(mode, s, [Spawn(pid, call), Preload(pid)]);
            s2 == s.(procs := s.procs[pid := Proc(call, Some(s.file), Some(s.file.gateway), Preloaded)])
  {
    ExecTwo(mode, s, Spawn(pid, call), Preload(pid));
    hide Exec;
  }

  lemma {:induction false} BegunEnters(s: Sys, s2: Sys, pid: Pid)
    requires pid in s2.procs && s2.procs[pid].phase.Preloaded? && s2.writer == s.writer && s2.readers == s.readers
    requires s.writer.None? && (s.readers == {} || s2.procs[pid].call.CmdCheck?)
    ensures CanEnter(s2, pid)
  {
  }

  lemma {:induction false} EndedFrom(mode: Reset, s: Sys, s2: Sys, s3: Sys, pid: Pid, call: Call)
    requires Valid(s.file) && pid !in s.procs && pid in s2.procs && s2 == s.(procs := s.procs[pid := s2.procs[pid]])
    requires Ended(mode, s2, s3, pid, call)
    ensures Ended(mode, s, s3, pid, call)
  {
    hide Valid, Outcome, Endless;
  }

  // ---------------------------------------------------------------- death

  /** A death gives back the lock, or its share of it, and leaves the file as it is: also half-way through
      an allocation, which is then logged as such. */
  lemma {:induction false} DeathFreesLock(mode: Reset, s: Sys, pid: Pid)
    requires pid in s.procs && !s.procs[pid].phase.Done?
    ensures var s1 := Do(mode, s, Crash(pid)); var p := s.procs[pid];
            && s1.procs == s.procs[pid := p.(phase := Dead)] && s1.file == s.file
            && s1.writer == (if s.writer == Some(pid) then None else s.writer) && s1.readers == s.readers - {pid}
            && s1.log == s.log + (if p.phase.HalfStored? && p.call.CmdAdd?
                                  then [Logged(pid, CrashedAlloc(p.call.info), Failed)] else [])
  {
  }

  /** So whoever holds the lock, and be it in a scan that never ends: once it is killed, every call that
      waits for the lock can come to its end on the file that is there. */
  lemma {:induction false} KillingFrees(mode: Reset, d: TenantData, s: Sys, holder: Pid, pid: Pid)
    returns (steps: seq<Step>)
    requires Valid(d) && Inv(mode, d, s) && s.writer == Some(holder)
    requires pid in s.procs && pid != holder && s.procs[pid].phase.Preloaded?
    ensures Alone(steps, pid)
    ensures var s1 := Do(mode, s, Crash(holder));
            && s1.file == s.file && s1.writer.None? && s1.readers == {} && Valid(s1.file)
            && Ended(mode, s1, Exec(mode, s, [Crash(holder)] + steps), pid, s.procs[pid].call)
  {
    hide Inv, Valid, Do, Ended, Exec;
    HolderCanDie(mode, d, s, holder);
    DeathFreesLock(mode, s, holder);
    InvStep(mode, d, s, Crash(holder));
    var s1 := Do(mode, s, Crash(holder));
    steps := Completes(mode, d, s1, pid);
    ExecOne(mode, s, Crash(holder));
    InvMeans(mode, d, s1);
    ExecMore(mode, s, [Crash(holder)], steps);
  }

  lemma {:induction false} HolderCanDie(mode: Reset, d: TenantData, s: Sys, holder: Pid)
    requires Valid(d) && Inv(mode, d, s) && s.writer == Some(holder)
    ensures holder in s.procs && !s.procs[holder].phase.Done? && s.readers == {}
  {
    hide Valid;
  }
}
