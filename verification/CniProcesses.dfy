/** CNI calls as processes over one tenant file and its lock.

    Every call is a process of its own: it loads the file without the lock, takes the lock, loads
    again, acts, stores and unlocks. Steps of different processes interleave freely and a process may
    die at any point, also between the two stores of an allocation; its lock is then released. A step
    that a process cannot take leaves the system as it is. */
module CniProcesses {
  import opened Options
  import opened Text
  import opened Leases
  import opened LeaseRuns

  type Pid = nat

  datatype Call = CmdAdd(info: NetInfo) | CmdDel(id: string) | CmdCheck(id: string)

  datatype Phase =
    | Started
    | Preloaded
    | Locked
    | Loaded
    | HalfStored(addr: Addr)
    | Spinning
    | Answered(reply: Reply)
    | Done(reply: Reply)
    | Dead

  /** mem is the in-memory copy of the file; gateway is read from the unlocked load. */
  datatype Proc = Proc(call: Call, mem: Option<TenantData>, gateway: Option<Addr>, phase: Phase)

  /** A call that has taken effect, in order of effect. */
  datatype Logged = Logged(pid: Pid, op: Op, reply: Reply)

  datatype Sys = Sys(
    file: TenantData, procs: map<Pid, Proc>, writer: Option<Pid>, readers: set<Pid>, log: seq<Logged>)

  datatype Step =
    | Spawn(pid: Pid, call: Call)
    | Preload(pid: Pid)
    | Acquire(pid: Pid)
    | Load(pid: Pid)
    | Act(pid: Pid)
    | SecondStore(pid: Pid)
    | Unlock(pid: Pid)
    | Crash(pid: Pid)

  ghost function Start(d: TenantData): Sys {
    Sys(d, map[], None, {}, [])
  }

  function OpOf(call: Call): Op {
    match call
    case CmdAdd(info) => Alloc(info)
    case CmdDel(id) => Rel(id)
    case CmdCheck(id) => Chk(id)
  }

  function Update(s: Sys, pid: Pid, p: Proc): Sys {
    s.(procs := s.procs[pid := p])
  }

  function Free(s: Sys, pid: Pid): Sys {
    s.(writer := if s.writer == Some(pid) then None else s.writer, readers := s.readers - {pid})
  }

  /** The process decides from its own copy and makes its first store. */
  ghost function Decide(mode: Reset, s: Sys, pid: Pid): Sys
    requires pid in s.procs && s.procs[pid].mem.Some? && Valid(s.procs[pid].mem.value)
  {
    var p := s.procs[pid];
    var d := p.mem.value;
    match p.call
    case CmdCheck(id) =>
      var r := Check(d, id);
      Update(s, pid, p.(phase := Answered(r))).(log := s.log + [Logged(pid, Chk(id), r)])
    case CmdDel(id) =>
      Update(s, pid, p.(phase := Answered(Released))).(
        file := if Release(d, id) == d then s.file else Release(d, id),
        log := s.log + [Logged(pid, Rel(id), Released)])
    case CmdAdd(info) =>
      if Holder(d.ips, info.id).None? && ScanResult(mode, d).Picked? then
        Update(s, pid, p.(phase := HalfStored(ScanResult(mode, d).addr))).(file := AllocateHalf(mode, d, info))
      else if Holder(d.ips, info.id).None? && ScanResult(mode, d).Looping? then
        Update(s, pid, p.(phase := Spinning))
      else
        var r := Allocate(mode, d, info).1;
        Update(s, pid, p.(phase := Answered(r))).(log := s.log + [Logged(pid, Alloc(info), r)])
  }

  ghost function Do(mode: Reset, s: Sys, step: Step): Sys {
    var pid := step.pid;
    if step.Spawn? then
      if pid in s.procs then s else Update(s, pid, Proc(step.call, None, None, Started))
    else if pid !in s.procs then s
    else
      var p := s.procs[pid];
      match step
      case Preload(_) =>
        if !p.phase.Started? then s
        else Update(s, pid, p.(mem := Some(s.file), gateway := Some(s.file.gateway), phase := Preloaded))
      case Acquire(_) =>
        if !p.phase.Preloaded? || s.writer.Some? then s
        else if p.call.CmdCheck? then Update(s, pid, p.(phase := Locked)).(readers := s.readers + {pid})
        else if s.readers != {} then s
        else Update(s, pid, p.(phase := Locked)).(writer := Some(pid))
      case Load(_) =>
        if !p.phase.Locked? then s else Update(s, pid, p.(mem := Some(s.file), phase := Loaded))
      case Act(_) =>
        if p.phase.Loaded? && p.mem.Some? && Valid(p.mem.value) then Decide(mode, s, pid) else s
      case SecondStore(_) =>
        if !p.phase.HalfStored? || !p.call.CmdAdd? then s
        else
          Update(s, pid, p.(phase := Answered(Ip(p.phase.addr)))).(
            file := s.file.(last := Some(p.phase.addr)),
            log := s.log + [Logged(pid, Alloc(p.call.info), Ip(p.phase.addr))])
      case Unlock(_) =>
        if !p.phase.Answered? then s else Free(Update(s, pid, p.(phase := Done(p.phase.reply))), pid)
      case Crash(_) =>
        if p.phase.Done? then s else
        var s1 := Free(Update(s, pid, p.(phase := Dead)), pid);
        if p.phase.HalfStored? && p.call.CmdAdd?
        then s1.(log := s.log + [Logged(pid, CrashedAlloc(p.call.info), Failed)]) else s1
  }

  ghost function Exec(mode: Reset, s: Sys, steps: seq<Step>): Sys {
    if steps == [] then s else Do(mode, Exec(mode, s, steps[..|steps| - 1]), steps[|steps| - 1])
  }

  // ---------------------------------------------------------------- the sequential order

  function Ops(log: seq<Logged>): seq<Op> {
    if log == [] then [] else Ops(log[..|log| - 1]) + [log[|log| - 1].op]
  }

  /** The store after running the logged calls one after the other. */
  ghost function Replay(mode: Reset, d: TenantData, log: seq<Logged>): (r: TenantData)
    requires Valid(d)
    ensures Valid(r) && r.base == d.base && r.size == d.size && r.gateway == d.gateway
  {
    if log == [] then d else After(mode, Replay(mode, d, log[..|log| - 1]), log[|log| - 1].op)
  }

  ghost function Answer(mode: Reset, d: TenantData, op: Op): Reply
    requires Valid(d)
  {
    match op
    case Alloc(info) => Allocate(mode, d, info).1
    case CrashedAlloc(_) => Failed
    case Rel(_) => Released
    case Chk(id) => Check(d, id)
  }

  /** Every logged reply is the one the sequential order gives. */
  ghost predicate LogOk(mode: Reset, d: TenantData, log: seq<Logged>)
    requires Valid(d)
  {
    log == [] ||
    (var n := |log| - 1;
     LogOk(mode, d, log[..n]) && log[n].reply == Answer(mode, Replay(mode, d, log[..n]), log[n].op))
  }

  lemma {:induction false} LogExtend(mode: Reset, d: TenantData, log: seq<Logged>, e: Logged)
    requires Valid(d) && LogOk(mode, d, log) && e.reply == Answer(mode, Replay(mode, d, log), e.op)
    ensures LogOk(mode, d, log + [e])
    ensures Replay(mode, d, log + [e]) == After(mode, Replay(mode, d, log), e.op)
  {
    assert (log + [e])[..|log|] == log;
  }

  // ---------------------------------------------------------------- the invariant

  predicate Holding(phase: Phase) {
    phase.Locked? || phase.Loaded? || phase.HalfStored? || phase.Spinning? || phase.Answered?
  }

  predicate Settled(phase: Phase) {
    phase.Answered? || phase.Done? || phase.Dead?
  }

  ghost predicate LockOk(s: Sys) {
    && (s.writer.Some? ==> s.readers == {} && s.writer.value in s.procs)
    && (forall pid :: pid in s.procs ==>
          (Holding(s.procs[pid].phase) <==> pid in s.readers || s.writer == Some(pid)))
    && (forall pid :: pid in s.readers ==> pid in s.procs && s.procs[pid].call.CmdCheck?)
    && (forall pid :: pid in s.procs && s.writer == Some(pid) ==> !s.procs[pid].call.CmdCheck?)
  }

  ghost predicate LogPidsOk(s: Sys) {
    && (forall i :: 0 <= i < |s.log| ==> s.log[i].pid in s.procs && Settled(s.procs[s.log[i].pid].phase))
    && (forall i, j :: 0 <= i < j < |s.log| ==> s.log[i].pid != s.log[j].pid)
  }

  /** The reply of a finished call is the one in its log entry. */
  ghost predicate RepliesLogged(s: Sys) {
    forall pid :: pid in s.procs && (s.procs[pid].phase.Answered? || s.procs[pid].phase.Done?) ==>
      Logged(pid, OpOf(s.procs[pid].call), s.procs[pid].phase.reply) in s.log
  }

  /** Between the two stores of an allocation the file is half a step ahead of the order. */
  ghost predicate FileIs(mode: Reset, done: TenantData, s: Sys)
    requires Valid(done)
  {
    if HalfDone(s) then
      var p := s.procs[s.writer.value];
      && p.call.CmdAdd? && Holder(done.ips, p.call.info.id).None?
      && ScanResult(mode, done) == Picked(p.phase.addr)
      && s.file == AllocateHalf(mode, done, p.call.info)
    else s.file == done
  }

  ghost predicate HalfDone(s: Sys) {
    s.writer.Some? && s.writer.value in s.procs && s.procs[s.writer.value].phase.HalfStored?
  }

  ghost predicate MemOk(d: TenantData, s: Sys) {
    forall pid :: pid in s.procs ==>
      && (s.procs[pid].phase.Loaded? ==> s.procs[pid].mem == Some(s.file))
      && (s.procs[pid].gateway.Some? ==> s.procs[pid].gateway.value == d.gateway)
  }

  ghost predicate Inv(mode: Reset, d: TenantData, s: Sys)
    requires Valid(d)
  {
    LockOk(s) && LogPidsOk(s) && RepliesLogged(s) && LogOk(mode, d, s.log) && MemOk(d, s)
    && FileIs(mode, Replay(mode, d, s.log), s)
  }

  /** What one step does to the shared file and to the log. */
  lemma {:induction false} StepEffect(mode: Reset, s: Sys, step: Step)
    ensures var s1 := Do(mode, s, step);
            && (s1.file != s.file || s1.log != s.log ==>
                  step.pid in s.procs && Holding(s.procs[step.pid].phase))
            && (s1.file != s.file ==> step.Act? || step.SecondStore?)
            && (s1.file != s.file ==> !s.procs[step.pid].call.CmdCheck?)
  {
  }

  /** A step touches one process, which keeps its call. */
  ghost predicate OneProc(s: Sys, s1: Sys, pid: Pid) {
    && s.procs.Keys <= s1.procs.Keys <= s.procs.Keys + {pid}
    && (forall q :: q in s.procs && q != pid ==> s1.procs[q] == s.procs[q])
    && (pid in s.procs ==> s1.procs[pid].call == s.procs[pid].call)
  }

  lemma {:induction false} StepShape(mode: Reset, s: Sys, step: Step)
    ensures OneProc(s, Do(mode, s, step), step.pid)
    ensures var s1 := Do(mode, s, step);
            !step.Acquire? && !step.Unlock? && !step.Crash? ==>
              && s1.writer == s.writer && s1.readers == s.readers
              && (step.pid in s1.procs ==>
                    (Holding(s1.procs[step.pid].phase) <==>
                     step.pid in s.procs && Holding(s.procs[step.pid].phase)))
    ensures var s1 := Do(mode, s, step);
            (step.Unlock? || step.Crash?) && s1 != s ==>
              && step.pid in s1.procs && !Holding(s1.procs[step.pid].phase)
              && s1.writer == Free(s, step.pid).writer && s1.readers == Free(s, step.pid).readers
  {
    hide Allocate, AllocateHalf, ScanResult, Release, Check, Holder, Valid;
  }

  lemma {:induction false} LockStep(mode: Reset, s: Sys, step: Step)
    requires LockOk(s)
    ensures LockOk(Do(mode, s, step))
  {
    StepShape(mode, s, step);
    if step.Acquire? {
      AcquireStep(mode, s, step.pid);
    }
  }

  lemma {:induction false} AcquireStep(mode: Reset, s: Sys, pid: Pid)
    requires LockOk(s)
    ensures LockOk(Do(mode, s, Acquire(pid)))
  {
  }

  lemma {:induction false} MemStep(mode: Reset, d: TenantData, s: Sys, step: Step)
    requires LockOk(s) && MemOk(d, s) && s.file.gateway == d.gateway
    ensures MemOk(d, Do(mode, s, step))
  {
    hide Allocate, AllocateHalf, ScanResult, Check, Holder, Valid;
    var s1 := Do(mode, s, step);
    StepEffect(mode, s, step);
    forall pid | pid in s1.procs && pid != step.pid && s1.procs[pid].phase.Loaded?
      ensures s1.procs[pid].mem == Some(s1.file)
    {
      assert pid in s.procs && s1.procs[pid] == s.procs[pid];
    }
  }

  /** A step that logs settles its process; one that does not keeps every reply. */
  lemma {:induction false} LogShape(mode: Reset, s: Sys, step: Step)
    ensures var s1 := Do(mode, s, step); var pid := step.pid;
            if s1.log == s.log then
              pid in s.procs ==>
                && (Settled(s.procs[pid].phase) ==> Settled(s1.procs[pid].phase))
                && (s1.procs[pid].phase.Answered? || s1.procs[pid].phase.Done? ==>
                      && (s.procs[pid].phase.Answered? || s.procs[pid].phase.Done?)
                      && s.procs[pid].phase.reply == s1.procs[pid].phase.reply)
            else
              && pid in s.procs && pid in s1.procs && |s1.log| == |s.log| + 1 && s.log <= s1.log
              && !Settled(s.procs[pid].phase) && Settled(s1.procs[pid].phase) && !s1.procs[pid].phase.Done?
              && s1.log[|s.log|].pid == pid
              && (s1.procs[pid].phase.Answered? ==>
                    s1.log[|s.log|] == Logged(pid, OpOf(s1.procs[pid].call), s1.procs[pid].phase.reply))
    ensures step.pid !in s.procs && step.pid in Do(mode, s, step).procs ==>
              Do(mode, s, step).procs[step.pid].phase.Started?
  {
  }

  /** No process logs twice, and every reply given is in the log. */
  lemma {:induction false} LogStep(mode: Reset, s: Sys, step: Step)
    requires LogPidsOk(s) && RepliesLogged(s)
    ensures var s1 := Do(mode, s, step);
            LogPidsOk(s1) && RepliesLogged(s1) && s.log <= s1.log
  {
    StepShape(mode, s, step);
    LogShape(mode, s, step);
    hide Do;
    var s1 := Do(mode, s, step);
    if s1.log != s.log {
      assert s1.log[|s.log|] in s1.log;
      assert forall x :: x in s.log ==> x in s1.log;
    }
  }

  /** What a step does to the order: nothing, or one more call whose reply is the order's. */
  ghost predicate Advances(mode: Reset, done: TenantData, s: Sys, s1: Sys)
    requires Valid(done)
  {
    if s1.log == s.log then FileIs(mode, done, s1)
    else
      && |s1.log| == |s.log| + 1 && s1.log == s.log + [s1.log[|s.log|]]
      && s1.log[|s.log|].reply == Answer(mode, done, s1.log[|s.log|].op)
      && FileIs(mode, After(mode, done, s1.log[|s.log|].op), s1)
  }

  lemma {:induction false} QuietStep(mode: Reset, done: TenantData, s: Sys, step: Step)
    requires Valid(done) && LockOk(s) && FileIs(mode, done, s)
    requires !step.Act? && !step.SecondStore? && !step.Crash?
    ensures Advances(mode, done, s, Do(mode, s, step))
  {
    StepEffect(mode, s, step);
    var s1 := Do(mode, s, step);
    assert s1.log == s.log && s1.file == s.file;
    assert HalfDone(s) ==> s1.writer == s.writer && s1.procs[s.writer.value] == s.procs[s.writer.value];
    assert HalfDone(s1) ==> s1.writer == s.writer;
  }

  lemma {:induction false} DecideStep(mode: Reset, done: TenantData, s: Sys, pid: Pid)
    requires Valid(done) && LockOk(s) && FileIs(mode, done, s)
    requires pid in s.procs && s.procs[pid].phase.Loaded? ==> s.procs[pid].mem == Some(s.file)
    ensures Advances(mode, done, s, Do(mode, s, Act(pid)))
  {
  }

  lemma {:induction false} SecondStoreStep(mode: Reset, done: TenantData, s: Sys, pid: Pid)
    requires Valid(done) && LockOk(s) && FileIs(mode, done, s)
    ensures Advances(mode, done, s, Do(mode, s, SecondStore(pid)))
  {
  }

  lemma {:induction false} CrashStep(mode: Reset, done: TenantData, s: Sys, pid: Pid)
    requires Valid(done) && LockOk(s) && FileIs(mode, done, s)
    ensures Advances(mode, done, s, Do(mode, s, Crash(pid)))
  {
  }

  /** The file follows the sequential order of the log. */
  lemma {:induction false} FileStep(mode: Reset, done: TenantData, s: Sys, step: Step)
    requires Valid(done) && LockOk(s) && FileIs(mode, done, s)
    requires forall pid :: pid in s.procs && s.procs[pid].phase.Loaded? ==> s.procs[pid].mem == Some(s.file)
    ensures Advances(mode, done, s, Do(mode, s, step))
  {
    match step
    case Act(pid) => DecideStep(mode, done, s, pid);
    case SecondStore(pid) => SecondStoreStep(mode, done, s, pid);
    case Crash(pid) => CrashStep(mode, done, s, pid);
    case _ => QuietStep(mode, done, s, step);
  }

  lemma {:induction false} InvStep(mode: Reset, d: TenantData, s: Sys, step: Step)
    requires Valid(d) && Inv(mode, d, s)
    ensures Inv(mode, d, Do(mode, s, step)) && s.log <= Do(mode, s, step).log
  {
    LockStep(mode, s, step);
    MemStep(mode, d, s, step);
    LogStep(mode, s, step);
    FileStep(mode, Replay(mode, d, s.log), s, step);
    var s1 := Do(mode, s, step);
    if s1.log != s.log {
      LogExtend(mode, d, s.log, s1.log[|s.log|]);
    }
  }

  lemma {:induction false} InvExec(mode: Reset, d: TenantData, s: Sys, steps: seq<Step>)
    requires Valid(d) && Inv(mode, d, s)
    ensures Inv(mode, d, Exec(mode, s, steps)) && s.log <= Exec(mode, s, steps).log
  {
    if steps != [] {
      var n := |steps| - 1;
      InvExec(mode, d, s, steps[..n]);
      InvStep(mode, d, Exec(mode, s, steps[..n]), steps[n]);
    }
  }

  // ---------------------------------------------------------------- every reachable state

  /** In every reachable state, whatever the interleaving and the deaths: the file holds one address
      per container and one container per address; there is one order of the calls that took effect
      in which every finished call has its reply, each process at most once, and the file is what that
      order leaves, except for the cursor between the two stores of an allocation; and the gateway read
      from the unlocked load is the tenant's. */
  lemma {:induction false} Linearizable(mode: Reset, d: TenantData, steps: seq<Step>)
    requires Valid(d)
    ensures var s := Exec(mode, Start(d), steps);
            && Valid(s.file)
            && LogOk(mode, d, s.log)
            && FileIs(mode, Replay(mode, d, s.log), s)
            && (s.writer.None? ==> s.file == Replay(mode, d, s.log))
            && RepliesLogged(s)
            && (forall i, j :: 0 <= i < j < |s.log| ==> s.log[i].pid != s.log[j].pid)
            && (forall pid :: pid in s.procs && s.procs[pid].gateway.Some? ==>
                  s.procs[pid].gateway.value == d.gateway)
  {
    hide Exec;
    InvStart(mode, d);
    InvExec(mode, d, Start(d), steps);
    var s := Exec(mode, Start(d), steps);
    FileValid(mode, Replay(mode, d, s.log), s);
  }

  lemma {:induction false} InvStart(mode: Reset, d: TenantData)
    requires Valid(d)
    ensures Inv(mode, d, Start(d))
  {
  }

  lemma {:induction false} FileValid(mode: Reset, done: TenantData, s: Sys)
    requires Valid(done) && FileIs(mode, done, s)
    ensures Valid(s.file) && (s.writer.None? ==> s.file == done)
  {
    if HalfDone(s) {
      CallsKeepValid(mode, done, s.procs[s.writer.value].call.info);
    }
  }

  /** The order respects time: a call that took effect before another process was spawned comes
      before it, because the order only grows at its end. */
  lemma {:induction false} OrderRespectsTime(
      mode: Reset, d: TenantData, before: seq<Step>, after: seq<Step>, i: nat, j: nat)
    requires Valid(d)
    requires var s := Exec(mode, Start(d), before);
             i < |s.log| && j < |Exec(mode, s, after).log| && Exec(mode, s, after).log[j].pid !in s.procs
    ensures var s := Exec(mode, Start(d), before);
            i < j && Exec(mode, s, after).log[i] == s.log[i]
  {
    hide Exec;
    InvStart(mode, d);
    InvExec(mode, d, Start(d), before);
    InvExec(mode, d, Exec(mode, Start(d), before), after);
  }

  lemma {:induction false} OpsAre(log: seq<Logged>)
    ensures |Ops(log)| == |log| && forall i :: 0 <= i < |log| ==> Ops(log)[i] == log[i].op
  {
    if log != [] {
      OpsAre(log[..|log| - 1]);
    }
  }

  lemma {:induction false} ReplayMore(mode: Reset, d: TenantData, log: seq<Logged>, more: seq<Logged>)
    requires Valid(d)
    ensures Replay(mode, d, log + more) == Run(mode, Replay(mode, d, log), Ops(more))
  {
    if more == [] {
      assert log + more == log;
    } else {
      var n := |more| - 1;
      ReplayMore(mode, d, log, more[..n]);
      assert (log + more)[..|log + more| - 1] == log + more[..n];
      assert Ops(more)[..|Ops(more)| - 1] == Ops(more[..n]);
    }
  }

  lemma {:induction false} LogOkPrefix(mode: Reset, d: TenantData, log: seq<Logged>, i: nat)
    requires Valid(d) && LogOk(mode, d, log) && i <= |log|
    ensures LogOk(mode, d, log[..i])
  {
    hide Answer, Replay;
    var n := |log| - 1;
    if i == |log| {
      assert log[..i] == log;
    } else {
      LogOkPrefix(mode, d, log[..n], i);
      assert log[..n][..i] == log[..i];
    }
  }

  lemma {:induction false} LoggedRetry(
      mode: Reset, d: TenantData, log: seq<Logged>, more: seq<Logged>, e: Logged, id: string, a: Addr)
    requires Valid(d) && LogOk(mode, d, log + more + [e])
    requires Holder(Replay(mode, d, log).ips, id) == Some(a)
    requires forall i :: 0 <= i < |more| ==> more[i].op != Rel(id)
    requires e.op.Alloc? && e.op.info.id == id
    ensures e.reply == Ip(a)
  {
    hide Replay;
    var all := log + more + [e];
    assert all[..|all| - 1] == log + more;
    ReplayMore(mode, d, log, more);
    OpsAre(more);
    HeldUntilReleased(mode, Replay(mode, d, log), Ops(more), id, a);
  }

  /** A lease that is in the file while nobody holds the lock, for instance one whose process died
      after its first store, is what every later call for that container gets, until a release of it
      takes effect. */
  lemma {:induction false} RetryGetsStoredLease(
      mode: Reset, d: TenantData, before: seq<Step>, after: seq<Step>, id: string, a: Addr, i: nat)
    requires Valid(d)
    requires var s := Exec(mode, Start(d), before); var log := Exec(mode, s, after).log;
             && s.writer.None? && Holder(s.file.ips, id) == Some(a)
             && |s.log| <= i < |log| && log[i].op.Alloc? && log[i].op.info.id == id
             && forall j :: |s.log| <= j < i ==> log[j].op != Rel(id)
    ensures Exec(mode, Exec(mode, Start(d), before), after).log[i].reply == Ip(a)
  {
    hide Exec, LockOk, LogPidsOk, RepliesLogged, MemOk, LogOk, Replay, FileIs, Holder;
    var s := Exec(mode, Start(d), before);
    InvStart(mode, d);
    InvExec(mode, d, Start(d), before);
    InvExec(mode, d, s, after);
    FileValid(mode, Replay(mode, d, s.log), s);
    var log := Exec(mode, s, after).log;
    var n := |s.log|;
    LogOkPrefix(mode, d, log, i + 1);
    assert log[..i + 1] == s.log + log[n..i] + [log[i]];
    LoggedRetry(mode, d, s.log, log[n..i], log[i], id, a);
  }

  // ---------------------------------------------------------------- the scan that never ends

  /** A process starts to spin if and only if the code is read as written, its container holds no
      address and no address after the cursor is free, however many before it are. */
  lemma {:induction false} SpinsIff(mode: Reset, d: TenantData, s: Sys, pid: Pid)
    requires Valid(d) && Inv(mode, d, s) && pid in s.procs && s.procs[pid].phase.Loaded? && s.procs[pid].call.CmdAdd?
    ensures Valid(s.file)
    ensures Do(mode, s, Act(pid)).procs[pid].phase.Spinning? <==>
            && mode == RawText && Holder(s.file.ips, s.procs[pid].call.info.id).None?
            && forall x: Addr :: s.file.last.value < x < s.file.base + s.file.size ==> x in s.file.ips
  {
    var done := Replay(mode, d, s.log);
    FileValid(mode, done, s);
    if mode == RawText {
      RawScanEndsIff(s.file);
    } else {
      ParsedScanEnds(s.file);
    }
    hide LockOk, LogPidsOk, RepliesLogged, LogOk, FileIs, Replay, ScanResult, Valid;
  }

  /** As written, a process whose scan cannot end keeps the lock: until it is killed no call of any
      process takes effect any more. */
  lemma {:induction false} SpinnerBlocksAll(mode: Reset, s: Sys, steps: seq<Step>, pid: Pid)
    requires LockOk(s) && s.writer == Some(pid) && s.procs[pid].phase.Spinning?
    requires forall i :: 0 <= i < |steps| ==> steps[i] != Crash(pid)
    ensures var s1 := Exec(mode, s, steps);
            s1.log == s.log && s1.file == s.file && s1.writer == Some(pid) && LockOk(s1)
            && s1.procs[pid].phase.Spinning?
  {
    if steps != [] {
      var n := |steps| - 1;
      SpinnerBlocksAll(mode, s, steps[..n], pid);
      SpinnerStep(mode, Exec(mode, s, steps[..n]), steps[n], pid);
    }
  }

  lemma {:induction false} SpinnerStep(mode: Reset, s: Sys, step: Step, pid: Pid)
    requires LockOk(s) && s.writer == Some(pid) && s.procs[pid].phase.Spinning? && step != Crash(pid)
    ensures var s1 := Do(mode, s, step);
            s1.log == s.log && s1.file == s.file && s1.writer == Some(pid) && LockOk(s1)
            && s1.procs[pid].phase.Spinning?
  {
    LockStep(mode, s, step);
    StepEffect(mode, s, step);
    StepShape(mode, s, step);
  }
}
