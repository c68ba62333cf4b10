/** What happens to the fields of one process over whole runs: nothing but what its creation, its
    admissions and the ticks charged to it account for. */
module ProcessFields {
  import opened Words
  import opened Wrappers
  import opened Processes
  import opened SchedulerModel
  import opened SchedulerRuns
  import opened Journal

  // ---------------------------------------------------------------------------------------------
  // One process wherever it is
  // ---------------------------------------------------------------------------------------------

  predicate Known(w: World, pid: nat) {
    Places(w, pid) > 0
  }

  /** The PCB of a process wherever it is. */
  function PcbOf(w: World, pid: nat): Pcb
    requires Known(w, pid)
  {
    if pid in w.away then w.away[pid]
    else if IsCurrent(w.sys, pid) then w.sys.cur.value
    else
      CountQueued(w.sys, pid);
      FindCorrect(Queued(w.sys), pid);
      Find(Queued(w.sys), pid).value
  }

  /** The scheduler holds p: on the CPU, or else in a queue. */
  predicate HeldAs(s: Sys, p: Pcb, onCpu: bool) {
    if onCpu then s.cur == Some(p) else p in Queued(s)
  }

  /** p is the PCB of some process somewhere. */
  predicate Holds(w: World, p: Pcb, onCpu: bool) {
    HeldAs(w.sys, p, onCpu) || (!onCpu && p.pid in w.away && w.away[p.pid] == p)
  }

  lemma FindOnly(q: seq<Pcb>, p: Pcb)
    requires p in q && Count(q, p.pid) <= 1
    ensures Find(q, p.pid) == Some(p)
  {
    if q[0] != p {
      assert p in q[1..];
      var k :| 0 <= k < |q[1..]| && q[1..][k] == p;
      CountPositive(q[1..], k);
      FindOnly(q[1..], p);
    }
  }

  lemma HoldsUnique(w: World, p: Pcb, onCpu: bool)
    requires OnePlace(w) && Holds(w, p, onCpu)
    ensures Known(w, p.pid) && PcbOf(w, p.pid) == p && IsCurrent(w.sys, p.pid) == onCpu
  {
    assert Places(w, p.pid) <= 1;
    CountQueued(w.sys, p.pid);
    if p in Queued(w.sys) {
      var k :| 0 <= k < |Queued(w.sys)| && Queued(w.sys)[k] == p;
      CountPositive(Queued(w.sys), k);
      FindOnly(Queued(w.sys), p);
    }
  }

  lemma PcbOfHeld(w: World, pid: nat)
    requires OnePlace(w) && Known(w, pid)
    ensures Holds(w, PcbOf(w, pid), IsCurrent(w.sys, pid)) && PcbOf(w, pid).pid == pid
  {
    assert Places(w, pid) <= 1;
    CountQueued(w.sys, pid);
    FindCorrect(Queued(w.sys), pid);
  }

  lemma SelectedOrStays(s: Sys, p: Pcb)
    requires HasWaiting(s) && p in Queued(s)
    ensures Select(s).next == Some(p) || p in Queued(Select(s).rest)
  {
  }

  lemma EnqueueHolds(s: Sys, x: Pcb, p: Pcb)
    requires p in Queued(s) || p == x
    ensures p in Queued(Enqueue(s, x))
  {
    assert x in [x];
  }

  // ---------------------------------------------------------------------------------------------
  // The fields of one process over one event
  // ---------------------------------------------------------------------------------------------

  predicate SameProcess(p: Pcb, p': Pcb) {
    p'.pid == p.pid && p'.name == p.name && p'.priority == p.priority
  }

  /** Neither charged nor admitted. */
  predicate SameWork(p: Pcb, p': Pcb) {
    && p'.totalTicks == p.totalTicks && p'.burstTime == p.burstTime && p'.remainingTime == p.remainingTime
    && p'.arrivalTime == p.arrivalTime
  }

  /** Charged one tick, which only SRTF takes off the remaining time. */
  predicate ChargedOnce(policy: Policy, p: Pcb, p': Pcb) {
    && p'.totalTicks == p.totalTicks + 1 && p'.burstTime == p.burstTime && p'.arrivalTime == p.arrivalTime
    && p'.remainingTime == if policy.Srtf? && p.remainingTime > 0 then p.remainingTime - 1 else p.remainingTime
  }

  /** Admitted at this time: the work done before is kept, and only missing values are filled in. The
      process is READY with a whole slice, under MLFQ at the top. */
  predicate AdmittedAt(policy: Policy, now: nat, p: Pcb, p': Pcb) {
    && p'.totalTicks == p.totalTicks && p'.allotment == p.allotment && p'.startTick == p.startTick
    && p'.burstTime == (if p.burstTime == 0 then 50 else p.burstTime)
    && p'.remainingTime == (if p.remainingTime == 0 then p'.burstTime else p.remainingTime)
    && p'.arrivalTime == now % 0x1_0000_0000 && p'.state == Ready
    && p'.level == (if policy.Mlfq? then 0 else p.level)
    && p'.timeSlice == p'.remainingSlice == if policy.Mlfq? then 5 else 10
  }

  /** The event admits this process. */
  predicate IsAdmission(w: World, e: Event, pid: nat) {
    pid in w.away &&
    match e
    case Add(p) => p == pid && (w.away[pid].state.New? || w.away[pid].state.Blocked? || w.away[pid].state.Terminated?)
    case Unblock(p) => p == pid && w.away[pid].state.Blocked?
    case _ => false
  }

  /** Everything that one event may do to the fields of a process that say who it is and what it has done. */
  predicate Evolves(w: World, e: Event, p: Pcb, p': Pcb) {
    && SameProcess(p, p')
    && (e == Event.Block(p.pid) ==> p'.state == Blocked)
    && p'.blockReason == (if IsAdmission(w, e, p.pid) && e.Unblock? then 0 else p.blockReason)
    && if e.Timer? && IsCurrent(w.sys, p.pid) then ChargedOnce(w.sys.policy, p, p')
       else if IsAdmission(w, e, p.pid) then AdmittedAt(w.sys.policy, w.sys.now, p, p')
       else SameWork(p, p')
  }

  lemma SwitchFields(s: Sys, c: Pcb, p: Pcb) returns (p': Pcb, onCpu': bool)
    requires HasWaiting(s) && (p in Queued(s) || p == Requeued(s.policy, c))
    ensures HeldAs(Switch(s, c), p', onCpu') && SameProcess(p, p') && SameWork(p, p') && p'.blockReason == p.blockReason
  {
    var s1 := Vacated(s, c);
    EnqueueHolds(s1, Requeued(s.policy, c), p);
    var s2 := Enqueue(s1, Requeued(s.policy, c));
    SelectedOrStays(s2, p);
    onCpu' := Select(s2).next == Some(p);
    p' := if onCpu' then SwitchedIn(s.policy, p, s.now) else p;
  }

  lemma StepFields(s: Sys, p: Pcb, onCpu: bool) returns (p': Pcb, onCpu': bool)
    requires HeldAs(s, p, onCpu)
    ensures HeldAs(Step(s), p', onCpu') && SameProcess(p, p')
    ensures p'.blockReason == p.blockReason && if onCpu then ChargedOnce(s.policy, p, p') else SameWork(p, p')
  {
    hide Switch, Select, ShouldSwitch;
    p', onCpu' := p, onCpu;
    if s.cur.None? {
      if HasWaiting(s) {
        SelectedOrStays(s, p);
        onCpu' := Select(s).next == Some(p);
        p' := if onCpu' then Started(p, s.now) else p;
      }
    } else {
      var charged := Charged(s.policy, s.cur.value);
      var d := Demoted(s.policy, charged);
      if !ShouldSwitch(s, charged) || !HasWaiting(s) {
        p' := if onCpu then Step(s).cur.value else p;
      } else {
        p', onCpu' := SwitchFields(s, d, if onCpu then Requeued(s.policy, d) else p);
      }
    }
  }

  lemma RefreshedIn(q: seq<Pcb>, p: Pcb)
    requires p in q
    ensures Refreshed(p) in RefreshAll(q)
  {
    var k :| 0 <= k < |q| && q[k] == p;
    assert RefreshAll(q)[k] == Refreshed(p);
  }

  lemma BoostFields(s: Sys, p: Pcb, onCpu: bool) returns (p': Pcb)
    requires HeldAs(s, p, onCpu)
    ensures HeldAs(Boost(s), p', onCpu) && (p' == p || p' == Refreshed(p))
  {
    p' := p;
    if !onCpu && s.policy.Mlfq? && p !in s.ready && p !in s.q0 {
      p' := Refreshed(p);
      if p in s.q1 {
        RefreshedIn(s.q1, p);
      } else {
        RefreshedIn(s.q2, p);
      }
    }
  }

  lemma SetPolicyFields(s: Sys, policy: Policy, p: Pcb, onCpu: bool) returns (p': Pcb)
    requires Disciplined(s) && HeldAs(s, p, onCpu)
    ensures HeldAs(SetPolicy(s, policy), p', onCpu) && (p' == p || p' == Refreshed(p))
  {
    p' := p;
    if !onCpu && !s.policy.Mlfq? && policy.Mlfq? {
      p' := Refreshed(p);
      RefreshedIn(s.ready, p);
    }
  }

  lemma BoostKeepsPolicy(s: Sys)
    ensures Boost(s).policy == s.policy
  {
  }

  lemma TimerFields(s: Sys, p: Pcb, onCpu: bool) returns (p': Pcb, onCpu': bool)
    requires HeldAs(s, p, onCpu)
    ensures HeldAs(TimerTick(s), p', onCpu') && SameProcess(p, p')
    ensures p'.blockReason == p.blockReason && if onCpu then ChargedOnce(s.policy, p, p') else SameWork(p, p')
  {
    hide Step, Boost;
    var s1 := s.(now := s.now + 1);
    var p1 := p;
    if BoostDue(s1) {
      p1 := BoostFields(s1, p, onCpu);
      BoostKeepsPolicy(s1);
    }
    p', onCpu' := StepFields(BoostIfDue(s1), p1, onCpu);
  }

  lemma RemovePidKeeps(q: seq<Pcb>, pid: nat, p: Pcb)
    requires p in q && p.pid != pid
    ensures p in RemovePid(q, pid)
  {
    if q[0].pid != pid && q[0] != p {
      RemovePidKeeps(q[1..], pid, p);
    }
  }

  lemma RemoveHolds(s: Sys, pid: nat, p: Pcb)
    requires p in Queued(s) && p.pid != pid
    ensures p in Queued(RemoveProcess(s, pid))
  {
    if p in s.ready {
      if !s.policy.Mlfq? {
        RemovePidKeeps(s.ready, pid, p);
      }
    } else if s.policy.Mlfq? {
      if p in s.q0 {
        RemovePidKeeps(s.q0, pid, p);
      } else if p in s.q1 {
        RemovePidKeeps(s.q1, pid, p);
      } else {
        RemovePidKeeps(s.q2, pid, p);
      }
    }
  }

  lemma AddFields(w: World, pid: nat, p: Pcb, onCpu: bool) returns (p': Pcb)
    requires OnePlace(w) && Holds(w, p, onCpu)
    ensures Holds(AddPid(w, pid), p', onCpu) && SameProcess(p, p')
    ensures p'.blockReason == p.blockReason
    ensures if p.pid == pid && pid in w.away then AdmittedAt(w.sys.policy, w.sys.now, p, p') else p' == p
  {
    p' := p;
    HoldsUnique(w, p, onCpu);
    if pid in w.away {
      var x := Admitted(w.sys, w.away[pid]);
      if p in Queued(w.sys) {
        EnqueueHolds(w.sys, x, p);
      } else if p.pid == pid {
        EnqueueHolds(w.sys, x, x);
        p' := x;
      }
    }
  }

  lemma BlockFields(w: World, pid: nat, p: Pcb, onCpu: bool) returns (p': Pcb)
    requires OnePlace(w) && Holds(w, p, onCpu) && !IsCurrent(w.sys, pid)
    ensures Holds(BlockPid(w, pid), p', onCpu)
    ensures p' == if p.pid == pid then p.(state := Blocked) else p
  {
    p' := p;
    HoldsUnique(w, p, onCpu);
    if p.pid == pid {
      CountQueued(w.sys, pid);
      FindCorrect(Queued(w.sys), pid);
      p' := p.(state := Blocked);
    } else if pid !in w.away && p in Queued(w.sys) {
      RemoveHolds(w.sys, pid, p);
    }
  }

  lemma UnblockFields(w: World, pid: nat, p: Pcb, onCpu: bool) returns (p': Pcb)
    requires OnePlace(w) && Holds(w, p, onCpu)
    ensures Holds(UnblockPid(w, pid), p', onCpu) && SameProcess(p, p')
    ensures if p.pid == pid && pid in w.away && p.state.Blocked?
            then AdmittedAt(w.sys.policy, w.sys.now, p, p') && p'.blockReason == 0 else p' == p
  {
    hide AddPid, Count, Held, Queued;
    p' := p;
    HoldsUnique(w, p, onCpu);
    if pid in w.away && w.away[pid].state.Blocked? {
      var w1 := w.(away := w.away[pid := w.away[pid].(blockReason := 0)]);
      assert forall x :: Places(w1, x) == Places(w, x);
      var q := if p.pid == pid then w1.away[pid] else p;
      p' := AddFields(w1, pid, q, onCpu);
    }
  }

  lemma KeepsWork(p: Pcb)
    ensures SameProcess(p, p) && SameWork(p, p)
    ensures SameProcess(p, Refreshed(p)) && SameWork(p, Refreshed(p)) && Refreshed(p).blockReason == p.blockReason
    ensures SameProcess(p, p.(state := Blocked)) && SameWork(p, p.(state := Blocked))
  {
  }

  lemma AwayIsBlocked(w: World, p: Pcb, onCpu: bool)
    requires OnePlace(w) && Holds(w, p, onCpu)
    ensures p.pid in w.away ==> p == w.away[p.pid] && !Schedulable(p)
    ensures !onCpu && p !in Queued(w.sys) ==> p.pid in w.away
  {
    HoldsUnique(w, p, onCpu);
  }

  lemma CallFields(w: World, e: Event, p: Pcb, onCpu: bool) returns (p': Pcb)
    requires OnePlace(w) && Holds(w, p, onCpu) && (e.Create? || e.Add? || e.Block? || e.Unblock?)
    requires e.Block? ==> !IsCurrent(w.sys, e.pid)
    ensures Holds(Next(w, e), p', onCpu) && Evolves(w, e, p, p')
  {
    hide AddPid, BlockPid, UnblockPid, SameProcess, SameWork, AdmittedAt, ChargedOnce, OnePlace, PcbOf, Known;
    p' := p;
    HoldsUnique(w, p, onCpu);
    KeepsWork(p);
    AwayIsBlocked(w, p, onCpu);
    if e.Add? {
      p' := AddFields(w, e.pid, p, onCpu);
    } else if e.Block? {
      p' := BlockFields(w, e.pid, p, onCpu);
    } else if e.Unblock? {
      p' := UnblockFields(w, e.pid, p, onCpu);
    }
  }

  lemma MoveFields(w: World, e: Event, p: Pcb, onCpu: bool) returns (p': Pcb, onCpu': bool)
    requires OnePlace(w) && Holds(w, p, onCpu) && (e.BoostAll? || e.ChangePolicy? || e.Timer?)
    ensures Holds(Next(w, e), p', onCpu') && Evolves(w, e, p, p')
  {
    hide TimerTick, Boost, SetPolicy, SameProcess, SameWork, AdmittedAt, ChargedOnce, PcbOf, Known;
    p', onCpu' := p, onCpu;
    HoldsUnique(w, p, onCpu);
    KeepsWork(p);
    if HeldAs(w.sys, p, onCpu) {
      if e.BoostAll? {
        p' := BoostFields(w.sys, p, onCpu);
      } else if e.ChangePolicy? {
        p' := SetPolicyFields(w.sys, e.policy, p, onCpu);
      } else {
        p', onCpu' := TimerFields(w.sys, p, onCpu);
      }
    }
  }

  lemma EventFields(w: World, e: Event, p: Pcb, onCpu: bool) returns (p': Pcb, onCpu': bool)
    requires OnePlace(w) && Holds(w, p, onCpu)
    requires e.Block? ==> !IsCurrent(w.sys, e.pid)
    ensures Holds(Next(w, e), p', onCpu') && Evolves(w, e, p, p')
  {
    hide Next, OnePlace, Holds, Evolves;
    if e.BoostAll? || e.ChangePolicy? || e.Timer? {
      p', onCpu' := MoveFields(w, e, p, onCpu);
    } else {
      onCpu' := onCpu;
      p' := CallFields(w, e, p, onCpu);
    }
  }

  lemma EvolvesSamePid(w: World, e: Event, p: Pcb, p': Pcb)
    requires Evolves(w, e, p, p')
    ensures p'.pid == p.pid
  {
  }

  /** One event changes the identity of a process never, and what it has done and still has to do only by
      charging it a tick or admitting it. An admission keeps the work done: it fills in an estimate of 0,
      which becomes 50, and a remaining time of 0, which becomes the estimate. */
  lemma NextEvolves(w: World, e: Event, pid: nat)
    requires OnePlace(w) && Known(w, pid) && (e.Block? ==> !IsCurrent(w.sys, e.pid))
    ensures OnePlace(Next(w, e)) && Known(Next(w, e), pid)
    ensures Evolves(w, e, PcbOf(w, pid), PcbOf(Next(w, e), pid))
  {
    hide Next, OnePlace, Holds, Known, PcbOf, Evolves;
    NextKeepsOnePlace(w, e);
    PcbOfHeld(w, pid);
    var p', onCpu' := EventFields(w, e, PcbOf(w, pid), IsCurrent(w.sys, pid));
    EvolvesSamePid(w, e, PcbOf(w, pid), p');
    HoldsUnique(Next(w, e), p', onCpu');
  }

  // ---------------------------------------------------------------------------------------------
  // Over runs
  // ---------------------------------------------------------------------------------------------

  /** The ticks of the run that find this process on the CPU. */
  function CpuTicks(w: World, es: seq<Event>, pid: nat): nat
    decreases |es|
  {
    if es == [] then 0
    else (if es[0].Timer? && IsCurrent(w.sys, pid) then 1 else 0) + CpuTicks(Next(w, es[0]), es[1..], pid)
  }

  /** Those of them that come under SRTF. */
  function SrtfTicks(w: World, es: seq<Event>, pid: nat): nat
    decreases |es|
  {
    if es == [] then 0
    else
      (if es[0].Timer? && IsCurrent(w.sys, pid) && w.sys.policy.Srtf? then 1 else 0)
      + SrtfTicks(Next(w, es[0]), es[1..], pid)
  }

  /** An estimate, once it is not 0, stays. */
  predicate EstimateKept(p: Pcb, p': Pcb) {
    p'.burstTime == p.burstTime || (p.burstTime == 0 && p'.burstTime == 50)
  }

  /** Over any run, whatever is created, added, blocked, unblocked, boosted or changed: a process keeps its
      name and priority and is charged exactly the ticks it is on the CPU for; and as long as its remaining
      time does not reach 0 it goes down by exactly the ticks under SRTF. */
  lemma {:induction false} RunCharges(w: World, es: seq<Event>, pid: nat)
    requires OnePlace(w) && SparesCurrent(w, es) && Known(w, pid)
    ensures OnePlace(Run(w, es)) && Known(Run(w, es), pid)
    ensures var p, p' := PcbOf(w, pid), PcbOf(Run(w, es), pid);
      && SameProcess(p, p') && EstimateKept(p, p')
      && p'.totalTicks == p.totalTicks + CpuTicks(w, es, pid)
      && (SrtfTicks(w, es, pid) < p.remainingTime ==> p'.remainingTime == p.remainingTime - SrtfTicks(w, es, pid))
    decreases |es|
  {
    hide OnePlace, Known, PcbOf, Next, IsAdmission;
    if es != [] {
      PcbOfHeld(w, pid);
      NextEvolves(w, es[0], pid);
      RunCharges(Next(w, es[0]), es[1..], pid);
    }
  }

  /** A re-admission keeps the remaining time if and only if it is not 0. */
  lemma ReadmissionKeepsWorkIff(w: World, pid: nat)
    requires OnePlace(w) && pid in w.away && w.away[pid].state.Blocked?
    ensures Known(w, pid) && Known(Next(w, Unblock(pid)), pid)
    ensures PcbOf(Next(w, Unblock(pid)), pid).remainingTime == w.away[pid].remainingTime
            <==> w.away[pid].remainingTime > 0
  {
    hide Next, OnePlace;
    PcbOfHeld(w, pid);
    NextEvolves(w, Unblock(pid), pid);
  }

  /** A process as process_create and the shell leave it. */
  lemma CreationFills(w: World, pid: nat, name: string, priority: nat, burst: nat, remaining: nat)
    requires OnePlace(w) && !Known(w, pid)
    ensures var w' := Next(w, Create(pid, name, priority, burst, remaining));
      Known(w', pid) && var p := PcbOf(w', pid);
      && p.pid == pid && p.name == name && p.state == New && p.priority <= 31
      && (priority <= 31 ==> p.priority == priority) && p.totalTicks == 0 && p.startTick == w.sys.now
      && p.burstTime == burst && p.remainingTime == remaining && p.level == 0 && p.allotment == 30
      && p.timeSlice == p.remainingSlice == 10
  {
  }

  /** The process was created in the run, with this name, this priority up to 31, and this estimate. */
  predicate CreatedAs(es: seq<Event>, p: Pcb) {
    exists i :: 0 <= i < |es| && es[i].Create? && es[i].pid == p.pid && es[i].name == p.name
      && p.priority == (if es[i].priority > 31 then 31 else es[i].priority)
      && (p.burstTime == es[i].burst || (es[i].burst == 0 && p.burstTime == 50))
  }

  lemma CreatedLater(es: seq<Event>, p: Pcb)
    requires es != [] && CreatedAs(es[1..], p)
    ensures CreatedAs(es, p)
  {
    var i :| 0 <= i < |es[1..]| && es[1..][i].Create? && es[1..][i].pid == p.pid && es[1..][i].name == p.name
      && p.priority == (if es[1..][i].priority > 31 then 31 else es[1..][i].priority)
      && (p.burstTime == es[1..][i].burst || (es[1..][i].burst == 0 && p.burstTime == 50));
    assert es[i + 1] == es[1..][i];
  }

  lemma CreatedFirst(w: World, es: seq<Event>, pid: nat, p: Pcb)
    requires OnePlace(w) && es != [] && !Known(w, pid) && Known(Next(w, es[0]), pid)
    requires es[0].Block? ==> !IsCurrent(w.sys, es[0].pid)
    requires SameProcess(PcbOf(Next(w, es[0]), pid), p) && EstimateKept(PcbOf(Next(w, es[0]), pid), p)
    ensures CreatedAs(es, p)
  {
    hide Step;
    NextKeepsOnePlace(w, es[0]);
    assert Places(Next(w, es[0]), pid) != Places(w, pid);
    assert es[0].Create? && es[0].pid == pid;
  }

  /** Every process that a run brings up was created in it, and is what its creation says. */
  lemma {:induction false} RunCreates(w: World, es: seq<Event>, pid: nat)
    requires OnePlace(w) && SparesCurrent(w, es) && !Known(w, pid) && Known(Run(w, es), pid)
    ensures CreatedAs(es, PcbOf(Run(w, es), pid))
    decreases |es|
  {
    hide OnePlace, Known, PcbOf, Next, CreatedAs;
    if es != [] {
      var w' := Next(w, es[0]);
      NextKeepsOnePlace(w, es[0]);
      if Known(w', pid) {
        RunCharges(w', es[1..], pid);
        CreatedFirst(w, es, pid, PcbOf(Run(w, es), pid));
      } else {
        RunCreates(w', es[1..], pid);
        CreatedLater(es, PcbOf(Run(w, es), pid));
      }
    }
  }

  lemma NobodyKnown(policy: Policy, now: nat, pid: nat)
    ensures !Known(Start(policy, now), pid) && OnePlace(Start(policy, now))
  {
  }

  /** In every state reachable from scheduler_init. */
  lemma ReachableCreated(policy: Policy, now: nat, es: seq<Event>, pid: nat)
    requires SparesCurrent(Start(policy, now), es) && Known(Run(Start(policy, now), es), pid)
    ensures CreatedAs(es, PcbOf(Run(Start(policy, now), es), pid))
  {
    hide Known, PcbOf, Run, CreatedAs;
    NobodyKnown(policy, now, pid);
    RunCreates(Start(policy, now), es, pid);
  }

  // ---------------------------------------------------------------------------------------------
  // Names in the journal
  // ---------------------------------------------------------------------------------------------

  /** What the 16 bytes of a journal entry hold of a name. */
  function FirstFifteen(name: string): string {
    if |name| <= 15 then name else name[..15]
  }

  /** Each entry names the process with its pid. */
  predicate NamesRight(w: World) {
    forall i :: 0 <= i < |w.sys.log| ==>
      Known(w, w.sys.log[i].pid) && w.sys.log[i].name == FirstFifteen(PcbOf(w, w.sys.log[i].pid).name)
  }

  /** A tick logs nothing, or one entry for the process that was on the CPU. */
  lemma TimerLogs(s: Sys)
    ensures var log, log' := s.log, TimerTick(s).log;
      log' == log ||
      (s.cur.Some? && exists e ::
        log' == log + [e] && e.pid == s.cur.value.pid && e.name == FirstFifteen(s.cur.value.name))
  {
    hide Switch, Select, RefreshAll;
    var b := BoostIfDue(s.(now := s.now + 1));
    SelectFrame(b);
    if s.cur.Some? {
      SwitchLogs(b, Demoted(s.policy, Charged(s.policy, s.cur.value)));
    }
  }

  lemma OthersLogNothing(w: World, e: Event)
    requires !e.Timer?
    ensures Next(w, e).sys.log == w.sys.log
  {
  }

  lemma TimerIsTick(w: World)
    ensures Next(w, Timer) == w.(sys := TimerTick(w.sys))
  {
  }

  lemma CurrentKnown(w: World)
    requires OnePlace(w) && w.sys.cur.Some?
    ensures Known(w, w.sys.cur.value.pid) && PcbOf(w, w.sys.cur.value.pid) == w.sys.cur.value
  {
    HoldsUnique(w, w.sys.cur.value, true);
  }

  lemma NextNamesRight(w: World, e: Event)
    requires OnePlace(w) && NamesRight(w) && (e.Block? ==> !IsCurrent(w.sys, e.pid))
    ensures NamesRight(Next(w, e))
  {
    hide OnePlace, Next, Known, PcbOf, FirstFifteen, TimerTick;
    var log, log' := w.sys.log, Next(w, e).sys.log;
    if e.Timer? {
      TimerLogs(w.sys);
      assert Next(w, e).sys == TimerTick(w.sys) by { TimerIsTick(w); }
    } else {
      OthersLogNothing(w, e);
    }
    if w.sys.cur.Some? {
      CurrentKnown(w);
    }
    forall i | 0 <= i < |log'|
      ensures Known(Next(w, e), log'[i].pid)
      ensures log'[i].name == FirstFifteen(PcbOf(Next(w, e), log'[i].pid).name)
    {
      NextEvolves(w, e, log'[i].pid);
    }
  }

  lemma {:induction false} RunNamesRight(w: World, es: seq<Event>)
    requires OnePlace(w) && NamesRight(w) && SparesCurrent(w, es)
    ensures NamesRight(Run(w, es))
    decreases |es|
  {
    hide OnePlace, NamesRight, Next;
    if es != [] {
      NextKeepsOnePlace(w, es[0]);
      NextNamesRight(w, es[0]);
      RunNamesRight(Next(w, es[0]), es[1..]);
    }
  }

  /** In every state reachable from scheduler_init each journal entry has the first 15 characters of the name
      under which the process with its pid was created. */
  lemma ReachableNamesRight(policy: Policy, now: nat, es: seq<Event>)
    requires SparesCurrent(Start(policy, now), es)
    ensures NamesRight(Run(Start(policy, now), es))
  {
    NobodyKnown(policy, now, 0);
    RunNamesRight(Start(policy, now), es);
  }

  // ---------------------------------------------------------------------------------------------
  // A process that has used up its remaining time
  // ---------------------------------------------------------------------------------------------

  /** A process of one tick under SRTF, charged once; then PRIORITY, and a process of a higher one. */
  const SPENT: seq<Event> := [Create(1, "a", 0, 1, 1), Add(1), Timer]

  const DISPLACED: seq<Event> := [Create(2, "b", 1, 10, 10), Add(2), Timer]

  function SpentRun(): World {
    Run(Next(Next(Run(Start(Srtf, 0), SPENT), Timer), ChangePolicy(Priority)), DISPLACED)
  }

  lemma SpentStarts()
    ensures var w := Run(Start(Srtf, 0), SPENT); var p := Joined(1, "a", 0, 1, 0);
      w == World(Init(Srtf, 0).(now := 1, cur := Some(p.(state := Running, startTick := 1))), map[])
  {
    var w0 := Start(Srtf, 0);
    RunThree(w0, SPENT[0], SPENT[1], SPENT[2]);
    ArrivalJoins(w0, 1, "a", 0, 1);
    ChoiceOfOne(Srtf, [Joined(1, "a", 0, 1, 0)]);
  }

  lemma SpentIsCharged()
    ensures var w := Next(Next(Run(Start(Srtf, 0), SPENT), Timer), ChangePolicy(Priority));
      && w.away == map[] && w.sys == Init(Priority, 2).(cur := w.sys.cur) && w.sys.cur.Some?
      && var c := w.sys.cur.value;
      && c.pid == 1 && c.priority == 0 && c.remainingTime == 0 && c.burstTime == 1 && c.totalTicks == 1
  {
    SpentStarts();
  }

  /** The spent process is back in the queue. */
  lemma SpentIsDisplaced()
    ensures var w := SpentRun();
      && w.away == map[] && w.sys.policy.Priority? && |w.sys.ready| == 1 && IsCurrent(w.sys, 2)
      && w.sys.q0 == [] && w.sys.q1 == [] && w.sys.q2 == []
      && var c := w.sys.ready[0]; c.pid == 1 && c.remainingTime == 0 && c.burstTime == 1
  {
    SpentIsCharged();
    var w := Next(Next(Run(Start(Srtf, 0), SPENT), Timer), ChangePolicy(Priority));
    RunThree(w, DISPLACED[0], DISPLACED[1], DISPLACED[2]);
    ArrivalJoins(w, 2, "b", 1, 10);
    var b, c := Joined(2, "b", 1, 10, 2), Requeued(Priority, Charged(Priority, w.sys.cur.value));
    ChoiceOfOne(Priority, [b]);
    ChoiceUnique(Priority, [b, c], 0, Choice(Priority, [b, c]));
    assert [b] + [c] == [b, c] && Without([b, c], 0) == [c];
  }

  /** From scheduler_init: a process that has used up its one tick under SRTF is blocked and unblocked, and
      has its whole estimate before it again. */
  lemma SpentStartsAgain()
    ensures var w := Next(Next(SpentRun(), Block(1)), Unblock(1));
      && |w.sys.ready| == 1 && w.sys.ready[0].pid == 1 && w.sys.ready[0].remainingTime == 1
  {
    hide SpentRun;
    SpentIsDisplaced();
    var q := SpentRun().sys.ready;
    assert Queued(SpentRun().sys) == q && q[1..] == [];
  }
}
