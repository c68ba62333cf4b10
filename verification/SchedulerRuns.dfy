/** Whole runs of the scheduler: every process is in one place, whatever the events. */
module SchedulerRuns {
  import opened Words
  import opened Wrappers
  import opened Processes
  import opened SchedulerModel

  /** The scheduler and the processes that it does not hold: new, blocked or terminated. */
  datatype World = World(sys: Sys, away: map<nat, Pcb>)

  datatype Event =
    | Create(pid: nat, name: string, priority: nat, burst: nat, remaining: nat)
    | Add(pid: nat)
    | Block(pid: nat)
    | Unblock(pid: nat)
    | BoostAll
    | ChangePolicy(policy: Policy)
    | Timer

  const PRIORITY_MAX: nat := 31

  function Find(q: seq<Pcb>, pid: nat): Option<Pcb> {
    if q == [] then None else if q[0].pid == pid then Some(q[0]) else Find(q[1..], pid)
  }

  predicate IsCurrent(s: Sys, pid: nat) {
    s.cur.Some? && s.cur.value.pid == pid
  }

  predicate IsQueued(s: Sys, pid: nat) {
    Count(Queued(s), pid) > 0
  }

  /** In how many places the scheduler holds a process. */
  function Held(s: Sys, pid: nat): nat {
    Count(s.ready, pid) + Count(s.q0, pid) + Count(s.q1, pid) + Count(s.q2, pid)
    + (if IsCurrent(s, pid) then 1 else 0)
  }

  function Places(w: World, pid: nat): nat {
    Held(w.sys, pid) + (if pid in w.away then 1 else 0)
  }

  /** process_create, followed by the shell's assignment of burst_time and remaining_time. */
  function NewProcess(s: Sys, e: Event): Pcb
    requires e.Create?
  {
    Pcb(e.pid, e.name, New, if e.priority > PRIORITY_MAX then PRIORITY_MAX else e.priority, 0, s.now,
        DEFAULT_SLICE, DEFAULT_SLICE, e.burst, e.remaining, 0, 0, FULL_ALLOTMENT, 0)
  }

  function BlockPid(w: World, pid: nat): World {
    if pid in w.away then w.(away := w.away[pid := w.away[pid].(state := Blocked)])
    else if IsCurrent(w.sys, pid) then
      w.(sys := RemoveProcess(w.sys, pid).(cur := Some(w.sys.cur.value.(state := Blocked))))
    else
      var p := Find(Queued(w.sys), pid);
      if p.None? then w
      else World(RemoveProcess(w.sys, pid), w.away[pid := p.value.(state := Blocked)])
  }

  /** scheduler_add_process. A process that is READY or RUNNING already is left alone; a current process
      that was blocked is queued although it stays current. */
  function AddPid(w: World, pid: nat): World {
    if pid in w.away then
      if Schedulable(w.away[pid]) then w else World(AddProcess(w.sys, w.away[pid]), w.away - {pid})
    else if IsCurrent(w.sys, pid) then w.(sys := AddProcess(w.sys, w.sys.cur.value))
    else w
  }

  function UnblockPid(w: World, pid: nat): World {
    if pid in w.away && w.away[pid].state.Blocked? then
      AddPid(w.(away := w.away[pid := w.away[pid].(blockReason := 0)]), pid)
    else if IsCurrent(w.sys, pid) && w.sys.cur.value.state.Blocked? then
      AddPid(w.(sys := w.sys.(cur := Some(w.sys.cur.value.(blockReason := 0)))), pid)
    else w
  }

  function Next(w: World, e: Event): World {
    match e
    case Create(pid, _, _, _, _) =>
      if Places(w, pid) > 0 then w else w.(away := w.away[pid := NewProcess(w.sys, e)])
    case Add(pid) => AddPid(w, pid)
    case Block(pid) => BlockPid(w, pid)
    case Unblock(pid) => UnblockPid(w, pid)
    case BoostAll => w.(sys := Boost(w.sys))
    case ChangePolicy(policy) => w.(sys := SetPolicy(w.sys, policy))
    case Timer => w.(sys := TimerTick(w.sys))
  }

  function Run(w: World, es: seq<Event>): World
    decreases |es|
  {
    if es == [] then w else Run(Next(w, es[0]), es[1..])
  }

  function Start(policy: Policy, now: nat): World {
    World(Init(policy, now), map[])
  }

  // ---------------------------------------------------------------------------------------------
  // The invariant
  // ---------------------------------------------------------------------------------------------

  predicate AllReady(q: seq<Pcb>) {
    forall i :: 0 <= i < |q| ==> q[i].state.Ready?
  }

  /** Queued means READY, current means RUNNING, and only the policy's own queues are in use. */
  predicate Disciplined(s: Sys) {
    && AllReady(s.ready) && AllReady(s.q0) && AllReady(s.q1) && AllReady(s.q2)
    && (s.cur.Some? ==> s.cur.value.state.Running?)
    && (if s.policy.Mlfq? then s.ready == [] else s.q0 == [] && s.q1 == [] && s.q2 == [])
  }

  predicate AwayOk(away: map<nat, Pcb>) {
    forall pid :: pid in away ==> away[pid].pid == pid && !Schedulable(away[pid])
  }

  ghost predicate OnePlace(w: World) {
    && Disciplined(w.sys)
    && AwayOk(w.away)
    && forall pid :: Places(w, pid) <= 1
  }

  // ---------------------------------------------------------------------------------------------
  // What each step does to the number of places of one process
  // ---------------------------------------------------------------------------------------------

  lemma SelectPlaces(s: Sys, pid: nat)
    requires Disciplined(s) && HasWaiting(s)
    ensures var sel := Select(s);
      && Disciplined(sel.rest) && sel.rest.cur == s.cur && sel.next.value.state.Ready?
      && Held(sel.rest, pid) + (if sel.next.value.pid == pid then 1 else 0) == Held(s, pid)
  {
    if !s.policy.Mlfq? {
      CountWithout(s.ready, Choice(s.policy, s.ready), pid);
    }
  }

  lemma EnqueuePlaces(s: Sys, p: Pcb, pid: nat)
    requires Disciplined(s) && p.state.Ready?
    ensures Disciplined(Enqueue(s, p)) && Enqueue(s, p).cur == s.cur
    ensures Held(Enqueue(s, p), pid) == Held(s, pid) + (if p.pid == pid then 1 else 0)
  {
    if !s.policy.Mlfq? {
      CountAppend(s.ready, p, pid);
    } else if p.level == 0 {
      CountAppend(s.q0, p, pid);
    } else if p.level == 1 {
      CountAppend(s.q1, p, pid);
    } else {
      CountAppend(s.q2, p, pid);
    }
  }

  lemma SwitchPlaces(s: Sys, c: Pcb, pid: nat)
    requires Disciplined(s) && HasWaiting(s) && s.cur.Some? && c.pid == s.cur.value.pid
    ensures Disciplined(Switch(s, c)) && Held(Switch(s, c), pid) == Held(s, pid)
  {
    hide Select, Enqueue;
    var s1 := Vacated(s, c);
    EnqueuePlaces(s1, Requeued(s.policy, c), pid);
    SelectPlaces(Enqueue(s1, Requeued(s.policy, c)), pid);
  }

  lemma BoostPlaces(s: Sys, pid: nat)
    requires Disciplined(s)
    ensures Disciplined(Boost(s)) && Held(Boost(s), pid) == Held(s, pid)
  {
    CountConcat(s.q0 + RefreshAll(s.q1), RefreshAll(s.q2), pid);
    CountConcat(s.q0, RefreshAll(s.q1), pid);
    CountSamePids(s.q1, RefreshAll(s.q1), pid);
    CountSamePids(s.q2, RefreshAll(s.q2), pid);
  }

  lemma StepPlaces(s: Sys, pid: nat)
    requires Disciplined(s)
    ensures Disciplined(Step(s)) && Held(Step(s), pid) == Held(s, pid)
  {
    hide Switch, Select;
    if s.cur.None? {
      if HasWaiting(s) {
        SelectPlaces(s, pid);
      }
    } else if HasWaiting(s) {
      SwitchPlaces(s, Demoted(s.policy, Charged(s.policy, s.cur.value)), pid);
    }
  }

  lemma TimerPlaces(s: Sys, pid: nat)
    requires Disciplined(s)
    ensures Disciplined(TimerTick(s)) && Held(TimerTick(s), pid) == Held(s, pid)
  {
    hide Step;
    var s0 := s.(now := s.now + 1);
    BoostPlaces(s0, pid);
    StepPlaces(BoostIfDue(s0), pid);
  }

  lemma SetPolicyPlaces(s: Sys, policy: Policy, pid: nat)
    requires Disciplined(s)
    ensures Disciplined(SetPolicy(s, policy)) && Held(SetPolicy(s, policy), pid) == Held(s, pid)
  {
    if s.policy.Mlfq? {
      CountConcat(s.ready + s.q0 + s.q1, s.q2, pid);
      CountConcat(s.ready + s.q0, s.q1, pid);
      CountConcat(s.ready, s.q0, pid);
    } else {
      CountConcat(s.q0, RefreshAll(s.ready), pid);
      CountSamePids(s.ready, RefreshAll(s.ready), pid);
    }
  }

  function Pids(q: seq<Pcb>): (pids: seq<nat>)
    ensures |pids| == |q| && forall i :: 0 <= i < |q| ==> pids[i] == q[i].pid
  {
    seq(|q|, i requires 0 <= i < |q| => q[i].pid)
  }

  lemma PidsConcat(a: seq<Pcb>, b: seq<Pcb>)
    ensures Pids(a + b) == Pids(a) + Pids(b)
  {
  }

  lemma PidsRefreshed(q: seq<Pcb>)
    ensures Pids(RefreshAll(q)) == Pids(q)
  {
  }

  lemma PidsQueued(s: Sys)
    ensures Pids(Queued(s)) == Pids(s.ready) + Pids(s.q0) + Pids(s.q1) + Pids(s.q2)
  {
    PidsConcat(s.ready + s.q0 + s.q1, s.q2);
    PidsConcat(s.ready + s.q0, s.q1);
    PidsConcat(s.ready, s.q0);
  }

  /** A boost and a change of policy move whole queues and keep the order of all queued processes,
      from the first of the highest level to the last of the lowest. */
  lemma MigrationKeepsOrder(s: Sys, policy: Policy)
    requires Disciplined(s)
    ensures Pids(Queued(SetPolicy(s, policy))) == Pids(Queued(s)) && SetPolicy(s, policy).cur == s.cur
    ensures Pids(Queued(Boost(s))) == Pids(Queued(s)) && Boost(s).cur == s.cur
  {
    hide RefreshAll, Pids;
    PidsQueued(s);
    PidsQueued(SetPolicy(s, policy));
    PidsQueued(Boost(s));
    PidsRefreshed(s.ready);
    PidsRefreshed(s.q1);
    PidsRefreshed(s.q2);
    PidsConcat(s.q0, RefreshAll(s.ready));
    PidsConcat(s.q0 + RefreshAll(s.q1), RefreshAll(s.q2));
    PidsConcat(s.q0, RefreshAll(s.q1));
    PidsConcat(s.ready + s.q0 + s.q1, s.q2);
    PidsConcat(s.ready + s.q0, s.q1);
    PidsConcat(s.ready, s.q0);
    assert Pids([]) == [];
  }

  lemma FindCorrect(q: seq<Pcb>, pid: nat)
    ensures Find(q, pid).None? <==> Count(q, pid) == 0
    ensures Find(q, pid).Some? ==> Find(q, pid).value in q && Find(q, pid).value.pid == pid
  {
  }

  lemma CountRemovePid(q: seq<Pcb>, pid: nat, other: nat)
    ensures Count(RemovePid(q, pid), other)
         == if other == pid && Count(q, pid) > 0 then Count(q, other) - 1 else Count(q, other)
  {
  }

  lemma RemovePidReady(q: seq<Pcb>, pid: nat)
    requires AllReady(q)
    ensures AllReady(RemovePid(q, pid))
  {
  }

  lemma CountQueued(s: Sys, pid: nat)
    ensures Count(Queued(s), pid) == Count(s.ready, pid) + Count(s.q0, pid) + Count(s.q1, pid) + Count(s.q2, pid)
  {
    CountConcat(s.ready, s.q0 + (s.q1 + s.q2), pid);
    CountConcat(s.q0, s.q1 + s.q2, pid);
    CountConcat(s.q1, s.q2, pid);
  }

  lemma RemoveKeepsDiscipline(s: Sys, pid: nat)
    requires Disciplined(s)
    ensures Disciplined(RemoveProcess(s, pid)) && RemoveProcess(s, pid).cur == s.cur
  {
    RemovePidReady(s.ready, pid);
    RemovePidReady(s.q0, pid);
    RemovePidReady(s.q1, pid);
    RemovePidReady(s.q2, pid);
  }

  lemma RemovePlaces(s: Sys, pid: nat, other: nat)
    requires Disciplined(s) && Held(s, pid) <= 1
    ensures Disciplined(RemoveProcess(s, pid)) && RemoveProcess(s, pid).cur == s.cur
    ensures Held(RemoveProcess(s, pid), other)
         == if other == pid && IsQueued(s, pid) then Held(s, other) - 1 else Held(s, other)
  {
    CountQueued(s, pid);
    CountRemovePid(s.ready, pid, other);
    CountRemovePid(s.q0, pid, other);
    CountRemovePid(s.q1, pid, other);
    CountRemovePid(s.q2, pid, other);
    RemoveKeepsDiscipline(s, pid);
  }

  // ---------------------------------------------------------------------------------------------
  // The invariant over steps and runs
  // ---------------------------------------------------------------------------------------------

  lemma AddKeepsOnePlace(w: World, pid: nat)
    requires OnePlace(w)
    ensures OnePlace(AddPid(w, pid))
    ensures forall other :: Places(AddPid(w, pid), other) == Places(w, other)
  {
    if pid in w.away {
      var p := Admitted(w.sys, w.away[pid]);
      forall other ensures Places(AddPid(w, pid), other) == Places(w, other) {
        EnqueuePlaces(w.sys, p, other);
      }
      EnqueuePlaces(w.sys, p, pid);
    }
  }

  lemma BlockCurrent(w: World, pid: nat, other: nat)
    requires OnePlace(w) && IsCurrent(w.sys, pid)
    ensures !OnePlace(BlockPid(w, pid)) && Places(BlockPid(w, pid), other) == Places(w, other)
  {
    assert Places(w, pid) <= 1;
    CountQueued(w.sys, pid);
    RemovePlaces(w.sys, pid, other);
  }

  lemma BlockQueued(w: World, pid: nat, other: nat)
    requires OnePlace(w) && pid !in w.away && !IsCurrent(w.sys, pid)
    ensures Disciplined(BlockPid(w, pid).sys) && AwayOk(BlockPid(w, pid).away)
    ensures Places(BlockPid(w, pid), other) == Places(w, other)
  {
    assert Places(w, pid) <= 1;
    FindCorrect(Queued(w.sys), pid);
    RemovePlaces(w.sys, pid, other);
  }

  /** Blocking keeps the invariant exactly when its target is not the process on the CPU:
      scheduler_block_process never clears current_process. */
  lemma BlockKeepsOnePlaceIff(w: World, pid: nat)
    requires OnePlace(w)
    ensures OnePlace(BlockPid(w, pid)) <==> !IsCurrent(w.sys, pid)
    ensures forall other :: Places(BlockPid(w, pid), other) == Places(w, other)
  {
    assert Places(w, pid) <= 1;
    forall other ensures Places(BlockPid(w, pid), other) == Places(w, other) {
      if IsCurrent(w.sys, pid) {
        BlockCurrent(w, pid, other);
      } else if pid !in w.away {
        BlockQueued(w, pid, other);
      }
    }
    if IsCurrent(w.sys, pid) {
      BlockCurrent(w, pid, pid);
    } else if pid !in w.away {
      BlockQueued(w, pid, pid);
    }
  }

  lemma NextKeepsOnePlace(w: World, e: Event)
    requires OnePlace(w)
    requires e.Block? ==> !IsCurrent(w.sys, e.pid)
    ensures OnePlace(Next(w, e))
    ensures !e.Create? ==> forall pid :: Places(Next(w, e), pid) == Places(w, pid)
    ensures e.Create? ==> forall pid ::
      Places(Next(w, e), pid) == if pid == e.pid then 1 else Places(w, pid)
  {
    hide Step, Boost, SetPolicy, AddProcess, RemoveProcess;
    match e
    case Create(pid, _, _, _, _) =>
      assert forall other :: Places(Next(w, e), other) == if other == pid then 1 else Places(w, other);
    case Add(pid) => AddKeepsOnePlace(w, pid);
    case Block(pid) => BlockKeepsOnePlaceIff(w, pid);
    case Unblock(pid) =>
      if pid in w.away && w.away[pid].state.Blocked? {
        var w1 := w.(away := w.away[pid := w.away[pid].(blockReason := 0)]);
        assert forall other :: Places(w1, other) == Places(w, other);
        AddKeepsOnePlace(w1, pid);
      }
    case BoostAll =>
      forall pid ensures Places(Next(w, e), pid) == Places(w, pid) { BoostPlaces(w.sys, pid); }
      BoostPlaces(w.sys, 0);
    case ChangePolicy(policy) =>
      forall pid ensures Places(Next(w, e), pid) == Places(w, pid) { SetPolicyPlaces(w.sys, policy, pid); }
      SetPolicyPlaces(w.sys, policy, 0);
    case Timer =>
      forall pid ensures Places(Next(w, e), pid) == Places(w, pid) { TimerPlaces(w.sys, pid); }
      TimerPlaces(w.sys, 0);
  }

  /** No event of the run blocks the process that is on the CPU when it happens. */
  predicate SparesCurrent(w: World, es: seq<Event>)
    decreases |es|
  {
    es == [] || (!(es[0].Block? && IsCurrent(w.sys, es[0].pid)) && SparesCurrent(Next(w, es[0]), es[1..]))
  }

  /** The pids created in the run or known before it. */
  predicate Created(w: World, es: seq<Event>, pid: nat) {
    Places(w, pid) > 0 || exists i :: 0 <= i < |es| && es[i].Create? && es[i].pid == pid
  }

  /** Over any run of events, every process that exists is in exactly one place, and no other is. */
  lemma {:induction false} RunKeepsOnePlace(w: World, es: seq<Event>)
    requires OnePlace(w) && SparesCurrent(w, es)
    ensures OnePlace(Run(w, es))
    ensures forall pid :: Places(Run(w, es), pid) == if Created(w, es, pid) then 1 else 0
    decreases |es|
  {
    if es != [] {
      NextKeepsOnePlace(w, es[0]);
      RunKeepsOnePlace(Next(w, es[0]), es[1..]);
      forall pid ensures Created(w, es, pid) == Created(Next(w, es[0]), es[1..], pid) {
        assert es[0].Create? && es[0].pid == pid ==> Created(w, es, pid);
        assert es == [es[0]] + es[1..];
        if exists i :: 0 <= i < |es| && es[i].Create? && es[i].pid == pid {
          var i :| 0 <= i < |es| && es[i].Create? && es[i].pid == pid;
          if i > 0 {
            assert es[1..][i - 1] == es[i];
          }
        }
      }
    }
  }

  lemma RunTwo(w: World, a: Event, b: Event)
    ensures Run(w, [a, b]) == Next(Next(w, a), b)
  {
    assert [a, b][1..] == [b] && [b][1..] == [];
    assert Run(Next(w, a), [b]) == Run(Next(Next(w, a), b), []);
  }

  /** Unblocking the process on the CPU queues it although it stays current. */
  lemma UnblockCurrent(w: World, pid: nat)
    requires IsCurrent(w.sys, pid) && w.sys.cur.value.state.Blocked? && pid !in w.away
    ensures Places(UnblockPid(w, pid), pid) == Places(w, pid) + 1
  {
    hide Count;
    var c := w.sys.cur.value.(blockReason := 0);
    var a := Admitted(w.sys, c);
    CountAppend(w.sys.ready, a, pid);
    CountAppend(w.sys.q0, a, pid);
  }

  /** The run that breaks it: a process blocked while on the CPU and then unblocked is current and
      queued at once. */
  lemma BlockingCurrentDuplicates(w: World, pid: nat)
    requires OnePlace(w) && IsCurrent(w.sys, pid)
    ensures Places(Run(w, [Block(pid), Unblock(pid)]), pid) == 2
    ensures !OnePlace(Run(w, [Block(pid), Unblock(pid)]))
  {
    hide Count, RemoveProcess, Run;
    assert Places(w, pid) <= 1;
    BlockKeepsOnePlaceIff(w, pid);
    UnblockCurrent(Next(w, Block(pid)), pid);
    RunTwo(w, Block(pid), Unblock(pid));
    assert Places(Run(w, [Block(pid), Unblock(pid)]), pid) == 2;
  }

  /** In every state reachable from scheduler_init. */
  lemma ReachableOnePlace(policy: Policy, now: nat, es: seq<Event>)
    requires SparesCurrent(Start(policy, now), es)
    ensures OnePlace(Run(Start(policy, now), es))
    ensures forall pid ::
      Places(Run(Start(policy, now), es), pid) == if Created(Start(policy, now), es, pid) then 1 else 0
  {
    RunKeepsOnePlace(Start(policy, now), es);
  }

  // ---------------------------------------------------------------------------------------------
  // Concrete runs
  // ---------------------------------------------------------------------------------------------

  lemma {:induction false} NoBlockSpares(w: World, es: seq<Event>)
    requires forall e :: e in es ==> !e.Block?
    ensures SparesCurrent(w, es)
    decreases |es|
  {
    if es != [] {
      assert es[0] in es;
      NoBlockSpares(Next(w, es[0]), es[1..]);
    }
  }

  lemma RunThree(w: World, a: Event, b: Event, c: Event)
    ensures Run(w, [a, b, c]) == Next(Next(Next(w, a), b), c)
  {
    assert [a, b, c][1..] == [b, c];
    RunTwo(Next(w, a), b, c);
  }

  /** A process of 50 ticks created, added and started. */
  const FIRST: seq<Event> := [Create(1, "a", 0, 50, 50), Add(1), Timer]

  /** The PCB of that process when it starts. */
  function FirstStarted(now: nat): Pcb {
    Pcb(1, "a", Running, 0, 0, now + 1, DEFAULT_SLICE, DEFAULT_SLICE, 50, 50, now % WORD, 0, FULL_ALLOTMENT, 0)
  }

  lemma FirstRuns(policy: Policy, now: nat)
    requires !policy.Mlfq?
    ensures var w := Run(Start(policy, now), FIRST);
      && w.away == map[] && w.sys == Init(policy, now).(now := now + 1, cur := Some(FirstStarted(now)))
      && OnePlace(w) && SparesCurrent(Start(policy, now), FIRST)
  {
    var w1 := Next(Start(policy, now), FIRST[0]);
    var p := NewProcess(w1.sys, FIRST[0]);
    assert w1 == World(Init(policy, now), map[1 := p]);
    var w2 := Next(w1, Add(1));
    assert w2 == World(Init(policy, now).(ready := [Admitted(w1.sys, p)]), map[]);
    ChoiceOfOne(policy, w2.sys.ready);
    RunThree(Start(policy, now), FIRST[0], FIRST[1], FIRST[2]);
    NoBlockSpares(Start(policy, now), FIRST);
    ReachableOnePlace(policy, now, FIRST);
  }

  /** A process of this many ticks, added at this time under a policy without levels. */
  function Joined(pid: nat, name: string, priority: nat, burst: nat, now: nat): Pcb {
    Pcb(pid, name, Ready, priority, 0, now, DEFAULT_SLICE, DEFAULT_SLICE, burst, burst, now % WORD, 0,
        FULL_ALLOTMENT, 0)
  }

  lemma ArrivalJoins(w: World, pid: nat, name: string, priority: nat, burst: nat)
    requires w.away == map[] && Held(w.sys, pid) == 0 && !w.sys.policy.Mlfq? && burst > 0
    requires priority <= 31
    ensures var p := Joined(pid, name, priority, burst, w.sys.now);
      Next(Next(w, Create(pid, name, priority, burst, burst)), Add(pid))
        == World(w.sys.(ready := w.sys.ready + [p]), map[])
  {
    var w1 := Next(w, Create(pid, name, priority, burst, burst));
    assert w1.away == map[pid := NewProcess(w.sys, Create(pid, name, priority, burst, burst))];
  }

  /** A reachable state that breaks: create, add, tick, block, unblock. */
  lemma DuplicateIsReachable(policy: Policy, now: nat)
    requires !policy.Mlfq?
    ensures var w := Run(Run(Start(policy, now), FIRST), [Block(1), Unblock(1)]);
      Places(w, 1) == 2 && IsCurrent(w.sys, 1) && IsQueued(w.sys, 1)
  {
    FirstRuns(policy, now);
    BlockingCurrentDuplicates(Run(Start(policy, now), FIRST), 1);
  }
}
