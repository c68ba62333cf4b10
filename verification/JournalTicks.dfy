/** What the logged intervals have to do with the ticks charged: in live runs every process is logged for
    exactly the ticks it was charged; in the batch simulator the process loaded first is logged for one
    tick less. */
module JournalTicks {
  import opened Words
  import opened Wrappers
  import opened Processes
  import opened SchedulerModel
  import opened SchedulerRuns
  import opened Journal
  import opened Simulation

  /** The ticks of a PCB if it has this pid. */
  function TicksOf(p: Pcb, pid: nat): nat {
    if p.pid == pid then p.totalTicks else 0
  }

  function TicksIn(q: seq<Pcb>, pid: nat): nat {
    if q == [] then 0 else TicksOf(q[0], pid) + TicksIn(q[1..], pid)
  }

  function QueuedTicks(s: Sys, pid: nat): nat {
    TicksIn(s.ready, pid) + TicksIn(s.q0, pid) + TicksIn(s.q1, pid) + TicksIn(s.q2, pid)
  }

  function CurrentTicks(s: Sys, pid: nat): nat {
    if s.cur.Some? then TicksOf(s.cur.value, pid) else 0
  }

  /** The ticks since the process on the CPU got it, if it has this pid. */
  function RunningTicks(s: Sys, at: nat, pid: nat): int {
    if IsCurrent(s, pid) then at - s.cur.value.startTick else 0
  }

  function LoggedOf(e: LogEntry, pid: nat): int {
    if e.pid == pid then e.end - e.start else 0
  }

  /** The lengths of the logged intervals of this process. */
  function LoggedTicks(log: seq<LogEntry>, pid: nat): int {
    if log == [] then 0 else LoggedTicks(log[..|log| - 1], pid) + LoggedOf(log[|log| - 1], pid)
  }

  lemma LoggedAppend(log: seq<LogEntry>, e: LogEntry, pid: nat)
    ensures LoggedTicks(log + [e], pid) == LoggedTicks(log, pid) + LoggedOf(e, pid)
  {
    assert (log + [e])[..|log|] == log;
  }

  /** Ticks charged to the process while it is queued or current, less those logged and those it is
      running for. */
  function Balance(s: Sys, at: nat, pid: nat): int {
    QueuedTicks(s, pid) + CurrentTicks(s, pid) - LoggedTicks(s.log, pid) - RunningTicks(s, at, pid)
  }

  // ---------------------------------------------------------------------------------------------
  // Sums over queues
  // ---------------------------------------------------------------------------------------------

  lemma TicksConcat(a: seq<Pcb>, b: seq<Pcb>, pid: nat)
    ensures TicksIn(a + b, pid) == TicksIn(a, pid) + TicksIn(b, pid)
  {
    if a == [] {
      assert a + b == b;
    } else {
      assert (a + b)[1..] == a[1..] + b;
      TicksConcat(a[1..], b, pid);
    }
  }

  lemma TicksAppend(q: seq<Pcb>, p: Pcb, pid: nat)
    ensures TicksIn(q + [p], pid) == TicksIn(q, pid) + TicksOf(p, pid)
  {
    TicksConcat(q, [p], pid);
  }

  lemma TicksWithout(q: seq<Pcb>, k: nat, pid: nat)
    requires k < |q|
    ensures TicksIn(q, pid) == TicksIn(Without(q, k), pid) + TicksOf(q[k], pid)
  {
    assert q == q[..k] + ([q[k]] + q[k + 1..]);
    TicksConcat(q[..k], [q[k]] + q[k + 1..], pid);
    TicksConcat(q[..k], q[k + 1..], pid);
    assert ([q[k]] + q[k + 1..])[1..] == q[k + 1..];
  }

  lemma TicksRefreshed(q: seq<Pcb>, pid: nat)
    ensures TicksIn(RefreshAll(q), pid) == TicksIn(q, pid)
  {
    if q != [] {
      assert RefreshAll(q)[1..] == RefreshAll(q[1..]);
      TicksRefreshed(q[1..], pid);
    }
  }

  lemma TicksOfNone(q: seq<Pcb>, pid: nat)
    requires Count(q, pid) == 0
    ensures TicksIn(q, pid) == 0
  {
  }

  lemma {:induction false} TicksOfOne(q: seq<Pcb>, p: Pcb)
    requires p in q && Count(q, p.pid) == 1
    ensures TicksIn(q, p.pid) == p.totalTicks
  {
    if q[0].pid == p.pid {
      TicksOfNone(q[1..], p.pid);
      if q[0] != p {
        var k :| 0 < k < |q| && q[k] == p;
        CountPositive(q[1..], k - 1);
      }
    } else {
      TicksOfOne(q[1..], p);
    }
  }

  lemma TicksRemoveOther(q: seq<Pcb>, pid: nat, other: nat)
    requires other != pid
    ensures TicksIn(RemovePid(q, pid), other) == TicksIn(q, other)
  {
  }

  lemma SelectTicks(s: Sys, pid: nat)
    ensures var sel := Select(s);
      && sel.rest.cur == s.cur && sel.rest.log == s.log && sel.rest.now == s.now
      && QueuedTicks(s, pid)
         == QueuedTicks(sel.rest, pid) + if sel.next.Some? then TicksOf(sel.next.value, pid) else 0
  {
    if !s.policy.Mlfq? && |s.ready| > 0 {
      TicksWithout(s.ready, Choice(s.policy, s.ready), pid);
    }
  }

  lemma EnqueueTicks(s: Sys, p: Pcb, pid: nat)
    ensures var s' := Enqueue(s, p);
      && s'.cur == s.cur && s'.log == s.log && s'.now == s.now
      && QueuedTicks(s', pid) == QueuedTicks(s, pid) + TicksOf(p, pid)
  {
    if !s.policy.Mlfq? {
      TicksAppend(s.ready, p, pid);
    } else if p.level == 0 {
      TicksAppend(s.q0, p, pid);
    } else if p.level == 1 {
      TicksAppend(s.q1, p, pid);
    } else {
      TicksAppend(s.q2, p, pid);
    }
  }

  // ---------------------------------------------------------------------------------------------
  // Live runs
  // ---------------------------------------------------------------------------------------------

  lemma SwitchBalances(s: Sys, c: Pcb, pid: nat)
    requires s.cur.Some? && c.pid == s.cur.value.pid && c.startTick == s.cur.value.startTick
    ensures var s' := Switch(s, c);
      && s'.now == s.now && Balance(s', s.now, pid) == Balance(s.(cur := Some(c)), s.now, pid)
  {
    hide Select, Enqueue;
    var r := Requeued(s.policy, c);
    EnqueueTicks(Vacated(s, c), r, pid);
    SelectTicks(Enqueue(Vacated(s, c), r), pid);
    LoggedAppend(s.log, Entry(c, c.startTick, s.now), pid);
  }

  lemma StepBalances(s: Sys, before: nat, pid: nat)
    requires s.now == before + 1
    ensures Step(s).now == s.now && Balance(Step(s), s.now, pid) == Balance(s, before, pid)
  {
    hide Switch, Select, TicksIn, LoggedTicks, ShouldSwitch;
    if s.cur.None? {
      SelectTicks(s, pid);
    } else {
      SwitchBalances(s, Demoted(s.policy, Charged(s.policy, s.cur.value)), pid);
    }
  }

  lemma BoostBalances(s: Sys, at: nat, pid: nat)
    ensures Boost(s).now == s.now && Balance(Boost(s), at, pid) == Balance(s, at, pid)
  {
    TicksConcat(s.q0 + RefreshAll(s.q1), RefreshAll(s.q2), pid);
    TicksConcat(s.q0, RefreshAll(s.q1), pid);
    TicksRefreshed(s.q1, pid);
    TicksRefreshed(s.q2, pid);
  }

  lemma TimerBalances(s: Sys, pid: nat)
    ensures TimerTick(s).now == s.now + 1 && Balance(TimerTick(s), s.now + 1, pid) == Balance(s, s.now, pid)
  {
    hide Step, Boost;
    var s1 := s.(now := s.now + 1);
    BoostBalances(s1, s.now, pid);
    StepBalances(BoostIfDue(s1), s.now, pid);
  }

  lemma JoinedTicks(a: seq<Pcb>, b: seq<Pcb>, c: seq<Pcb>, d: seq<Pcb>, pid: nat)
    ensures TicksIn(a + b + c + d, pid) == TicksIn(a, pid) + TicksIn(b, pid) + TicksIn(c, pid) + TicksIn(d, pid)
  {
    TicksConcat(a + b + c, d, pid);
    TicksConcat(a + b, c, pid);
    TicksConcat(a, b, pid);
  }

  lemma JoinTicks(s: Sys, policy: Policy, pid: nat)
    requires s.policy.Mlfq? && !policy.Mlfq?
    ensures QueuedTicks(SetPolicy(s, policy), pid) == QueuedTicks(s, pid)
  {
    assert TicksIn([], pid) == 0;
    hide TicksIn, RefreshAll;
    JoinedTicks(s.ready, s.q0, s.q1, s.q2, pid);
  }

  lemma LiftTicks(s: Sys, policy: Policy, pid: nat)
    requires !s.policy.Mlfq? && policy.Mlfq?
    ensures QueuedTicks(SetPolicy(s, policy), pid) == QueuedTicks(s, pid)
  {
    assert TicksIn([], pid) == 0;
    hide TicksIn, RefreshAll;
    TicksConcat(s.q0, RefreshAll(s.ready), pid);
    TicksRefreshed(s.ready, pid);
  }

  lemma SetPolicyBalances(s: Sys, policy: Policy, pid: nat)
    ensures SetPolicy(s, policy).now == s.now
    ensures Balance(SetPolicy(s, policy), s.now, pid) == Balance(s, s.now, pid)
  {
    hide TicksIn, LoggedTicks, RefreshAll;
    if s.policy.Mlfq? && !policy.Mlfq? {
      JoinTicks(s, policy, pid);
    } else if !s.policy.Mlfq? && policy.Mlfq? {
      LiftTicks(s, policy, pid);
    }
  }

  /** The balance of the whole world for one process. */
  function WorldBalance(w: World, pid: nat): int {
    Balance(w.sys, w.sys.now, pid) + if pid in w.away then w.away[pid].totalTicks else 0
  }

  lemma AddBalances(w: World, p: nat, pid: nat)
    requires OnePlace(w)
    ensures WorldBalance(AddPid(w, p), pid) == WorldBalance(w, pid)
  {
    if p in w.away {
      EnqueueTicks(w.sys, Admitted(w.sys, w.away[p]), pid);
    }
  }

  lemma TicksQueued(s: Sys, pid: nat)
    ensures TicksIn(Queued(s), pid) == QueuedTicks(s, pid)
  {
    TicksConcat(s.ready, s.q0 + (s.q1 + s.q2), pid);
    TicksConcat(s.q0, s.q1 + s.q2, pid);
    TicksConcat(s.q1, s.q2, pid);
  }

  lemma QueuedOnce(w: World, p: Pcb)
    requires OnePlace(w) && p in Queued(w.sys)
    ensures QueuedTicks(w.sys, p.pid) == p.totalTicks
    ensures p.pid !in w.away && !IsCurrent(w.sys, p.pid)
  {
    assert Places(w, p.pid) <= 1;
    var q := Queued(w.sys);
    var k :| 0 <= k < |q| && q[k] == p;
    CountPositive(q, k);
    CountQueued(w.sys, p.pid);
    TicksOfOne(q, p);
    TicksQueued(w.sys, p.pid);
  }

  lemma RemoveTicksOther(s: Sys, pid: nat, other: nat)
    requires other != pid
    ensures QueuedTicks(RemoveProcess(s, pid), other) == QueuedTicks(s, other)
  {
    TicksRemoveOther(s.ready, pid, other);
    TicksRemoveOther(s.q0, pid, other);
    TicksRemoveOther(s.q1, pid, other);
    TicksRemoveOther(s.q2, pid, other);
  }

  lemma NotHeldNoTicks(s: Sys, pid: nat)
    requires Held(s, pid) == 0
    ensures QueuedTicks(s, pid) == 0
  {
    TicksOfNone(s.ready, pid);
    TicksOfNone(s.q0, pid);
    TicksOfNone(s.q1, pid);
    TicksOfNone(s.q2, pid);
  }

  lemma RemoveFrame(s: Sys, pid: nat)
    ensures var s' := RemoveProcess(s, pid); s'.log == s.log && s'.now == s.now && s'.cur == s.cur
  {
  }

  lemma BlockBalances(w: World, p: nat, pid: nat)
    requires OnePlace(w) && !IsCurrent(w.sys, p)
    ensures WorldBalance(BlockPid(w, p), pid) == WorldBalance(w, pid)
  {
    hide RemoveProcess, QueuedTicks, LoggedTicks;
    if p !in w.away {
      FindCorrect(Queued(w.sys), p);
      var found := Find(Queued(w.sys), p);
      if found.Some? {
        assert Places(w, p) <= 1;
        RemovePlaces(w.sys, p, p);
        RemoveFrame(w.sys, p);
        if pid == p {
          QueuedOnce(w, found.value);
          CountQueued(w.sys, p);
          NotHeldNoTicks(RemoveProcess(w.sys, p), p);
        } else {
          RemoveTicksOther(w.sys, p, pid);
        }
      }
    }
  }

  lemma NextBalances(w: World, e: Event, pid: nat)
    requires OnePlace(w) && (e.Block? ==> !IsCurrent(w.sys, e.pid))
    ensures WorldBalance(Next(w, e), pid) == WorldBalance(w, pid)
  {
    hide Step, Boost, SetPolicy, AddPid, BlockPid, QueuedTicks, LoggedTicks;
    match e
    case Create(p, _, _, _, _) => assert Places(w, p) == 0 ==> p !in w.away;
    case Add(p) => AddBalances(w, p, pid);
    case Block(p) => BlockBalances(w, p, pid);
    case Unblock(p) =>
      if p in w.away && w.away[p].state.Blocked? {
        var w1 := w.(away := w.away[p := w.away[p].(blockReason := 0)]);
        assert forall other :: Places(w1, other) == Places(w, other);
        AddBalances(w1, p, pid);
      }
    case BoostAll => BoostBalances(w.sys, w.sys.now, pid);
    case ChangePolicy(policy) => SetPolicyBalances(w.sys, policy, pid);
    case Timer => TimerBalances(w.sys, pid);
  }

  lemma {:induction false} RunBalances(w: World, es: seq<Event>, pid: nat)
    requires OnePlace(w) && SparesCurrent(w, es)
    ensures WorldBalance(Run(w, es), pid) == WorldBalance(w, pid)
    decreases |es|
  {
    hide OnePlace, WorldBalance, Next;
    if es != [] {
      NextKeepsOnePlace(w, es[0]);
      NextBalances(w, es[0], pid);
      RunBalances(Next(w, es[0]), es[1..], pid);
    }
  }

  lemma StartBalances(policy: Policy, now: nat, pid: nat)
    ensures WorldBalance(Start(policy, now), pid) == 0 && OnePlace(Start(policy, now))
  {
  }

  lemma NotCurrentNoTicks(s: Sys, pid: nat)
    requires !IsCurrent(s, pid)
    ensures CurrentTicks(s, pid) == 0
  {
  }

  lemma OnlyAway(w: World, pid: nat)
    requires OnePlace(w) && pid in w.away
    ensures QueuedTicks(w.sys, pid) == 0 && !IsCurrent(w.sys, pid)
  {
    assert Places(w, pid) <= 1;
    NotHeldNoTicks(w.sys, pid);
  }

  lemma OnlyCurrent(w: World, pid: nat)
    requires OnePlace(w) && IsCurrent(w.sys, pid)
    ensures QueuedTicks(w.sys, pid) == 0 && pid !in w.away
  {
    assert Places(w, pid) <= 1;
    NotHeldNoTicks(w.sys.(cur := None), pid);
  }

  /** Over any run from scheduler_init, the intervals logged for a process add up to exactly the ticks it
      was charged; for the process on the CPU, together with the time since it got it. */
  lemma LoggedIsCharged(policy: Policy, now: nat, es: seq<Event>)
    requires SparesCurrent(Start(policy, now), es)
    ensures var w := Run(Start(policy, now), es); var s := w.sys;
      && (forall p :: p in Queued(s) ==> p.totalTicks == LoggedTicks(s.log, p.pid))
      && (forall pid :: pid in w.away ==> w.away[pid].totalTicks == LoggedTicks(s.log, pid))
      && (s.cur.Some? ==> var c := s.cur.value;
           c.totalTicks == LoggedTicks(s.log, c.pid) + (s.now - c.startTick))
  {
    hide OnePlace, Run, LoggedTicks, QueuedTicks, Queued;
    ReachableOnePlace(policy, now, es);
    var w := Run(Start(policy, now), es);
    forall p | p in Queued(w.sys) ensures p.totalTicks == LoggedTicks(w.sys.log, p.pid) {
      StartBalances(policy, now, p.pid);
      RunBalances(Start(policy, now), es, p.pid);
      QueuedOnce(w, p);
      NotCurrentNoTicks(w.sys, p.pid);
    }
    forall pid | pid in w.away ensures w.away[pid].totalTicks == LoggedTicks(w.sys.log, pid) {
      StartBalances(policy, now, pid);
      RunBalances(Start(policy, now), es, pid);
      OnlyAway(w, pid);
      NotCurrentNoTicks(w.sys, pid);
    }
    if w.sys.cur.Some? {
      var pid := w.sys.cur.value.pid;
      StartBalances(policy, now, pid);
      RunBalances(Start(policy, now), es, pid);
      OnlyCurrent(w, pid);
    }
  }

  /** The sum of the logged durations of this process. */
  function LoggedDurations(log: seq<LogEntry>, pid: nat): nat {
    if log == [] then 0
    else
      var last := log[|log| - 1];
      LoggedDurations(log[..|log| - 1], pid) + if last.pid == pid then last.duration else 0
  }

  lemma {:induction false} DurationsAreLengths(log: seq<LogEntry>, pid: nat)
    requires Chained(log)
    ensures LoggedDurations(log, pid) % WORD == LoggedTicks(log, pid) % WORD
    decreases |log|
  {
    if log != [] {
      var e, init := log[|log| - 1], log[..|log| - 1];
      DurationsAreLengths(init, pid);
      if e.pid == pid {
        ModStep(LoggedDurations(init, pid), LoggedTicks(init, pid), e.end - e.start);
      }
    }
  }

  /** The durations in the journal, which are 32-bit words, add up to the ticks charged modulo 2^32. */
  lemma DurationsAreCharged(policy: Policy, now: nat, es: seq<Event>, p: Pcb)
    requires SparesCurrent(Start(policy, now), es) && p in Queued(Run(Start(policy, now), es).sys)
    ensures LoggedDurations(Run(Start(policy, now), es).sys.log, p.pid) % WORD == p.totalTicks % WORD
  {
    hide Run, LoggedTicks, LoggedDurations, Chained;
    LoggedIsCharged(policy, now, es);
    ReachableTiled(policy, now, es);
    DurationsAreLengths(Run(Start(policy, now), es).sys.log, p.pid);
  }

  // ---------------------------------------------------------------------------------------------
  // The batch simulator
  // ---------------------------------------------------------------------------------------------

  /** The ticks charged to the terminated processes with this pid. */
  function DoneTicks(done: seq<Completion>, pid: nat): nat {
    if done == [] then 0
    else
      var last := done[|done| - 1];
      DoneTicks(done[..|done| - 1], pid) + if last.pid == pid then last.charged else 0
  }

  lemma DoneAppend(done: seq<Completion>, d: Completion, pid: nat)
    ensures DoneTicks(done + [d], pid) == DoneTicks(done, pid) + if d.pid == pid then d.charged else 0
  {
    assert (done + [d])[..|done|] == done;
  }

  function SimBalance(m: Sim, pid: nat): int {
    Balance(m.sys, m.clock, pid) + DoneTicks(m.done, pid)
  }

  /** The process the simulation loads first. */
  predicate LoadsFirst(s: Sys, pid: nat) {
    HasWaiting(s) && Select(s).next.value.pid == pid
  }

  lemma SucceedBalances(s: Sys, clock: nat, pid: nat)
    requires s.cur.None?
    ensures Balance(Succeed(s, clock), clock, pid) == QueuedTicks(s, pid) - LoggedTicks(s.log, pid)
  {
    SelectTicks(s, pid);
  }

  lemma QueuesSame(s: Sys, s': Sys, pid: nat)
    requires s'.ready == s.ready && s'.q0 == s.q0 && s'.q1 == s.q1 && s'.q2 == s.q2
    ensures QueuedTicks(s', pid) == QueuedTicks(s, pid)
  {
  }

  lemma LeaveBalances(m: Sim, c: Pcb, pid: nat)
    requires m.sys.cur == Some(c)
    ensures SimBalance(Leave(m, c), pid) == SimBalance(m, pid)
  {
    hide Succeed, Enqueue, QueuedTicks, LoggedTicks, DoneTicks;
    var s := Logged(m, c);
    QueuesSame(m.sys, s, pid);
    LoggedAppend(m.sys.log, Entry(c, c.startTick, m.clock), pid);
    if c.remainingTime == 0 {
      SucceedBalances(s, m.clock, pid);
      DoneAppend(m.done, Completion(c.pid, c.totalTicks, m.clock), pid);
    } else {
      EnqueueTicks(s, Yielded(m.sys.policy, c), pid);
      SucceedBalances(Enqueue(s, Yielded(m.sys.policy, c)), m.clock, pid);
    }
  }

  lemma ExecuteBalances(m: Sim, pid: nat)
    requires m.sys.cur.Some?
    ensures SimBalance(Execute(m), pid) == SimBalance(m, pid) + if IsCurrent(m.sys, pid) then 1 else 0
  {
    hide Leave, QueuedTicks, LoggedTicks;
    var c := Worked(m.sys.policy, m.sys.cur.value);
    var m' := m.(sys := m.sys.(cur := Some(c)));
    QueuesSame(m.sys, m'.sys, pid);
    LeaveForgetsCurrent(m, m', c);
    LeaveBalances(m', c, pid);
  }

  lemma TickBalances(m: Sim, pid: nat)
    ensures SimBalance(SimTick(m), pid)
         == SimBalance(m, pid) + if m.sys.cur.None? && LoadsFirst(m.sys, pid) then 1 else 0
  {
    hide Execute, Select, TicksIn, LoggedTicks;
    var m1 := LoadIfIdle(m.(clock := m.clock + 1));
    SelectTicks(m.sys, pid);
    if m1.sys.cur.Some? {
      ExecuteBalances(m1, pid);
    }
  }

  /** An idle CPU has nothing to load. */
  predicate Settled(m: Sim) {
    m.sys.cur.None? ==> !HasWaiting(m.sys)
  }

  lemma TickSettles(m: Sim)
    ensures Settled(SimTick(m))
  {
    hide Enqueue, Succeed, Select;
    var m1 := LoadIfIdle(m.(clock := m.clock + 1));
    if m1.sys.cur.Some? {
      var c := Worked(m.sys.policy, m1.sys.cur.value);
      SucceedTiles(Logged(m1, c), m1.clock);
      SucceedTiles(Enqueue(Logged(m1, c), Yielded(m1.sys.policy, c)), m1.clock);
    }
  }

  lemma {:induction false} SettledBalances(m: Sim, ticks: nat, pid: nat)
    requires Settled(m)
    ensures SimBalance(SimRun(m, ticks), pid) == SimBalance(m, pid)
    decreases ticks
  {
    hide SimTick, SimBalance, HasWaiting;
    if ticks > 0 {
      TickSettles(m);
      TickBalances(m, pid);
      SettledBalances(SimTick(m), ticks - 1, pid);
    }
  }

  lemma BeginBalances(s: Sys, pid: nat)
    ensures SimBalance(Begin(s), pid) == QueuedTicks(s, pid)
    ensures LoadsFirst(Begin(s).sys, pid) == LoadsFirst(s, pid)
  {
  }

  lemma BeginIdle(s: Sys)
    ensures Begin(s).sys.cur.None?
  {
  }

  /** At every moment of a simulation the ticks charged to a process are those logged for it and those
      since it got the CPU; and one more for the process loaded first, whose interval starts at the end of
      the tick it is already charged for. */
  lemma SimulationLogs(s: Sys, ticks: nat, pid: nat)
    requires HasWaiting(s) && ticks > 0
    ensures var m := Simulate(s, ticks);
      QueuedTicks(m.sys, pid) + CurrentTicks(m.sys, pid) + DoneTicks(m.done, pid)
      == QueuedTicks(s, pid) + LoggedTicks(m.sys.log, pid) + RunningTicks(m.sys, m.clock, pid)
         + if LoadsFirst(s, pid) then 1 else 0
  {
    hide SimTick, QueuedTicks, LoggedTicks, Begin, LoadsFirst, RunningTicks, CurrentTicks, DoneTicks;
    BeginBalances(s, pid);
    BeginIdle(s);
    TickBalances(Begin(s), pid);
    TickSettles(Begin(s));
    SettledBalances(SimTick(Begin(s)), ticks - 1, pid);
  }

  /** When everything has ended, each process was logged for exactly the ticks the simulation charged it,
      if and only if it is not the one that was loaded first, which is logged for one tick less. */
  lemma FinishedLogs(s: Sys, ticks: nat, pid: nat)
    requires Disciplined(s) && HasWaiting(s) && ticks > 0 && ticks >= QueuedWork(s)
    ensures var m := Simulate(s, ticks); var charged := DoneTicks(m.done, pid) - QueuedTicks(s, pid);
      && (LoggedTicks(m.sys.log, pid) == charged <==> !LoadsFirst(s, pid))
      && (LoggedTicks(m.sys.log, pid) == charged - 1 <==> LoadsFirst(s, pid))
  {
    hide SimRun, LoggedTicks, DoneTicks, LoadsFirst, QueuedWork;
    SimulationLogs(s, ticks, pid);
    EverythingFinishes(s, ticks, pid, 0);
    BeginDisciplined(s, ticks);
  }

  /** From scheduler_init: one job of 3 ticks is simulated, is charged 3 ticks, and its interval is logged
      from 1 to 3 with duration 2. */
  lemma ThreeTicksLoggedAsTwo(now: nat)
    ensures var s := Run(Start(Fcfs, now), [Create(1, "a", 0, 3, 3), Add(1)]).sys; var m := Simulate(s, 3);
      m.sys.log == [LogEntry(1, "a", 1, 3, 2)] && m.done == [Completion(1, 3, 3)]
  {
    var w := Start(Fcfs, now);
    var w1 := Next(w, Create(1, "a", 0, 3, 3));
    var p := NewProcess(w.sys, Create(1, "a", 0, 3, 3));
    assert w1 == World(w.sys, map[1 := p]);
    var s := Init(Fcfs, now).(ready := [Admitted(w.sys, p)]);
    RunTwo(w, Create(1, "a", 0, 3, 3), Add(1));
    assert Run(w, [Create(1, "a", 0, 3, 3), Add(1)]) == World(s, map[]);
    ChoiceOfOne(Fcfs, s.ready);
    var m1 := SimTick(Begin(s));
    var m2 := SimTick(m1);
    var m3 := SimTick(m2);
    assert SimRun(Begin(s), 3) == SimRun(m1, 2) == SimRun(m2, 1) == SimRun(m3, 0);
  }
}
