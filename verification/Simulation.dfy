/** scheduler_simulate: the batch simulator, and what it conserves under all six policies. */
module Simulation {
  import opened Wrappers
  import opened Processes
  import opened SchedulerModel
  import opened SchedulerRuns
  import opened Journal

  /** A process that ran to its end: the ticks it was charged in its life, and when it ended. */
  datatype Completion = Completion(pid: nat, charged: nat, at: nat)

  /** The simulator between two ticks; `done` records the processes it has terminated. */
  datatype Sim = Sim(sys: Sys, clock: nat, done: seq<Completion>)

  /** The policies under which the simulator counts slices. */
  predicate Sliced(policy: Policy) {
    policy.RoundRobin? || policy.Mlfq?
  }

  function FreshSlice(policy: Policy, p: Pcb): nat {
    if policy.Mlfq? then Quantum(p.level) else DEFAULT_SLICE
  }

  /** A process loaded on an idle CPU. */
  function Loaded(policy: Policy, p: Pcb, clock: nat): Pcb {
    p.(state := Running, startTick := clock,
       remainingSlice := if p.remainingSlice == 0 && Sliced(policy) then FreshSlice(policy, p) else p.remainingSlice)
  }

  /** A process chosen after another one left the CPU. */
  function Chosen(policy: Policy, p: Pcb, clock: nat): Pcb {
    p.(state := Running, startTick := clock,
       remainingSlice := if p.remainingSlice == 0 then FreshSlice(policy, p) else p.remainingSlice)
  }

  function LoadIfIdle(m: Sim): Sim {
    if m.sys.cur.Some? then m else
      var sel := Select(m.sys);
      if sel.next.None? then m
      else m.(sys := sel.rest.(cur := Some(Loaded(m.sys.policy, sel.next.value, m.clock))))
  }

  /** One tick of work. */
  function Worked(policy: Policy, c: Pcb): Pcb {
    c.(totalTicks := c.totalTicks + 1,
       remainingSlice := if c.remainingSlice > 0 && Sliced(policy) then c.remainingSlice - 1 else c.remainingSlice,
       remainingTime := if c.remainingTime > 0 then c.remainingTime - 1 else 0)
  }

  /** The next process takes the CPU, if there is one. */
  function Succeed(s: Sys, clock: nat): Sys {
    var sel := Select(s);
    sel.rest.(cur := if sel.next.Some? then Some(Chosen(s.policy, sel.next.value, clock)) else None)
  }

  /** The switch logged, and c off the CPU. */
  function Logged(m: Sim, c: Pcb): Sys {
    m.sys.(cur := None, log := m.sys.log + [Entry(c, c.startTick, m.clock)], switches := m.sys.switches + 1)
  }

  /** c, which is not finished, as it goes back to its queue. */
  function Yielded(policy: Policy, c: Pcb): Pcb {
    c.(state := Ready, remainingSlice := FreshSlice(policy, c))
  }

  /** c leaves the CPU at the end of a tick, finished or not. */
  function Leave(m: Sim, c: Pcb): Sim {
    if c.remainingTime == 0 then
      Sim(Succeed(Logged(m, c), m.clock), m.clock, m.done + [Completion(c.pid, c.totalTicks, m.clock)])
    else
      Sim(Succeed(Enqueue(Logged(m, c), Yielded(m.sys.policy, c)), m.clock), m.clock, m.done)
  }

  /** The tick on a loaded CPU. */
  function Execute(m: Sim): Sim
    requires m.sys.cur.Some?
  {
    var c := Worked(m.sys.policy, m.sys.cur.value);
    if c.remainingTime == 0 || (Sliced(m.sys.policy) && c.remainingSlice == 0) then Leave(m, c)
    else m.(sys := m.sys.(cur := Some(c)))
  }

  /** The second half of a tick: nothing to do on an idle CPU. */
  function ExecuteIfLoaded(m: Sim): Sim {
    if m.sys.cur.None? then m else Execute(m)
  }

  function SimTick(m: Sim): Sim {
    ExecuteIfLoaded(LoadIfIdle(m.(clock := m.clock + 1)))
  }

  function SimRun(m: Sim, ticks: nat): Sim
    decreases ticks
  {
    if ticks == 0 then m else SimRun(SimTick(m), ticks - 1)
  }

  /** The simulator starts with an empty journal and an idle CPU: a process that was on it is lost. */
  function Begin(s: Sys): Sim {
    Sim(s.(cur := None, log := [], switches := 0), 0, [])
  }

  /** The whole call; with nothing to run it leaves everything as it was. */
  function Simulate(s: Sys, ticks: nat): Sim {
    if HasWaiting(s) || s.cur.Some? then SimRun(Begin(s), ticks) else Sim(s, 0, [])
  }

  lemma SimRunSplit(m: Sim, a: nat, b: nat)
    ensures SimRun(m, a + b) == SimRun(SimRun(m, a), b)
    decreases a
  {
    hide SimTick;
    if a > 0 {
      SimRunSplit(SimTick(m), a - 1, b);
    }
  }

  lemma SimRunNext(m: Sim, t: nat)
    ensures SimRun(m, t + 1) == SimTick(SimRun(m, t))
  {
    hide SimTick;
    SimRunSplit(m, t, 1);
    assert SimRun(SimRun(m, t), 1) == SimRun(SimTick(SimRun(m, t)), 0);
  }

  // ---------------------------------------------------------------------------------------------
  // One place each, also in simulation
  // ---------------------------------------------------------------------------------------------

  lemma SucceedDisciplined(s: Sys, clock: nat)
    requires Disciplined(s) && s.cur.None?
    ensures Disciplined(Succeed(s, clock))
  {
    hide Select;
    if HasWaiting(s) {
      SelectPlaces(s, 0);
    }
  }

  lemma LeaveDisciplined(m: Sim, c: Pcb)
    requires Disciplined(m.sys)
    ensures Disciplined(Leave(m, c).sys)
  {
    hide Succeed, Enqueue;
    SucceedDisciplined(Logged(m, c), m.clock);
    EnqueuePlaces(Logged(m, c), Yielded(m.sys.policy, c), 0);
    SucceedDisciplined(Enqueue(Logged(m, c), Yielded(m.sys.policy, c)), m.clock);
  }

  lemma LoadDisciplined(m: Sim)
    requires Disciplined(m.sys)
    ensures Disciplined(LoadIfIdle(m).sys)
  {
    hide Select;
    if HasWaiting(m.sys) {
      SelectPlaces(m.sys, 0);
    }
  }

  lemma ExecuteDisciplined(m: Sim)
    requires Disciplined(m.sys)
    ensures Disciplined(ExecuteIfLoaded(m).sys)
  {
    hide Leave;
    if m.sys.cur.Some? {
      LeaveDisciplined(m, Worked(m.sys.policy, m.sys.cur.value));
    }
  }

  /** Queued means READY and current means RUNNING throughout a simulation. */
  lemma {:induction false} SimulationDisciplined(m: Sim, ticks: nat)
    requires Disciplined(m.sys)
    ensures Disciplined(SimRun(m, ticks).sys)
    decreases ticks
  {
    hide ExecuteIfLoaded, LoadIfIdle, Disciplined;
    if ticks > 0 {
      LoadDisciplined(m.(clock := m.clock + 1));
      ExecuteDisciplined(LoadIfIdle(m.(clock := m.clock + 1)));
      SimulationDisciplined(SimTick(m), ticks - 1);
    }
  }

  /** What happens when c leaves does not depend on what is noted as current. */
  lemma LeaveForgetsCurrent(m: Sim, m': Sim, c: Pcb)
    requires m'.sys == m.sys.(cur := m'.sys.cur) && m'.clock == m.clock && m'.done == m.done
    ensures Leave(m, c) == Leave(m', c)
  {
    hide Succeed, Enqueue;
    assert Logged(m, c) == Logged(m', c);
  }

  lemma BeginDisciplined(s: Sys, ticks: nat)
    requires Disciplined(s)
    ensures SimRun(Begin(s), 0) == Begin(s)
    ensures Disciplined(SimRun(Begin(s), ticks).sys)
  {
    hide SimTick;
    SimulationDisciplined(Begin(s), ticks);
  }

  lemma TickClock(m: Sim)
    ensures SimTick(m).clock == m.clock + 1
  {
    hide Select;
  }

  // ---------------------------------------------------------------------------------------------
  // Work
  // ---------------------------------------------------------------------------------------------

  /** Ticks a process will be charged before it ends: at least one, since it is charged before its
      remaining time is looked at. */
  function Work(p: Pcb): nat {
    if p.remainingTime == 0 then 1 else p.remainingTime
  }

  function TotalWork(q: seq<Pcb>): nat {
    if q == [] then 0 else Work(q[0]) + TotalWork(q[1..])
  }

  lemma TotalWorkConcat(a: seq<Pcb>, b: seq<Pcb>)
    ensures TotalWork(a + b) == TotalWork(a) + TotalWork(b)
  {
    if a == [] {
      assert a + b == b;
    } else {
      assert (a + b)[1..] == a[1..] + b;
      TotalWorkConcat(a[1..], b);
    }
  }

  lemma TotalWorkWithout(q: seq<Pcb>, k: nat)
    requires k < |q|
    ensures TotalWork(q) == TotalWork(Without(q, k)) + Work(q[k])
  {
    assert q == q[..k] + ([q[k]] + q[k + 1..]);
    TotalWorkConcat(q[..k], [q[k]] + q[k + 1..]);
    TotalWorkConcat(q[..k], q[k + 1..]);
    assert ([q[k]] + q[k + 1..])[1..] == q[k + 1..];
  }

  /** The work in the queues the policy selects from. */
  function QueuedWork(s: Sys): nat {
    if s.policy.Mlfq? then TotalWork(s.q0) + TotalWork(s.q1) + TotalWork(s.q2) else TotalWork(s.ready)
  }

  function Load(s: Sys): nat {
    QueuedWork(s) + if s.cur.Some? then Work(s.cur.value) else 0
  }

  lemma SelectWork(s: Sys)
    ensures var sel := Select(s);
      && sel.rest.cur == s.cur && sel.rest.policy == s.policy
      && QueuedWork(s) == QueuedWork(sel.rest) + (if sel.next.Some? then Work(sel.next.value) else 0)
      && (sel.next.None? ==> QueuedWork(s) == 0)
  {
    if !s.policy.Mlfq? && |s.ready| > 0 {
      TotalWorkWithout(s.ready, Choice(s.policy, s.ready));
    }
  }

  lemma TotalWorkAppend(q: seq<Pcb>, p: Pcb)
    ensures TotalWork(q + [p]) == TotalWork(q) + Work(p)
  {
    TotalWorkConcat(q, [p]);
  }

  lemma EnqueueWork(s: Sys, p: Pcb)
    ensures QueuedWork(Enqueue(s, p)) == QueuedWork(s) + Work(p)
  {
    if !s.policy.Mlfq? {
      TotalWorkAppend(s.ready, p);
    } else if p.level == 0 {
      TotalWorkAppend(s.q0, p);
    } else if p.level == 1 {
      TotalWorkAppend(s.q1, p);
    } else {
      TotalWorkAppend(s.q2, p);
    }
  }

  lemma SucceedWork(s: Sys, clock: nat)
    ensures Load(Succeed(s, clock)) == QueuedWork(s)
  {
    SelectWork(s);
  }

  lemma LeaveWork(m: Sim, c: Pcb)
    ensures Load(Leave(m, c).sys) == QueuedWork(m.sys) + c.remainingTime
  {
    var logged := Logged(m, c);
    if c.remainingTime == 0 {
      SucceedWork(logged, m.clock);
    } else {
      EnqueueWork(logged, Yielded(m.sys.policy, c));
      SucceedWork(Enqueue(logged, Yielded(m.sys.policy, c)), m.clock);
    }
  }

  lemma ExecuteWork(m: Sim)
    requires m.sys.cur.None? ==> Load(m.sys) == 0
    ensures Load(ExecuteIfLoaded(m).sys) == if Load(m.sys) == 0 then 0 else Load(m.sys) - 1
  {
    if m.sys.cur.Some? {
      LeaveWork(m, Worked(m.sys.policy, m.sys.cur.value));
    }
  }

  lemma LoadIfIdleWork(m: Sim)
    ensures var m' := LoadIfIdle(m);
      && Load(m'.sys) == Load(m.sys) && m'.clock == m.clock && m'.done == m.done
      && (m'.sys.cur.None? ==> m' == m && Load(m.sys) == 0)
  {
    SelectWork(m.sys);
  }

  lemma TickDoesOneUnit(m: Sim)
    ensures Load(SimTick(m).sys) == if Load(m.sys) == 0 then 0 else Load(m.sys) - 1
  {
    hide Execute, LoadIfIdle;
    var m1 := m.(clock := m.clock + 1);
    LoadIfIdleWork(m1);
    ExecuteWork(LoadIfIdle(m1));
  }

  /** Under every policy, T ticks of simulation do T units of work, or all there is. */
  lemma {:induction false} SimulationConservesWork(m: Sim, ticks: nat)
    ensures Load(SimRun(m, ticks).sys) == if Load(m.sys) >= ticks then Load(m.sys) - ticks else 0
    decreases ticks
  {
    hide SimTick;
    if ticks > 0 {
      TickDoesOneUnit(m);
      SimulationConservesWork(SimTick(m), ticks - 1);
    }
  }

  // ---------------------------------------------------------------------------------------------
  // Each process is charged exactly its own work
  // ---------------------------------------------------------------------------------------------

  function TallyOne(p: Pcb, pid: nat, total: nat): nat {
    if p.pid == pid && p.totalTicks + Work(p) == total then 1 else 0
  }

  /** Processes of the queue with this pid whose charges, past and to come, make this total. */
  function Tally(q: seq<Pcb>, pid: nat, total: nat): nat {
    if q == [] then 0 else TallyOne(q[0], pid, total) + Tally(q[1..], pid, total)
  }

  function TallyDone(done: seq<Completion>, pid: nat, total: nat): nat {
    if done == [] then 0 else
      (if done[0].pid == pid && done[0].charged == total then 1 else 0) + TallyDone(done[1..], pid, total)
  }

  lemma TallyConcat(a: seq<Pcb>, b: seq<Pcb>, pid: nat, total: nat)
    ensures Tally(a + b, pid, total) == Tally(a, pid, total) + Tally(b, pid, total)
  {
    if a == [] {
      assert a + b == b;
    } else {
      assert (a + b)[1..] == a[1..] + b;
      TallyConcat(a[1..], b, pid, total);
    }
  }

  lemma TallyWithout(q: seq<Pcb>, k: nat, pid: nat, total: nat)
    requires k < |q|
    ensures Tally(q, pid, total) == Tally(Without(q, k), pid, total) + TallyOne(q[k], pid, total)
  {
    assert q == q[..k] + ([q[k]] + q[k + 1..]);
    TallyConcat(q[..k], [q[k]] + q[k + 1..], pid, total);
    TallyConcat(q[..k], q[k + 1..], pid, total);
    assert ([q[k]] + q[k + 1..])[1..] == q[k + 1..];
  }

  lemma TallyDoneAppend(done: seq<Completion>, d: Completion, pid: nat, total: nat)
    ensures TallyDone(done + [d], pid, total)
         == TallyDone(done, pid, total) + if d.pid == pid && d.charged == total then 1 else 0
  {
    if done != [] {
      assert (done + [d])[1..] == done[1..] + [d];
      TallyDoneAppend(done[1..], d, pid, total);
    }
  }

  function QueuedTally(s: Sys, pid: nat, total: nat): nat {
    if s.policy.Mlfq? then Tally(s.q0, pid, total) + Tally(s.q1, pid, total) + Tally(s.q2, pid, total)
    else Tally(s.ready, pid, total)
  }

  /** Over queues, CPU and finished processes together. */
  function Accounts(m: Sim, pid: nat, total: nat): nat {
    QueuedTally(m.sys, pid, total)
    + (if m.sys.cur.Some? then TallyOne(m.sys.cur.value, pid, total) else 0)
    + TallyDone(m.done, pid, total)
  }

  lemma SelectTally(s: Sys, pid: nat, total: nat)
    ensures var sel := Select(s);
      && sel.rest.cur == s.cur && sel.rest.policy == s.policy
      && QueuedTally(s, pid, total)
         == QueuedTally(sel.rest, pid, total) + if sel.next.Some? then TallyOne(sel.next.value, pid, total) else 0
  {
    if !s.policy.Mlfq? && |s.ready| > 0 {
      TallyWithout(s.ready, Choice(s.policy, s.ready), pid, total);
    }
  }

  lemma TallyAppend(q: seq<Pcb>, p: Pcb, pid: nat, total: nat)
    ensures Tally(q + [p], pid, total) == Tally(q, pid, total) + TallyOne(p, pid, total)
  {
    TallyConcat(q, [p], pid, total);
  }

  lemma EnqueueTally(s: Sys, p: Pcb, pid: nat, total: nat)
    ensures QueuedTally(Enqueue(s, p), pid, total) == QueuedTally(s, pid, total) + TallyOne(p, pid, total)
  {
    if !s.policy.Mlfq? {
      TallyAppend(s.ready, p, pid, total);
    } else if p.level == 0 {
      TallyAppend(s.q0, p, pid, total);
    } else if p.level == 1 {
      TallyAppend(s.q1, p, pid, total);
    } else {
      TallyAppend(s.q2, p, pid, total);
    }
  }

  lemma SucceedTally(m: Sim, s: Sys, pid: nat, total: nat)
    ensures Accounts(m.(sys := Succeed(s, m.clock)), pid, total)
         == QueuedTally(s, pid, total) + TallyDone(m.done, pid, total)
  {
    SelectTally(s, pid, total);
  }

  lemma LeaveTally(m: Sim, c: Pcb, pid: nat, total: nat)
    ensures Accounts(Leave(m, c), pid, total)
         == QueuedTally(m.sys, pid, total) + TallyDone(m.done, pid, total)
            + if c.pid == pid && c.totalTicks + c.remainingTime == total then 1 else 0
  {
    var logged := Logged(m, c);
    if c.remainingTime == 0 {
      var d := Completion(c.pid, c.totalTicks, m.clock);
      TallyDoneAppend(m.done, d, pid, total);
      SucceedTally(m.(done := m.done + [d]), logged, pid, total);
    } else {
      var p := Yielded(m.sys.policy, c);
      EnqueueTally(logged, p, pid, total);
      SucceedTally(m, Enqueue(logged, p), pid, total);
    }
  }

  lemma ExecuteTally(m: Sim, pid: nat, total: nat)
    ensures Accounts(ExecuteIfLoaded(m), pid, total) == Accounts(m, pid, total)
  {
    if m.sys.cur.Some? {
      LeaveTally(m, Worked(m.sys.policy, m.sys.cur.value), pid, total);
    }
  }

  lemma LoadIfIdleTally(m: Sim, pid: nat, total: nat)
    ensures Accounts(LoadIfIdle(m), pid, total) == Accounts(m, pid, total)
  {
    SelectTally(m.sys, pid, total);
  }

  lemma TickKeepsAccounts(m: Sim, pid: nat, total: nat)
    ensures Accounts(SimTick(m), pid, total) == Accounts(m, pid, total)
  {
    var m1 := m.(clock := m.clock + 1);
    LoadIfIdleTally(m1, pid, total);
    ExecuteTally(LoadIfIdle(m1), pid, total);
  }

  /** No process is lost, duplicated or charged for another: what it has been charged plus what it
      still needs never changes, and once terminated it has been charged exactly that. */
  lemma {:induction false} SimulationKeepsAccounts(m: Sim, ticks: nat, pid: nat, total: nat)
    ensures Accounts(SimRun(m, ticks), pid, total) == Accounts(m, pid, total)
    decreases ticks
  {
    hide SimTick;
    if ticks > 0 {
      TickKeepsAccounts(m, pid, total);
      SimulationKeepsAccounts(SimTick(m), ticks - 1, pid, total);
    }
  }

  lemma IdleTally(q: seq<Pcb>, pid: nat, total: nat)
    requires TotalWork(q) == 0
    ensures Tally(q, pid, total) == 0
  {
  }

  /** Given enough ticks, the terminated processes are exactly those that were queued, each charged
      exactly its remaining time on top of its earlier ticks. */
  lemma EverythingFinishes(s: Sys, ticks: nat, pid: nat, total: nat)
    requires HasWaiting(s) && ticks >= QueuedWork(s)
    ensures var m := Simulate(s, ticks);
      && m.sys.cur.None? && !HasWaiting(m.sys)
      && TallyDone(m.done, pid, total) == QueuedTally(s, pid, total)
  {
    hide SimRun, Select;
    var m := Simulate(s, ticks);
    SimulationConservesWork(Begin(s), ticks);
    SimulationKeepsAccounts(Begin(s), ticks, pid, total);
    SelectWork(m.sys);
    if m.sys.policy.Mlfq? {
      IdleTally(m.sys.q0, pid, total);
      IdleTally(m.sys.q1, pid, total);
      IdleTally(m.sys.q2, pid, total);
    } else {
      IdleTally(m.sys.ready, pid, total);
    }
  }

  // ---------------------------------------------------------------------------------------------
  // The journal of one simulation
  // ---------------------------------------------------------------------------------------------

  predicate SimTiled(m: Sim) {
    && Chained(m.sys.log)
    && |m.sys.log| == m.sys.switches
    && (m.sys.log != [] ==>
         if m.sys.cur.Some? then m.sys.cur.value.startTick == m.sys.log[|m.sys.log| - 1].end
         else !HasWaiting(m.sys))
  }

  lemma SucceedTiles(s: Sys, clock: nat)
    ensures var s' := Succeed(s, clock);
      && s'.log == s.log && s'.switches == s.switches
      && if s'.cur.Some? then s'.cur.value.startTick == clock else !HasWaiting(s')
  {
    SelectFrame(s);
  }

  lemma LoggedTiles(m: Sim, c: Pcb)
    requires SimTiled(m) && m.sys.cur.Some? && c.startTick == m.sys.cur.value.startTick
    ensures var s := Logged(m, c);
      && Chained(s.log) && |s.log| == s.switches && m.sys.log <= s.log
      && s.log[|s.log| - 1].end == m.clock
  {
  }

  lemma LeaveTiles(m: Sim, c: Pcb)
    requires SimTiled(m) && m.sys.cur.Some? && c.startTick == m.sys.cur.value.startTick
    ensures SimTiled(Leave(m, c)) && m.sys.log <= Leave(m, c).sys.log
  {
    LoggedTiles(m, c);
    if c.remainingTime == 0 {
      SucceedTiles(Logged(m, c), m.clock);
    } else {
      SucceedTiles(Enqueue(Logged(m, c), Yielded(m.sys.policy, c)), m.clock);
    }
  }

  lemma LoadIfIdleTiles(m: Sim)
    requires SimTiled(m)
    ensures SimTiled(LoadIfIdle(m)) && LoadIfIdle(m).sys.log == m.sys.log
  {
    SelectFrame(m.sys);
  }

  lemma ExecuteTiles(m: Sim)
    requires SimTiled(m)
    ensures SimTiled(ExecuteIfLoaded(m)) && m.sys.log <= ExecuteIfLoaded(m).sys.log
  {
    if m.sys.cur.Some? {
      LeaveTiles(m, Worked(m.sys.policy, m.sys.cur.value));
    }
  }

  lemma TickTiles(m: Sim)
    requires SimTiled(m)
    ensures SimTiled(SimTick(m)) && m.sys.log <= SimTick(m).sys.log
  {
    hide Execute, LoadIfIdle;
    var m1 := m.(clock := m.clock + 1);
    LoadIfIdleTiles(m1);
    ExecuteTiles(LoadIfIdle(m1));
  }

  /** Within one simulation, each logged interval starts where the previous one ended. */
  lemma {:induction false} SimulationTiles(m: Sim, ticks: nat)
    requires SimTiled(m)
    ensures SimTiled(SimRun(m, ticks)) && m.sys.log <= SimRun(m, ticks).sys.log
    decreases ticks
  {
    hide SimTick;
    if ticks > 0 {
      TickTiles(m);
      SimulationTiles(SimTick(m), ticks - 1);
    }
  }

  lemma {:induction false} IdleRun(m: Sim, ticks: nat)
    requires m.sys.cur.None? && !HasWaiting(m.sys)
    ensures SimRun(m, ticks) == m.(clock := m.clock + ticks)
    decreases ticks
  {
    if ticks > 0 {
      IdleRun(SimTick(m), ticks - 1);
    }
  }

  /** A simulation with nobody queued does nothing on an idle CPU; otherwise it clears the journal and takes
      the process off the CPU, which is then in no queue. */
  lemma NothingToSimulate(s: Sys, ticks: nat)
    requires !HasWaiting(s)
    ensures var m := Simulate(s, ticks);
      && m.done == []
      && m.sys == if s.cur.None? then s else s.(cur := None, log := [], switches := 0)
  {
    if s.cur.Some? {
      IdleRun(Begin(s), ticks);
    }
  }
}
