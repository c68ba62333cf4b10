/** No policy of the simulator, preemptive or not, beats running the queue sorted by work: at any moment
    the clock has paid for all the work done so far. */
module PolicyComparison {
  import opened Processes
  import opened SchedulerModel
  import opened SchedulerRuns
  import opened Simulation
  import opened FlowTime
  import opened SjfOptimality

  // ---------------------------------------------------------------------------------------------
  // Ticks spent since the start of the simulation
  // ---------------------------------------------------------------------------------------------

  /** The ticks a process had been charged when it was first seen in this queue. */
  function StartOf(origin: seq<Pcb>, pid: nat): nat {
    if origin == [] then 0 else if origin[0].pid == pid then origin[0].totalTicks else StartOf(origin[1..], pid)
  }

  function Since(origin: seq<Pcb>, pid: nat, charged: nat): nat {
    if charged < StartOf(origin, pid) then 0 else charged - StartOf(origin, pid)
  }

  function Spent(origin: seq<Pcb>, q: seq<Pcb>): nat {
    if q == [] then 0 else Since(origin, q[0].pid, q[0].totalTicks) + Spent(origin, q[1..])
  }

  function SpentDone(origin: seq<Pcb>, done: seq<Completion>): nat {
    if done == [] then 0
    else
      var last := done[|done| - 1];
      SpentDone(origin, done[..|done| - 1]) + Since(origin, last.pid, last.charged)
  }

  lemma SpentConcat(origin: seq<Pcb>, a: seq<Pcb>, b: seq<Pcb>)
    ensures Spent(origin, a + b) == Spent(origin, a) + Spent(origin, b)
  {
    hide Since;
    if a == [] {
      assert a + b == b;
    } else {
      assert (a + b)[1..] == a[1..] + b;
      SpentConcat(origin, a[1..], b);
    }
  }

  lemma SpentWithout(origin: seq<Pcb>, q: seq<Pcb>, k: nat)
    requires k < |q|
    ensures Spent(origin, q) == Spent(origin, Without(q, k)) + Since(origin, q[k].pid, q[k].totalTicks)
  {
    hide Since;
    assert q == q[..k] + ([q[k]] + q[k + 1..]);
    SpentConcat(origin, q[..k], [q[k]] + q[k + 1..]);
    SpentConcat(origin, q[..k], q[k + 1..]);
    assert ([q[k]] + q[k + 1..])[1..] == q[k + 1..];
  }

  lemma SpentAppend(origin: seq<Pcb>, q: seq<Pcb>, p: Pcb)
    ensures Spent(origin, q + [p]) == Spent(origin, q) + Since(origin, p.pid, p.totalTicks)
  {
    hide Since;
    SpentConcat(origin, q, [p]);
  }

  lemma SpentDoneAppend(origin: seq<Pcb>, done: seq<Completion>, d: Completion)
    ensures SpentDone(origin, done + [d]) == SpentDone(origin, done) + Since(origin, d.pid, d.charged)
  {
    hide Since;
    assert (done + [d])[..|done|] == done;
  }

  function QueuedSpent(origin: seq<Pcb>, s: Sys): nat {
    if s.policy.Mlfq? then Spent(origin, s.q0) + Spent(origin, s.q1) + Spent(origin, s.q2) else Spent(origin, s.ready)
  }

  function ActiveSpent(origin: seq<Pcb>, s: Sys): nat {
    QueuedSpent(origin, s)
    + if s.cur.Some? then Since(origin, s.cur.value.pid, s.cur.value.totalTicks) else 0
  }

  lemma SelectSpent(origin: seq<Pcb>, s: Sys)
    ensures var sel := Select(s);
      && sel.rest.cur == s.cur && sel.rest.policy == s.policy
      && QueuedSpent(origin, s) == QueuedSpent(origin, sel.rest)
         + if sel.next.Some? then Since(origin, sel.next.value.pid, sel.next.value.totalTicks) else 0
  {
    hide Since;
    if !s.policy.Mlfq? && |s.ready| > 0 {
      SpentWithout(origin, s.ready, Choice(s.policy, s.ready));
    }
  }

  lemma EnqueueSpent(origin: seq<Pcb>, s: Sys, p: Pcb)
    ensures QueuedSpent(origin, Enqueue(s, p)) == QueuedSpent(origin, s) + Since(origin, p.pid, p.totalTicks)
  {
    hide Since, Spent;
    SpentAppend(origin, s.ready, p);
    SpentAppend(origin, s.q0, p);
    SpentAppend(origin, s.q1, p);
    SpentAppend(origin, s.q2, p);
  }

  lemma SucceedSpent(origin: seq<Pcb>, s: Sys, clock: nat)
    ensures ActiveSpent(origin, Succeed(s, clock)) == QueuedSpent(origin, s)
  {
    hide Since, Spent, Select;
    SelectSpent(origin, s);
  }

  /** The clock has paid for everything done so far, and had when each process ended. */
  ghost predicate PaidFor(origin: seq<Pcb>, m: Sim) {
    && ActiveSpent(origin, m.sys) + SpentDone(origin, m.done) <= m.clock
    && forall j :: 0 <= j < |m.done| ==> SpentDone(origin, m.done[..j + 1]) <= m.done[j].at
  }

  lemma LeavePays(origin: seq<Pcb>, m: Sim, c: Pcb)
    requires forall j :: 0 <= j < |m.done| ==> SpentDone(origin, m.done[..j + 1]) <= m.done[j].at
    requires QueuedSpent(origin, m.sys) + Since(origin, c.pid, c.totalTicks) + SpentDone(origin, m.done) <= m.clock
    ensures PaidFor(origin, Leave(m, c))
  {
    hide Since, Spent, Succeed, SpentDone, Enqueue;
    var logged := Logged(m, c);
    if c.remainingTime == 0 {
      var d := Completion(c.pid, c.totalTicks, m.clock);
      SucceedSpent(origin, logged, m.clock);
      SpentDoneAppend(origin, m.done, d);
      var done := m.done + [d];
      forall j | 0 <= j < |done| ensures SpentDone(origin, done[..j + 1]) <= done[j].at {
        assert done[..j + 1] == if j < |m.done| then m.done[..j + 1] else done;
      }
    } else {
      EnqueueSpent(origin, logged, Yielded(m.sys.policy, c));
      SucceedSpent(origin, Enqueue(logged, Yielded(m.sys.policy, c)), m.clock);
    }
  }

  lemma TickPays(origin: seq<Pcb>, m: Sim)
    requires PaidFor(origin, m)
    ensures PaidFor(origin, SimTick(m))
  {
    hide Spent, SpentDone, Leave, Select;
    var m1 := m.(clock := m.clock + 1);
    SelectSpent(origin, m1.sys);
    var m2 := LoadIfIdle(m1);
    assert ActiveSpent(origin, m2.sys) == ActiveSpent(origin, m.sys);
    if m2.sys.cur.Some? {
      var c := Worked(m2.sys.policy, m2.sys.cur.value);
      if c.remainingTime == 0 || (Sliced(m2.sys.policy) && c.remainingSlice == 0) {
        LeavePays(origin, m2, c);
      }
    }
  }

  lemma {:induction false} RunPays(origin: seq<Pcb>, m: Sim, ticks: nat)
    requires PaidFor(origin, m)
    ensures PaidFor(origin, SimRun(m, ticks))
    decreases ticks
  {
    hide SimTick, PaidFor;
    if ticks > 0 {
      TickPays(origin, m);
      RunPays(origin, SimTick(m), ticks - 1);
    }
  }

  // ---------------------------------------------------------------------------------------------
  // Works as plain numbers
  // ---------------------------------------------------------------------------------------------

  function Map<S, T>(f: S -> T, q: seq<S>): (r: seq<T>)
    ensures |r| == |q| && forall i :: 0 <= i < |q| ==> r[i] == f(q[i])
  {
    seq(|q|, i requires 0 <= i < |q| => f(q[i]))
  }

  lemma MapWithout<S, T>(f: S -> T, q: seq<S>, k: nat)
    requires k < |q|
    ensures Map(f, Without(q, k)) == Without(Map(f, q), k)
  {
  }

  lemma {:induction false} MapPermutes<S, T>(f: S -> T, a: seq<S>, b: seq<S>)
    requires multiset(a) == multiset(b)
    ensures multiset(Map(f, a)) == multiset(Map(f, b))
    decreases |a|
  {
    assert |multiset(a)| == |a| && |multiset(b)| == |b|;
    if a != [] {
      hide Map, Without;
      assert a[0] in multiset(b);
      var k :| 0 <= k < |b| && b[k] == a[0];
      WithoutPermutes(a, 0);
      WithoutPermutes(b, k);
      assert multiset(Without(a, 0)) == multiset(a) - multiset{a[0]} == multiset(Without(b, k));
      MapPermutes(f, Without(a, 0), Without(b, k));
      MapWithout(f, a, 0);
      MapWithout(f, b, k);
      WithoutPermutes(Map(f, a), 0);
      WithoutPermutes(Map(f, b), k);
    }
  }

  function Works(q: seq<Pcb>): seq<nat> {
    Map(Work, q)
  }

  /** A process of which nothing but its work matters. */
  function Plain(work: nat): Pcb {
    Pcb(0, "", Ready, 0, 0, 0, 0, 0, 0, work, 0, 0, 0, 0)
  }

  function Plains(works: seq<nat>): seq<Pcb> {
    Map(Plain, works)
  }

  lemma {:induction false} SameWorkSameFlow(a: seq<Pcb>, b: seq<Pcb>)
    requires |a| == |b| && forall i :: 0 <= i < |a| ==> Work(a[i]) == Work(b[i])
    ensures TotalWork(a) == TotalWork(b) && Flow(a) == Flow(b)
    decreases |a|
  {
    hide Work;
    if a != [] {
      var n := |a| - 1;
      assert a == a[..n] + [a[n]] && b == b[..n] + [b[n]];
      SameWorkSameFlow(a[..n], b[..n]);
      TotalWorkAppend(a[..n], a[n]);
      TotalWorkAppend(b[..n], b[n]);
    }
  }

  /** A sorted order has at most the flow of any queue with the same works. */
  lemma SortedBeatsWorks(best: seq<Pcb>, q: seq<Pcb>)
    requires SortedByWork(best) && multiset(Works(best)) == multiset(Works(q))
    ensures Flow(best) <= Flow(q)
  {
    hide Flow, TotalWork;
    var a, b := Plains(Works(best)), Plains(Works(q));
    SameWorkSameFlow(best, a);
    SameWorkSameFlow(q, b);
    MapPermutes(Plain, Works(best), Works(q));
    SortedIsMinimal(a, b);
  }

  // ---------------------------------------------------------------------------------------------
  // What has ended is what was queued
  // ---------------------------------------------------------------------------------------------

  function Total(p: Pcb): (nat, nat) {
    (p.pid, p.totalTicks + Work(p))
  }

  function Charges(d: Completion): (nat, nat) {
    (d.pid, d.charged)
  }

  /** How often a value occurs, head first. */
  lemma MapCounts<S, T>(f: S -> T, q: seq<S>, y: T)
    requires q != []
    ensures multiset(Map(f, q))[y] == (if f(q[0]) == y then 1 else 0) + multiset(Map(f, q[1..]))[y]
  {
    assert Map(f, q) == [f(q[0])] + Map(f, q[1..]);
  }

  lemma {:induction false} TotalsTally(q: seq<Pcb>, pid: nat, total: nat)
    ensures multiset(Map(Total, q))[(pid, total)] == Tally(q, pid, total)
  {
    if q != [] {
      hide Map, Work;
      MapCounts(Total, q, (pid, total));
      TotalsTally(q[1..], pid, total);
    }
  }

  lemma {:induction false} ChargesTally(done: seq<Completion>, pid: nat, total: nat)
    ensures multiset(Map(Charges, done))[(pid, total)] == TallyDone(done, pid, total)
  {
    if done != [] {
      hide Map;
      MapCounts(Charges, done, (pid, total));
      ChargesTally(done[1..], pid, total);
    }
  }

  /** The queue or the queues that the policy selects from. */
  function Pool(s: Sys): seq<Pcb> {
    if s.policy.Mlfq? then s.q0 + s.q1 + s.q2 else s.ready
  }

  lemma PoolTally(s: Sys, pid: nat, total: nat)
    ensures Tally(Pool(s), pid, total) == QueuedTally(s, pid, total)
  {
    TallyConcat(s.q0 + s.q1, s.q2, pid, total);
    TallyConcat(s.q0, s.q1, pid, total);
  }

  lemma EndedIsQueued(s: Sys, ticks: nat)
    requires HasWaiting(s) && ticks >= QueuedWork(s)
    ensures multiset(Map(Charges, Simulate(s, ticks).done)) == multiset(Map(Total, Pool(s)))
  {
    hide Simulate, Map, Tally, TallyDone, QueuedTally, QueuedWork, HasWaiting, Pool;
    var done := Simulate(s, ticks).done;
    forall x: (nat, nat) ensures multiset(Map(Charges, done))[x] == multiset(Map(Total, Pool(s)))[x] {
      ChargesTally(done, x.0, x.1);
      TotalsTally(Pool(s), x.0, x.1);
      PoolTally(s, x.0, x.1);
      EverythingFinishes(s, ticks, x.0, x.1);
    }
  }

  /** Processes of one pid, if there are several, have been charged the same so far. In a scheduler that
      holds each process once there are not several. */
  predicate SameStart(q: seq<Pcb>) {
    forall i, j :: 0 <= i < |q| && 0 <= j < |q| && q[i].pid == q[j].pid ==> q[i].totalTicks == q[j].totalTicks
  }

  lemma StartOfMember(q: seq<Pcb>, i: nat)
    requires SameStart(q) && i < |q|
    ensures StartOf(q, q[i].pid) == q[i].totalTicks
  {
    if i > 0 && q[0].pid != q[i].pid {
      assert SameStart(q[1..]);
      StartOfMember(q[1..], i - 1);
    }
  }

  /** The work done on each ended process. */
  function WorksDone(origin: seq<Pcb>, done: seq<Completion>): (r: seq<nat>)
    ensures |r| == |done|
    ensures forall i :: 0 <= i < |done| ==> r[i] == Since(origin, done[i].pid, done[i].charged)
  {
    seq(|done|, i requires 0 <= i < |done| => Since(origin, done[i].pid, done[i].charged))
  }

  /** The work done on each ended process is the work it came with. */
  lemma EndedWorks(s: Sys, ticks: nat)
    requires HasWaiting(s) && ticks >= QueuedWork(s) && SameStart(Pool(s))
    ensures multiset(WorksDone(Pool(s), Simulate(s, ticks).done)) == multiset(Works(Pool(s)))
  {
    hide Simulate, QueuedWork, HasWaiting, Pool, Work;
    var q, done := Pool(s), Simulate(s, ticks).done;
    var f := (x: (nat, nat)) => Since(q, x.0, x.1);
    EndedIsQueued(s, ticks);
    MapPermutes(f, Map(Charges, done), Map(Total, q));
    assert Map(f, Map(Charges, done)) == WorksDone(q, done);
    forall i | 0 <= i < |q| ensures f(Total(q[i])) == Work(q[i]) {
      StartOfMember(q, i);
    }
    assert Map(f, Map(Total, q)) == Works(q);
  }

  lemma NothingEnded(origin: seq<Pcb>)
    ensures var ended := Plains(WorksDone(origin, []));
      Flow(ended) == FinishSum([]) == TotalWork(ended) == SpentDone(origin, []) == 0
  {
  }

  lemma OneMoreEnded(origin: seq<Pcb>, before: seq<Completion>, d: Completion)
    requires Since(origin, d.pid, d.charged) > 0
    ensures var ended, more := Plains(WorksDone(origin, before)), Plains(WorksDone(origin, before + [d]));
      && TotalWork(more) == TotalWork(ended) + Since(origin, d.pid, d.charged)
      && Flow(more) == Flow(ended) + TotalWork(more)
    ensures SpentDone(origin, before + [d]) == SpentDone(origin, before) + Since(origin, d.pid, d.charged)
    ensures FinishSum(before + [d]) == FinishSum(before) + d.at
  {
    hide Since, Flow, TotalWork, FinishSum, SpentDone;
    var last := Plain(Since(origin, d.pid, d.charged));
    var ended := Plains(WorksDone(origin, before));
    assert Plains(WorksDone(origin, before + [d])) == ended + [last];
    FlowAppend(ended, last);
    TotalWorkAppend(ended, last);
    SpentDoneAppend(origin, before, d);
    FinishSumAppend(before, d);
  }

  lemma {:induction false} FinishSumPays(origin: seq<Pcb>, done: seq<Completion>)
    requires forall j :: 0 <= j < |done| ==> SpentDone(origin, done[..j + 1]) <= done[j].at
    requires forall j :: 0 <= j < |done| ==> Since(origin, done[j].pid, done[j].charged) > 0
    ensures var ended := Plains(WorksDone(origin, done));
      Flow(ended) <= FinishSum(done) && TotalWork(ended) == SpentDone(origin, done)
    decreases |done|
  {
    hide Since, Flow, TotalWork, FinishSum, SpentDone, Plains, WorksDone;
    if done == [] {
      NothingEnded(origin);
    } else {
      var n := |done| - 1;
      var before := done[..n];
      forall j | 0 <= j < n ensures SpentDone(origin, before[..j + 1]) <= before[j].at {
        assert before[..j + 1] == done[..j + 1];
      }
      FinishSumPays(origin, before);
      assert done == before + [done[n]] && done[..n + 1] == done;
      OneMoreEnded(origin, before, done[n]);
    }
  }

  // ---------------------------------------------------------------------------------------------
  // The comparison
  // ---------------------------------------------------------------------------------------------

  lemma {:induction false} NothingSpent(origin: seq<Pcb>, k: nat)
    requires SameStart(origin) && k <= |origin|
    ensures Spent(origin, origin[k..]) == 0
    decreases |origin| - k
  {
    if k < |origin| {
      StartOfMember(origin, k);
      NothingSpent(origin, k + 1);
    } else {
      assert origin[k..] == [];
    }
    assert origin[0..] == origin;
  }

  lemma BeginPays(origin: seq<Pcb>, s: Sys)
    requires SameStart(Pool(s)) && origin == Pool(s)
    ensures PaidFor(origin, Begin(s))
  {
    SpentConcat(origin, s.q0 + s.q1, s.q2);
    SpentConcat(origin, s.q0, s.q1);
    NothingSpent(origin, 0);
  }

  lemma RunIsSimulate(s: Sys, ticks: nat)
    requires HasWaiting(s)
    ensures Simulate(s, ticks) == SimRun(Begin(s), ticks)
  {
  }

  lemma WorkIsPositive(q: seq<Pcb>, work: nat)
    requires work in multiset(Works(q))
    ensures work > 0
  {
    assert work in Works(q);
  }

  lemma PlainWorks(works: seq<nat>)
    requires forall i :: 0 <= i < |works| ==> works[i] > 0
    ensures Works(Plains(works)) == works
  {
  }

  /** Whatever the policy, a simulation that ends all processes has a sum of finish ticks no smaller than
      running them one after the other in the order of their work. */
  lemma NoPolicyBeatsSorted(s: Sys, ticks: nat, best: seq<Pcb>)
    requires HasWaiting(s) && ticks >= QueuedWork(s) && SameStart(Pool(s))
    requires SortedByWork(best) && multiset(Works(best)) == multiset(Works(Pool(s)))
    ensures FinishSum(Completions(best, 0)) <= FinishSum(Simulate(s, ticks).done)
  {
    hide Simulate, SimRun, Flow, TotalWork, Completions, FinishSum, Pool, QueuedWork, Work, Since, SpentDone;
    var q, done := Pool(s), Simulate(s, ticks).done;
    RunIsSimulate(s, ticks);
    BeginPays(q, s);
    RunPays(q, Begin(s), ticks);
    EndedWorks(s, ticks);
    forall j | 0 <= j < |done| ensures Since(q, done[j].pid, done[j].charged) > 0 {
      assert WorksDone(q, done)[j] in multiset(Works(q));
      WorkIsPositive(q, WorksDone(q, done)[j]);
    }
    FinishSumPays(q, done);
    var ended := Plains(WorksDone(q, done));
    assert Works(ended) == WorksDone(q, done) by {
      PlainWorks(WorksDone(q, done));
    }
    SortedBeatsWorks(best, ended);
    FinishSumIsFlow(best);
  }

  lemma PermutedWorks(a: seq<Pcb>, b: seq<Pcb>)
    requires multiset(a) == multiset(b)
    ensures multiset(Works(a)) == multiset(Works(b))
  {
    MapPermutes(Work, a, b);
  }

  lemma MovedPool(s: Sys, policy: Policy)
    requires !s.policy.Mlfq? && s.ready != [] && s.q0 == [] && s.q1 == [] && s.q2 == [] && SameStart(s.ready)
    ensures var s' := SetPolicy(s, policy);
      && HasWaiting(s') && Works(Pool(s')) == Works(s.ready) && SameStart(Pool(s'))
      && QueuedWork(s') == TotalWork(s.ready)
  {
    var s' := SetPolicy(s, policy);
    if policy.Mlfq? {
      assert Pool(s') == RefreshAll(s.ready);
      SameWorkSameFlow(RefreshAll(s.ready), s.ready);
      assert s'.q0 == RefreshAll(s.ready);
    }
  }

  /** SJF does at least as well as every policy on the same queue, moved over by a change of policy:
      round robin and MLFQ, which preempt, included. */
  lemma SjfBeatsAll(s: Sys, ticks: nat, policy: Policy)
    requires s.policy.Sjf? && s.ready != [] && Unstarted(s.ready) && ticks >= TotalWork(s.ready)
    requires s.q0 == [] && s.q1 == [] && s.q2 == [] && SameStart(s.ready)
    ensures FinishSum(Simulate(s, ticks).done) <= FinishSum(Simulate(SetPolicy(s, policy), ticks).done)
  {
    hide Simulate, Order, Completions, FinishSum, SortedByWork, Works;
    var s', best := SetPolicy(s, policy), Order(Sjf, s.ready);
    UnslicedSimulation(s, ticks);
    BurstOrderIsWorkOrder(s.ready);
    OrderPermutes(Sjf, s.ready);
    PermutedWorks(best, s.ready);
    MovedPool(s, policy);
    NoPolicyBeatsSorted(s', ticks, best);
  }

  lemma PoolOnce(w: World, pid: nat)
    requires OnePlace(w)
    ensures Count(Pool(w.sys), pid) <= 1
  {
    assert Places(w, pid) <= 1;
    CountConcat(w.sys.q0 + w.sys.q1, w.sys.q2, pid);
    CountConcat(w.sys.q0, w.sys.q1, pid);
  }

  lemma OnlyOne(q: seq<Pcb>, i: nat, j: nat)
    requires i < |q| && j < |q| && q[i].pid == q[j].pid && Count(q, q[i].pid) <= 1
    ensures i == j
  {
    if i == 0 && j > 0 {
      CountPositive(q[1..], j - 1);
    } else if j == 0 && i > 0 {
      CountPositive(q[1..], i - 1);
    } else if i > 0 {
      OnlyOne(q[1..], i - 1, j - 1);
    }
  }

  /** In a scheduler that holds each process once, in particular in every reachable one, the assumption on
      pids holds. */
  lemma OnceIsSameStart(w: World)
    requires OnePlace(w)
    ensures SameStart(Pool(w.sys))
  {
    var q := Pool(w.sys);
    forall i, j | 0 <= i < |q| && 0 <= j < |q| && q[i].pid == q[j].pid ensures q[i].totalTicks == q[j].totalTicks {
      PoolOnce(w, q[i].pid);
      OnlyOne(q, i, j);
    }
  }
}
