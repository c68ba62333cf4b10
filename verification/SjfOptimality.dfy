/** Simulations that never preempt run the queue in the order of their key, and SJF is optimal. */
module SjfOptimality {
  import opened Wrappers
  import opened Processes
  import opened SchedulerModel
  import opened Simulation
  import opened FlowTime

  /** The order in which the processes of a queue are selected when nothing is added. */
  function Order(policy: Policy, q: seq<Pcb>): (r: seq<Pcb>)
    ensures |r| == |q|
    decreases |q|
  {
    if q == [] then [] else
      var k := Choice(policy, q);
      [q[k]] + Order(policy, Without(q, k))
  }

  // ---------------------------------------------------------------------------------------------
  // A simulation without slices
  // ---------------------------------------------------------------------------------------------

  /** The state in which the process on the CPU has just ended, r ticks later. */
  function AfterCurrent(m: Sim, r: nat): Sim
    requires m.sys.cur.Some?
  {
    Leave(m.(clock := m.clock + r),
          m.sys.cur.value.(totalTicks := m.sys.cur.value.totalTicks + r, remainingTime := 0))
  }

  lemma OneTick(m: Sim)
    requires m.sys.cur.Some? && !Sliced(m.sys.policy)
    ensures var c := m.sys.cur.value;
      if Work(c) == 1 then SimTick(m) == AfterCurrent(m, 1)
      else SimTick(m) == m.(clock := m.clock + 1, sys := m.sys.(cur :=
             Some(c.(totalTicks := c.totalTicks + 1, remainingTime := c.remainingTime - 1))))
  {
    hide Leave;
  }

  /** A process keeps the CPU until it ends, exactly when its work is done. */
  lemma {:induction false} RunCurrent(m: Sim)
    requires m.sys.cur.Some? && !Sliced(m.sys.policy)
    ensures SimRun(m, Work(m.sys.cur.value)) == AfterCurrent(m, Work(m.sys.cur.value))
    decreases Work(m.sys.cur.value)
  {
    hide Leave, SimTick;
    OneTick(m);
    var r := Work(m.sys.cur.value);
    assert SimRun(m, r) == SimRun(SimTick(m), r - 1);
    if r > 1 {
      var m1 := SimTick(m);
      RunCurrent(m1);
      LeaveForgetsCurrent(m.(clock := m.clock + r), m1.(clock := m.clock + r),
        m.sys.cur.value.(totalTicks := m.sys.cur.value.totalTicks + r, remainingTime := 0));
    } else {
      assert SimRun(SimTick(m), 0) == SimTick(m);
    }
  }

  /** Succession on a plain ready queue: the choice of the policy, or an idle CPU. */
  lemma SucceedsByOrder(s: Sys, clock: nat)
    requires !Sliced(s.policy)
    ensures var s' := Succeed(s, clock);
      && s'.policy == s.policy
      && if s.ready == [] then s'.cur.None? && s'.ready == []
         else var k := Choice(s.policy, s.ready);
           && s'.cur == Some(Chosen(s.policy, s.ready[k], clock))
           && s'.ready == Without(s.ready, k)
  {
  }

  lemma LeavesDone(m: Sim, r: nat)
    requires m.sys.cur.Some? && !Sliced(m.sys.policy)
    ensures var c, m', q := m.sys.cur.value, AfterCurrent(m, r), m.sys.ready;
      && m'.done == m.done + [Completion(c.pid, c.totalTicks + r, m.clock + r)]
      && m'.clock == m.clock + r && m'.sys.policy == m.sys.policy
      && if q == [] then m'.sys.cur.None? && m'.sys.ready == []
         else var k := Choice(m.sys.policy, q);
           && m'.sys.cur == Some(Chosen(m.sys.policy, q[k], m.clock + r))
           && m'.sys.ready == Without(q, k)
  {
    hide Succeed;
    var c := m.sys.cur.value.(totalTicks := m.sys.cur.value.totalTicks + r, remainingTime := 0);
    SucceedsByOrder(Logged(m.(clock := m.clock + r), c), m.clock + r);
  }

  lemma IdleStaysIdle(m: Sim, ticks: nat)
    requires m.sys.cur.None? && !Sliced(m.sys.policy) && m.sys.ready == []
    ensures SimRun(m, ticks).done == m.done
    decreases ticks
  {
    if ticks > 0 {
      assert SimTick(m) == m.(clock := m.clock + 1);
      IdleStaysIdle(SimTick(m), ticks - 1);
    }
  }

  lemma {:induction false} RunsLoaded(m: Sim, ticks: nat)
    requires m.sys.cur.Some? && !Sliced(m.sys.policy)
    requires ticks >= Work(m.sys.cur.value) + TotalWork(m.sys.ready)
    ensures SimRun(m, ticks).done
         == m.done + Completions([m.sys.cur.value] + Order(m.sys.policy, m.sys.ready), m.clock)
    decreases |m.sys.ready|
  {
    hide SimRun, AfterCurrent, Choice, Completions, TotalWork;
    var c, q, policy := m.sys.cur.value, m.sys.ready, m.sys.policy;
    var r := Work(c);
    RunCurrent(m);
    SimRunSplit(m, r, ticks - r);
    LeavesDone(m, r);
    var m' := AfterCurrent(m, r);
    CompletionsCons(c, Order(policy, q), m.clock);
    if q == [] {
      IdleStaysIdle(m', ticks - r);
      CompletionsNil(m.clock + r);
    } else {
      var k := Choice(policy, q);
      TotalWorkWithout(q, k);
      RunsLoaded(m', ticks - r);
      SameCompletions(m'.sys.cur.value, q[k], Order(policy, Without(q, k)), m.clock + r);
    }
  }

  lemma SameFirstTick(m: Sim, m': Sim, ticks: nat)
    requires SimTick(m) == SimTick(m') && ticks > 0
    ensures SimRun(m, ticks) == SimRun(m', ticks)
  {
    hide SimTick;
  }

  /** FCFS, SJF, PRIORITY and SRTF simulations complete the whole queue in the order of the policy,
      each process exactly at the sum of the work up to and including its own. */
  lemma {:induction false} UnslicedSimulation(s: Sys, ticks: nat)
    requires !Sliced(s.policy) && s.ready != [] && ticks >= TotalWork(s.ready)
    ensures Simulate(s, ticks).done == Completions(Order(s.policy, s.ready), 0)
  {
    hide Execute, Choice, SimRun;
    var q, policy := s.ready, s.policy;
    var k := Choice(policy, q);
    var m := Begin(s);
    TotalWorkWithout(q, k);
    var c := Loaded(policy, q[k], 1);
    var m0 := m.(sys := m.sys.(ready := Without(q, k), cur := Some(c)));
    assert SimTick(m) == SimTick(m0);
    SameFirstTick(m, m0, ticks);
    RunsLoaded(m0, ticks);
    SameCompletions(c, q[k], Order(policy, Without(q, k)), 0);
  }

  // ---------------------------------------------------------------------------------------------
  // The order is a stable sort
  // ---------------------------------------------------------------------------------------------

  /** What the policy minimises. */
  function Key(policy: Policy, p: Pcb): int {
    match policy
    case Priority => 0 - p.priority
    case Sjf => p.burstTime
    case Srtf => p.remainingTime
    case _ => 0
  }

  lemma BetterIsSmallerKey(policy: Policy, a: Pcb, b: Pcb)
    ensures Better(policy, a, b) <==> Key(policy, a) < Key(policy, b)
  {
  }

  predicate SortedByKey(policy: Policy, q: seq<Pcb>) {
    forall i, j :: 0 <= i < j < |q| ==> Key(policy, q[i]) <= Key(policy, q[j])
  }

  /** The processes of one key, in queue order. */
  function WithKey(policy: Policy, q: seq<Pcb>, key: int): seq<Pcb> {
    if q == [] then [] else
      (if Key(policy, q[0]) == key then [q[0]] else []) + WithKey(policy, q[1..], key)
  }

  lemma {:induction false} WithKeyConcat(policy: Policy, a: seq<Pcb>, b: seq<Pcb>, key: int)
    ensures WithKey(policy, a + b, key) == WithKey(policy, a, key) + WithKey(policy, b, key)
  {
    hide Key;
    if a == [] {
      assert a + b == b;
    } else {
      assert (a + b)[1..] == a[1..] + b && (a + b)[0] == a[0];
      WithKeyConcat(policy, a[1..], b, key);
    }
  }

  lemma WithKeyNone(policy: Policy, q: seq<Pcb>, key: int)
    requires forall i :: 0 <= i < |q| ==> Key(policy, q[i]) != key
    ensures WithKey(policy, q, key) == []
  {
  }

  lemma WithKeyOne(policy: Policy, p: Pcb, key: int)
    ensures WithKey(policy, [p], key) == if Key(policy, p) == key then [p] else []
  {
  }

  lemma WithKeyAround(policy: Policy, q: seq<Pcb>, k: nat, key: int)
    requires k < |q|
    ensures WithKey(policy, q, key)
         == WithKey(policy, q[..k], key) + WithKey(policy, [q[k]], key) + WithKey(policy, q[k + 1..], key)
    ensures WithKey(policy, Without(q, k), key)
         == WithKey(policy, q[..k], key) + WithKey(policy, q[k + 1..], key)
  {
    assert q == q[..k] + [q[k]] + q[k + 1..];
    WithKeyConcat(policy, q[..k] + [q[k]], q[k + 1..], key);
    WithKeyConcat(policy, q[..k], [q[k]], key);
    WithKeyConcat(policy, q[..k], q[k + 1..], key);
  }

  /** No process before the choice has its key. */
  lemma ChoiceIsEarliest(policy: Policy, q: seq<Pcb>, i: nat)
    requires q != [] && i < |q|
    ensures Key(policy, q[Choice(policy, q)]) <= Key(policy, q[i])
    ensures i < Choice(policy, q) ==> Key(policy, q[i]) != Key(policy, q[Choice(policy, q)])
  {
    var k := Choice(policy, q);
    assert IsChoice(policy, q, k);
    BetterIsSmallerKey(policy, q[i], q[k]);
    BetterIsSmallerKey(policy, q[k], q[i]);
  }

  lemma WithKeyChoice(policy: Policy, q: seq<Pcb>, key: int)
    requires q != []
    ensures var k := Choice(policy, q);
      WithKey(policy, q, key) == WithKey(policy, [q[k]], key) + WithKey(policy, Without(q, k), key)
  {
    hide Choice, Without, Key, WithKey;
    var k := Choice(policy, q);
    WithKeyAround(policy, q, k, key);
    WithKeyOne(policy, q[k], key);
    if Key(policy, q[k]) == key {
      forall i | 0 <= i < k ensures Key(policy, q[..k][i]) != key {
        ChoiceIsEarliest(policy, q, i);
      }
      WithKeyNone(policy, q[..k], key);
    }
  }

  lemma OrderPermutes(policy: Policy, q: seq<Pcb>)
    ensures multiset(Order(policy, q)) == multiset(q)
    decreases |q|
  {
    hide Choice;
    if q != [] {
      var k := Choice(policy, q);
      OrderPermutes(policy, Without(q, k));
      assert q == q[..k] + [q[k]] + q[k + 1..];
    }
  }

  lemma OrderKeepsTies(policy: Policy, q: seq<Pcb>, key: int)
    ensures WithKey(policy, Order(policy, q), key) == WithKey(policy, q, key)
    decreases |q|
  {
    hide Choice;
    if q != [] {
      var k := Choice(policy, q);
      WithKeyChoice(policy, q, key);
      OrderKeepsTies(policy, Without(q, k), key);
      WithKeyConcat(policy, [q[k]], Order(policy, Without(q, k)), key);
    }
  }

  lemma OrderStartsSmallest(policy: Policy, q: seq<Pcb>, p: Pcb)
    requires q != [] && p in Without(q, Choice(policy, q))
    ensures Key(policy, q[Choice(policy, q)]) <= Key(policy, p)
  {
    hide Choice;
    var k := Choice(policy, q);
    var j :| 0 <= j < |q| && q[j] == p;
    ChoiceIsEarliest(policy, q, j);
  }

  lemma OrderSorts(policy: Policy, q: seq<Pcb>)
    ensures SortedByKey(policy, Order(policy, q))
    decreases |q|
  {
    hide Choice, Key, Better;
    if q != [] {
      var k := Choice(policy, q);
      var rest := Order(policy, Without(q, k));
      OrderSorts(policy, Without(q, k));
      OrderPermutes(policy, Without(q, k));
      forall i | 0 <= i < |rest| ensures Key(policy, q[k]) <= Key(policy, rest[i]) {
        assert rest[i] in multiset(rest);
        OrderStartsSmallest(policy, q, rest[i]);
      }
    }
  }

  /** The selection order is the queue sorted by key, equal keys staying in queue order. */
  lemma OrderIsStableSort(policy: Policy, q: seq<Pcb>)
    ensures multiset(Order(policy, q)) == multiset(q)
    ensures SortedByKey(policy, Order(policy, q))
    ensures forall key :: WithKey(policy, Order(policy, q), key) == WithKey(policy, q, key)
  {
    hide Order, WithKey, SortedByKey;
    OrderPermutes(policy, q);
    OrderSorts(policy, q);
    forall key ensures WithKey(policy, Order(policy, q), key) == WithKey(policy, q, key) {
      OrderKeepsTies(policy, q, key);
    }
  }

  /** Every queued process still has exactly its estimated burst to run. */
  predicate Unstarted(q: seq<Pcb>) {
    forall i :: 0 <= i < |q| ==> q[i].remainingTime == q[i].burstTime
  }

  /** Sorting by burst is sorting by work when the bursts are the remaining times. */
  lemma BurstOrderIsWorkOrder(q: seq<Pcb>)
    requires Unstarted(q)
    ensures SortedByWork(Order(Sjf, q))
  {
    hide Order;
    var order := Order(Sjf, q);
    OrderPermutes(Sjf, q);
    OrderSorts(Sjf, q);
    forall i | 0 <= i < |order| ensures order[i].remainingTime == order[i].burstTime {
      assert order[i] in multiset(order);
      assert order[i] in q;
    }
    forall i, j | 0 <= i < j < |order| ensures Work(order[i]) <= Work(order[j]) {
      assert Key(Sjf, order[i]) <= Key(Sjf, order[j]);
    }
  }

  lemma RemainingOrderIsWorkOrder(q: seq<Pcb>)
    ensures SortedByWork(Order(Srtf, q))
  {
    hide Order;
    var order := Order(Srtf, q);
    OrderSorts(Srtf, q);
    forall i, j | 0 <= i < j < |order| ensures Work(order[i]) <= Work(order[j]) {
      assert Key(Srtf, order[i]) <= Key(Srtf, order[j]);
    }
  }

  /** The SJF simulation completes the queue sorted by burst, ties in queue order, and the sum of
      its finish ticks is the least that any order of the same processes can have. */
  lemma SjfIsOptimal(s: Sys, ticks: nat)
    requires s.policy.Sjf? && s.ready != [] && Unstarted(s.ready) && ticks >= TotalWork(s.ready)
    ensures var order := Order(Sjf, s.ready);
      && Simulate(s, ticks).done == Completions(order, 0)
      && SortedByKey(Sjf, order) && (forall burst :: WithKey(Sjf, order, burst) == WithKey(Sjf, s.ready, burst))
      && MinimalFlow(order) && multiset(order) == multiset(s.ready)
  {
    hide Order, Simulate, WithKey, SortedByKey, MinimalFlow, Completions, SortedByWork;
    UnslicedSimulation(s, ticks);
    OrderIsStableSort(Sjf, s.ready);
    BurstOrderIsWorkOrder(s.ready);
    OptimalIffSorted(Order(Sjf, s.ready));
  }

  lemma FcfsOrder(q: seq<Pcb>)
    ensures Order(Fcfs, q) == q
    decreases |q|
  {
    hide Choice, IsChoice;
    if q != [] {
      ChoiceIsHead(Fcfs, q);
      assert Without(q, 0) == q[1..];
      FcfsOrder(q[1..]);
    }
  }

  /** In particular SJF does at least as well as FCFS on the same queue. */
  lemma SjfBeatsFcfs(s: Sys, ticks: nat)
    requires s.policy.Sjf? && s.ready != [] && Unstarted(s.ready) && ticks >= TotalWork(s.ready)
    ensures Simulate(s.(policy := Fcfs), ticks).done == Completions(s.ready, 0)
    ensures FinishSum(Simulate(s, ticks).done) <= FinishSum(Simulate(s.(policy := Fcfs), ticks).done)
  {
    hide Order, Simulate, WithKey, SortedByKey, Completions, FinishSum;
    SjfIsOptimal(s, ticks);
    UnslicedSimulation(s.(policy := Fcfs), ticks);
    FcfsOrder(s.ready);
  }

  /** Process i of the queue is selected before process j: its key is smaller, or equal and i is ahead. */
  predicate Before(policy: Policy, q: seq<Pcb>, i: nat, j: nat)
    requires i < |q| && j < |q|
  {
    Key(policy, q[i]) < Key(policy, q[j]) || (Key(policy, q[i]) == Key(policy, q[j]) && i < j)
  }

  /** The key never puts a longer process before a shorter one. */
  predicate KeysFollowWork(policy: Policy, q: seq<Pcb>) {
    forall i, j :: 0 <= i < |q| && 0 <= j < |q| && Before(policy, q, i, j) ==> Work(q[i]) <= Work(q[j])
  }

  lemma ChoiceIsBefore(policy: Policy, q: seq<Pcb>, j: nat)
    requires q != [] && j < |q| && j != Choice(policy, q)
    ensures Before(policy, q, Choice(policy, q), j)
  {
    hide Choice;
    ChoiceIsEarliest(policy, q, j);
  }

  /** Where process i of the rest was before the one at k was taken out. */
  function Earlier(k: nat, i: nat): nat {
    if i < k then i else i + 1
  }

  lemma BeforeWithout(policy: Policy, q: seq<Pcb>, k: nat, i: nat, j: nat)
    requires k < |q| && i < |q| - 1 && j < |q| - 1
    ensures Without(q, k)[i] == q[Earlier(k, i)] && Without(q, k)[j] == q[Earlier(k, j)]
    ensures Before(policy, Without(q, k), i, j) <==> Before(policy, q, Earlier(k, i), Earlier(k, j))
  {
    hide Key;
  }

  /** Taking the first choice out of the queue leaves the others in the same relative order. */
  lemma KeysFollowRest(policy: Policy, q: seq<Pcb>, k: nat)
    requires k < |q| && (forall j :: 0 <= j < |q| && j != k ==> Before(policy, q, k, j)) && KeysFollowWork(policy, q)
    ensures KeysFollowWork(policy, Without(q, k))
    ensures forall i :: 0 <= i < |q| - 1 ==> Work(q[k]) <= Work(Without(q, k)[i])
  {
    hide Work, Before;
    var r := Without(q, k);
    forall i, j | 0 <= i < |q| - 1 && 0 <= j < |q| - 1 && Before(policy, r, i, j) ensures Work(r[i]) <= Work(r[j]) {
      BeforeWithout(policy, q, k, i, j);
    }
    forall i | 0 <= i < |q| - 1 ensures Work(q[k]) <= Work(r[i]) {
      BeforeWithout(policy, q, k, i, i);
      assert Before(policy, q, k, Earlier(k, i));
    }
  }

  lemma RestFollows(policy: Policy, q: seq<Pcb>, k: nat, i: nat, j: nat)
    requires k < |q| && KeysFollowWork(policy, Without(q, k)) && i < |q| && j < |q| && Before(policy, q, i, j)
    requires forall j :: 0 <= j < |q| && j != k ==> Before(policy, q, k, j)
    requires forall i :: 0 <= i < |q| - 1 ==> Work(q[k]) <= Work(Without(q, k)[i])
    ensures Work(q[i]) <= Work(q[j])
  {
    hide Work;
    var i' := if i < k then i else i - 1;
    var j' := if j < k then j else j - 1;
    if i == k && j != k {
      BeforeWithout(policy, q, k, j', j');
    } else if i != k {
      assert Before(policy, q, k, i);
      assert j != k;
      BeforeWithout(policy, q, k, i', j');
    }
  }

  lemma KeysFollowWithout(policy: Policy, q: seq<Pcb>, k: nat)
    requires k < |q| && forall j :: 0 <= j < |q| && j != k ==> Before(policy, q, k, j)
    ensures KeysFollowWork(policy, q) <==>
      KeysFollowWork(policy, Without(q, k)) && forall i :: 0 <= i < |q| - 1 ==> Work(q[k]) <= Work(Without(q, k)[i])
  {
    hide Work, Before;
    if KeysFollowWork(policy, q) {
      KeysFollowRest(policy, q, k);
    } else {
      var i, j :| 0 <= i < |q| && 0 <= j < |q| && Before(policy, q, i, j) && Work(q[i]) > Work(q[j]);
      var r := Without(q, k);
      if KeysFollowWork(policy, r) && forall i :: 0 <= i < |r| ==> Work(q[k]) <= Work(r[i]) {
        RestFollows(policy, q, k, i, j);
      }
    }
  }

  lemma SortedCons(p: Pcb, q: seq<Pcb>)
    ensures SortedByWork([p] + q) <==> SortedByWork(q) && forall i :: 0 <= i < |q| ==> Work(p) <= Work(q[i])
  {
    hide Work;
    var r := [p] + q;
    assert forall i :: 0 <= i < |q| ==> r[i + 1] == q[i];
    if SortedByWork(r) {
      forall i, j | 0 <= i < j < |q| ensures Work(q[i]) <= Work(q[j]) {
        assert r[i + 1] == q[i] && r[j + 1] == q[j];
      }
      forall i | 0 <= i < |q| ensures Work(p) <= Work(q[i]) {
        assert r[0] == p && r[i + 1] == q[i];
      }
    }
  }

  lemma LeastOfBoth(p: Pcb, a: seq<Pcb>, b: seq<Pcb>)
    requires multiset(a) == multiset(b) && forall i :: 0 <= i < |a| ==> Work(p) <= Work(a[i])
    ensures forall i :: 0 <= i < |b| ==> Work(p) <= Work(b[i])
  {
    forall i | 0 <= i < |b| ensures Work(p) <= Work(b[i]) {
      assert b[i] in multiset(a);
    }
  }

  lemma NothingToSort(policy: Policy)
    ensures SortedByWork([]) && KeysFollowWork(policy, [])
  {
  }

  lemma {:induction false} OrderSortedIff(policy: Policy, q: seq<Pcb>)
    ensures SortedByWork(Order(policy, q)) <==> KeysFollowWork(policy, q)
    decreases |q|
  {
    hide Choice, SortedByWork, KeysFollowWork, Before, Work;
    if q == [] {
      NothingToSort(policy);
    } else {
      var k := Choice(policy, q);
      var rest := Order(policy, Without(q, k));
      forall j | 0 <= j < |q| && j != k ensures Before(policy, q, k, j) {
        ChoiceIsBefore(policy, q, j);
      }
      KeysFollowWithout(policy, q, k);
      OrderSortedIff(policy, Without(q, k));
      SortedCons(q[k], rest);
      OrderPermutes(policy, Without(q, k));
      if forall i :: 0 <= i < |rest| ==> Work(q[k]) <= Work(rest[i]) {
        LeastOfBoth(q[k], rest, Without(q, k));
      } else if forall i :: 0 <= i < |q| - 1 ==> Work(q[k]) <= Work(Without(q, k)[i]) {
        LeastOfBoth(q[k], Without(q, k), rest);
      }
    }
  }

  /** No order of the same processes has a smaller sum of finish ticks than the simulation. */
  ghost predicate Optimal(s: Sys, ticks: nat) {
    forall other: seq<Pcb> | multiset(other) == multiset(s.ready) ::
      FinishSum(Simulate(s, ticks).done) <= FinishSum(Completions(other, 0))
  }

  /** A policy without slices is optimal on a queue exactly when its key never puts a longer process
      before a shorter one; FCFS, whose key is constant, when the queue itself is sorted. */
  lemma UnslicedOptimalIff(s: Sys, ticks: nat)
    requires !Sliced(s.policy) && s.ready != [] && ticks >= TotalWork(s.ready)
    ensures Optimal(s, ticks) <==> KeysFollowWork(s.policy, s.ready)
  {
    hide Order, Simulate, Completions, SortedByWork, KeysFollowWork, FinishSum;
    UnslicedSimulation(s, ticks);
    OrderPermutes(s.policy, s.ready);
    OptimalIffSorted(Order(s.policy, s.ready));
    OrderSortedIff(s.policy, s.ready);
  }

  /** For any estimates, SJF is optimal exactly when no process with a smaller estimate, or with the same
      one further ahead in the queue, has more work to do. */
  lemma SjfOptimalIff(s: Sys, ticks: nat)
    requires s.policy.Sjf? && s.ready != [] && ticks >= TotalWork(s.ready)
    ensures Optimal(s, ticks) <==>
      forall i, j :: 0 <= i < |s.ready| && 0 <= j < |s.ready|
        && (s.ready[i].burstTime < s.ready[j].burstTime
            || (s.ready[i].burstTime == s.ready[j].burstTime && i < j))
        ==> Work(s.ready[i]) <= Work(s.ready[j])
  {
    hide Optimal;
    UnslicedOptimalIff(s, ticks);
    assert forall i, j :: 0 <= i < |s.ready| && 0 <= j < |s.ready| ==>
      (Before(Sjf, s.ready, i, j) <==>
       s.ready[i].burstTime < s.ready[j].burstTime || (s.ready[i].burstTime == s.ready[j].burstTime && i < j));
  }

  /** The SRTF simulation, which never preempts, sorts by remaining time and so is always optimal. */
  lemma SrtfIsOptimal(s: Sys, ticks: nat)
    requires s.policy.Srtf? && s.ready != [] && ticks >= TotalWork(s.ready)
    ensures Simulate(s, ticks).done == Completions(Order(Srtf, s.ready), 0)
    ensures MinimalFlow(Order(Srtf, s.ready)) && multiset(Order(Srtf, s.ready)) == multiset(s.ready)
  {
    hide Order, Simulate, MinimalFlow, Completions, SortedByWork;
    UnslicedSimulation(s, ticks);
    OrderPermutes(Srtf, s.ready);
    RemainingOrderIsWorkOrder(s.ready);
    OptimalIffSorted(Order(Srtf, s.ready));
  }
}
