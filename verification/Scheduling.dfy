/** scheduler.c on the heap: the globals, the linked queues and the journal array, updated in place.
    Every method is proved to take the step of module SchedulerModel on its view. */
module Scheduling {
  import opened Words
  import opened Wrappers
  import opened Processes
  import opened SchedulerModel
  import opened SchedulerRuns
  import opened Journal
  import opened ProcessQueues
  import opened Simulation

  class Scheduler {
    ghost const processes: set<Process>
    const ready: Queue
    const level0: Queue
    const level1: Queue
    const level2: Queue
    const execLog: array<LogEntry>
    var policy: Policy
    var current: Process?
    var execLogIndex: nat
    var switches: nat
    var lastBoost: nat
    var now: nat
    ghost var log: seq<LogEntry>
    /** The one queue that holds a queued process. */
    ghost var home: map<Process, Queue>

    /** A well-formed queue that holds exactly the processes at home in it. */
    ghost predicate QueueOk(q: Queue)
      reads `home, q, q.Contents
    {
      && q.Valid()
      && (forall p :: p in q.Contents ==> p in home && home[p] == q)
      && (forall p :: p in home && home[p] == q ==> p in q.Contents)
    }

    ghost predicate IsQueue(q: Queue) {
      q == ready || q == level0 || q == level1 || q == level2
    }

    ghost predicate QueuesOk()
      reads `home, ready, level0, level1, level2, ready.Contents, level0.Contents, level1.Contents, level2.Contents
    {
      && ready != level0 && ready != level1 && ready != level2
      && level0 != level1 && level0 != level2 && level1 != level2
      && QueueOk(ready) && QueueOk(level0) && QueueOk(level1) && QueueOk(level2)
      && (forall p :: p in home ==> p in processes && IsQueue(home[p]))
    }

    /** The scheduler as a value. */
    ghost function View(): Sys
      reads `policy, `now, `lastBoost, `current, `log, `switches, ready, level0, level1, level2, current
    {
      Sys(policy, now, lastBoost, ready.View, level0.View, level1.View, level2.View,
          if current == null then None else Some(current.Value()), log, switches)
    }

    /** The queues are sound, the process on the CPU is in none of them, and the journal array
        stores the log. */
    ghost predicate Structured()
      reads `home, `current, `log, `execLogIndex, `lastBoost, `now, execLog, processes,
            ready, level0, level1, level2, ready.Contents, level0.Contents, level1.Contents, level2.Contents
    {
      && QueuesOk()
      && (current != null ==> current in processes && current !in home)
      && (forall p :: p in processes ==> p.level < MLFQ_LEVELS)
      && Stores(execLog[..], execLogIndex, log)
      && lastBoost <= now
    }

    ghost predicate UniquePids() {
      DistinctPids(processes)
    }

    /** Every process in at most one place: queued means READY, current means RUNNING and in no
        queue, and the queues the policy does not use are empty. */
    ghost predicate Valid()
      reads this, execLog, processes,
            ready, level0, level1, level2, ready.Contents, level0.Contents, level1.Contents, level2.Contents
    {
      && Structured()
      && UniquePids()
      && Disciplined(View())
    }

    /** The processes that are queued or on the CPU. */
    ghost function HeldBy(): set<Process>
      reads `home, `current
    {
      home.Keys + if current == null then {} else {current}
    }

    /** The scheduler with the processes it does not hold, the state of module SchedulerRuns. */
    ghost function WorldOf(): World
      requires UniquePids()
      reads `policy, `now, `lastBoost, `current, `log, `switches, `home,
            ready, level0, level1, level2, current, processes
    {
      World(View(), ByPid(processes - HeldBy()))
    }

    lemma NobodyHeld()
      requires UniquePids() && home == map[] && current == null
      ensures WorldOf() == World(View(), ByPid(processes))
    {
      assert processes - HeldBy() == processes;
    }

    lemma EmptyOk()
      requires ready != level0 && ready != level1 && ready != level2
      requires level0 != level1 && level0 != level2 && level1 != level2
      requires ready.Valid() && level0.Valid() && level1.Valid() && level2.Valid()
      requires ready.View == [] && level0.View == [] && level1.View == [] && level2.View == []
      requires home == map[] && current == null && execLogIndex == 0 && log == [] && lastBoost == 0
      requires execLog.Length == LOG_SIZE && forall p :: p in processes ==> p.level < MLFQ_LEVELS
      ensures Structured() && Disciplined(View())
    {
    }

    /** scheduler_init. */
    constructor (policy: Policy, now: nat, ghost processes: set<Process>, blank: LogEntry)
      requires forall p :: p in processes ==> p.level < MLFQ_LEVELS
      requires DistinctPids(processes)
      ensures Valid() && this.processes == processes && View() == Init(policy, now)
      ensures WorldOf() == World(Init(policy, now), ByPid(processes))
      ensures fresh(ready) && fresh(level0) && fresh(level1) && fresh(level2) && fresh(execLog)
    {
      this.processes := processes;
      this.policy := policy;
      this.now := now;
      ready := new Queue();
      level0 := new Queue();
      level1 := new Queue();
      level2 := new Queue();
      execLog := new LogEntry[LOG_SIZE](_ => blank);
      current, execLogIndex, switches, lastBoost, log, home := null, 0, 0, 0, [], map[];
      new;
      hide Structured, Disciplined, Stores, QueuesOk, WorldOf, ByPid, DistinctPids;
      EmptyOk();
      NobodyHeld();
    }

    /** The scheduler holds the same processes as before, and nothing has happened to the others. */
    twostate predicate OthersKept()
      reads `home, `current, processes
    {
      && HeldBy() == old(HeldBy())
      && forall p :: p in processes && p !in HeldBy() ==> p.Value() == old(p.Value())
    }

    twostate lemma HomesKept()
      requires home.Keys == old(home).Keys && current == old(current)
      requires forall p :: p in processes && p !in old(home) ==> p.Value() == old(p.Value())
      ensures OthersKept()
    {
    }

    /** The process on the CPU was exchanged for a queued one. */
    twostate lemma ExchangeKept(new keys: set<Process>)
      requires old(current) != null && keys == old(home).Keys + {old(current)}
      requires current != null && current in keys && home.Keys == keys - {current}
      requires forall p :: p in processes && p != current && p != old(current) ==> p.Value() == old(p.Value())
      ensures OthersKept()
    {
    }

    /** A boost, a change of policy or a tick is a step of the world when it is one of the scheduler and
        leaves the other processes alone. */
    twostate lemma StepOfWorld(e: Event)
      requires UniquePids() && OthersKept() && (e.BoostAll? || e.ChangePolicy? || e.Timer?)
      requires View() == SchedulerRuns.Next(World(old(View()), map[]), e).sys
      ensures WorldOf() == SchedulerRuns.Next(old(WorldOf()), e)
    {
      hide Boost, SetPolicy, TimerTick, View;
      ByPidSame(processes - HeldBy());
    }

    /** The view without the process on the CPU. */
    ghost function Idle(): Sys
      reads `policy, `now, `lastBoost, `current, `log, `switches, ready, level0, level1, level2, current
    {
      View().(cur := None)
    }

    /** A queue stays as it is when neither it, nor its processes, nor their homes are touched. */
    twostate lemma StillOk(q: Queue)
      requires old(QueueOk(q)) && unchanged(q) && forall p :: p in q.Contents ==> unchanged(p)
      requires forall p :: p in home && home[p] == q ==> p in old(home) && old(home)[p] == q
      requires forall p :: p in old(home) && old(home)[p] == q ==> p in home && home[p] == q
      ensures QueueOk(q)
    {
      forall i | 0 <= i < |q.Contents| ensures Linked(q.Contents, q.View, i) {
        assert old(Linked(q.Contents, q.View, i));
        assert q.Contents[i] in q.Contents;
      }
    }

    /** The queues stay as they are when only processes outside them are touched. */
    twostate lemma QueuesStillOk()
      requires old(QueuesOk()) && home == old(home) && forall p :: p in home ==> unchanged(p)
      requires unchanged(ready) && unchanged(level0) && unchanged(level1) && unchanged(level2)
      ensures QueuesOk()
    {
      StillOk(ready);
      StillOk(level0);
      StillOk(level1);
      StillOk(level2);
    }

    twostate lemma OtherOk(other: Queue, new q: Queue)
      requires old(QueueOk(other)) && unchanged(other) && other != q
      requires forall p :: p in old(home) && old(home)[p] != q ==> unchanged(p)
      requires forall p :: p in old(home) && old(home)[p] != q ==> p in home && home[p] == old(home)[p]
      requires forall p :: p in home && home[p] != q ==> p in old(home) && old(home)[p] == home[p]
      ensures QueueOk(other)
    {
      StillOk(other);
    }

    /** Three queues stay as they are when only the fourth and its processes are touched. */
    twostate lemma OthersOk(q: Queue)
      requires old(QueuesOk()) && IsQueue(q) && QueueOk(q)
      requires q != ready ==> unchanged(ready)
      requires q != level0 ==> unchanged(level0)
      requires q != level1 ==> unchanged(level1)
      requires q != level2 ==> unchanged(level2)
      requires forall p :: p in old(home) && old(home)[p] != q ==> unchanged(p)
      requires forall p :: p in old(home) && old(home)[p] != q ==> p in home && home[p] == old(home)[p]
      requires forall p :: p in home && home[p] != q ==> p in old(home) && old(home)[p] == home[p]
      requires forall p :: p in home ==> p in processes
      ensures QueuesOk()
    {
      hide QueueOk;
      if q != ready { OtherOk(ready, q); }
      if q != level0 { OtherOk(level0, q); }
      if q != level1 { OtherOk(level1, q); }
      if q != level2 { OtherOk(level2, q); }
    }

    /** The head of a queue has left it. */
    twostate lemma HeadTaken(q: Queue, new p: Process)
      requires old(QueueOk(q)) && q.Valid() && old(q.Contents) != []
      requires p == old(q.Contents)[0] && q.Contents == old(q.Contents)[1..] && home == old(home) - {p}
      ensures QueueOk(q)
    {
    }

    lemma KnownMembers(q: Queue)
      requires QueuesOk() && IsQueue(q)
      ensures QueueOk(q) && forall p :: p in home ==> p in processes
    {
    }

    /** One queue of the four gives up its head. */
    method TakeHead(q: Queue) returns (p: Process)
      requires QueuesOk() && IsQueue(q) && q.Contents != []
      modifies `home, q, processes`next
      ensures QueuesOk() && p in processes && home == old(home) - {p} && p in old(home)
      ensures p == old(q.Contents)[0] && p.Value() == old(q.View)[0]
      ensures q.View == old(q.View)[1..]
    {
      hide Process.Value, QueuesOk;
      KnownMembers(q);
      var head := q.Dequeue();
      p := head;
      home := home - {p};
      HeadTaken(q, p);
      OthersOk(q);
    }

    /** A process has joined a queue. */
    twostate lemma Appended(q: Queue, new p: Process)
      requires old(QueueOk(q)) && q.Valid() && p !in old(home)
      requires q.Contents == old(q.Contents) + [p] && home == old(home)[p := q]
      ensures QueueOk(q)
    {
    }

    /** A process that is in no queue joins the tail of one. */
    method Append(q: Queue, p: Process)
      requires QueuesOk() && IsQueue(q) && p in processes && p !in home
      modifies `home, q, processes`next
      ensures QueuesOk() && home == old(home)[p := q]
      ensures q.View == old(q.View) + [p.Value()]
    {
      hide Process.Value, QueuesOk;
      KnownMembers(q);
      q.Enqueue(p);
      home := home[p := q];
      Appended(q, p);
      OthersOk(q);
    }

    lemma DistinctQueues()
      requires QueuesOk()
      ensures ready != level0 && ready != level1 && ready != level2
      ensures level0 != level1 && level0 != level2 && level1 != level2
    {
    }

    lemma HeadOfQueue(q: Queue)
      requires QueuesOk() && IsQueue(q)
      ensures q.head == null <==> q.Contents == []
      ensures |q.View| == |q.Contents|
    {
    }

    // -------------------------------------------------------------------------------------------
    // Selection
    // -------------------------------------------------------------------------------------------

    /** A process has left a queue from wherever it was. */
    twostate lemma Taken(q: Queue, new k: nat)
      requires old(QueueOk(q)) && q.Valid() && k < |old(q.Contents)|
      requires q.Contents == Without(old(q.Contents), k) && home == old(home) - {old(q.Contents)[k]}
      ensures QueueOk(q)
    {
      WithoutMembers(old(q.Contents), k);
      hide Without;
    }

    /** Nothing has left a queue. */
    twostate lemma Untouched(q: Queue)
      requires old(QueueOk(q)) && q.Valid() && q.Contents == old(q.Contents) && home == old(home)
      ensures QueueOk(q)
    {
    }

    /** queue_remove on one of the four queues: k is the position of the process, or the length of
        the queue when the process is not there. */
    method TakeAt(q: Queue, p: Process, ghost k: nat)
      requires QueuesOk() && IsQueue(q) && k <= |q.Contents|
      requires if k < |q.Contents| then q.Contents[k] == p else p !in q.Contents
      modifies `home, q, processes`next
      ensures QueuesOk()
      ensures k < |old(q.Contents)| ==>
        && p in processes && p in old(home) && home == old(home) - {p}
        && p.Value() == old(q.View)[k] && q.View == Without(old(q.View), k)
      ensures k == |old(q.Contents)| ==> home == old(home) && q.View == old(q.View)
    {
      hide Process.Value, QueuesOk;
      KnownMembers(q);
      q.Remove(p);
      if k < |old(q.Contents)| {
        assert old(Linked(q.Contents, q.View, k));
        home := home - {p};
        Taken(q, k);
      } else {
        Untouched(q);
      }
      OthersOk(q);
    }

    /** The process p has been selected: it left its queue, and nothing else about it changed. */
    twostate predicate Selected(new p: Process?)
      reads this, ready, level0, level1, level2, current, p
    {
      && Select(old(Idle())) == Selection(if p == null then None else Some(p.Value()), Idle())
      && (p == null ==> home == old(home))
      && (p != null ==> p in processes && p in old(home) && home == old(home) - {p})
    }

    /** select_next_fcfs and select_next_round_robin. */
    method SelectHead() returns (p: Process?)
      requires QueuesOk() && (policy.Fcfs? || policy.RoundRobin?)
      modifies `home, ready, level0, level1, level2, processes`next
      ensures QueuesOk() && Selected(p)
    {
      hide Choice, IsChoice, QueuesOk, Process.Value;
      DistinctQueues();
      HeadOfQueue(ready);
      ChoiceIsHead(policy, ready.View);
      if ready.head == null {
        return null;
      }
      p := TakeHead(ready);
    }

    method SelectMlfq() returns (p: Process?)
      requires QueuesOk() && policy.Mlfq?
      modifies `home, ready, level0, level1, level2, processes`next
      ensures QueuesOk() && Selected(p)
    {
      hide QueuesOk, Process.Value;
      DistinctQueues();
      HeadOfQueue(level0);
      HeadOfQueue(level1);
      HeadOfQueue(level2);
      if level0.head != null {
        p := TakeHead(level0);
      } else if level1.head != null {
        p := TakeHead(level1);
      } else if level2.head != null {
        p := TakeHead(level2);
      } else {
        p := null;
      }
    }

    method TakeChoice(p: Process)
      requires QueuesOk() && !policy.Mlfq? && ready.Contents != []
      requires p == ready.Contents[Choice(policy, ready.View)]
      modifies `home, ready, level0, level1, level2, processes`next
      ensures QueuesOk() && Selected(p)
    {
      hide Choice, Process.Value, QueuesOk;
      DistinctQueues();
      HeadOfQueue(ready);
      TakeAt(ready, p, Choice(policy, ready.View));
    }

    /** select_next_priority, select_next_sjf and select_next_srtf. */
    method SelectBest() returns (p: Process?)
      requires QueuesOk() && (policy.Priority? || policy.Sjf? || policy.Srtf?)
      modifies `home, ready, level0, level1, level2, processes`next
      ensures QueuesOk() && Selected(p)
    {
      hide Choice, Process.Value, IsChoice;
      DistinctQueues();
      HeadOfQueue(ready);
      match policy {
        case Priority => p := FindHighestPriority(ready);
        case Sjf => p := FindShortestJob(ready);
        case _ => p := FindShortestRemaining(ready);
      }
      if p == null {
        return;
      }
      hide Select;
      TakeChoice(p);
    }

    /** select_next_process. */
    method SelectNext() returns (p: Process?)
      requires QueuesOk()
      modifies `home, ready, level0, level1, level2, processes`next
      ensures QueuesOk() && Selected(p)
    {
      hide QueuesOk, Select;
      match policy
      case Mlfq => p := SelectMlfq();
      case Priority => p := SelectBest();
      case Sjf => p := SelectBest();
      case Srtf => p := SelectBest();
      case _ => p := SelectHead();
    }

    // -------------------------------------------------------------------------------------------
    // Moving processes between queues
    // -------------------------------------------------------------------------------------------

    /** The process joins the queue its policy and level call for. */
    method PutInQueue(p: Process)
      requires QueuesOk() && p in processes && p !in home
      modifies `home, ready, level0, level1, level2, processes`next
      ensures QueuesOk() && Idle() == Enqueue(old(Idle()), p.Value())
      ensures home.Keys == old(home).Keys + {p}
    {
      hide QueuesOk, Process.Value;
      DistinctQueues();
      FieldsOf(p);
      if policy.Mlfq? {
        if p.level == 0 {
          Append(level0, p);
        } else if p.level == 1 {
          Append(level1, p);
        } else {
          Append(level2, p);
        }
      } else {
        Append(ready, p);
      }
    }

    /** What the boost and the change to MLFQ do to a process between its two queues. */
    method Refresh(p: Process)
      requires QueuesOk() && p !in home
      modifies p`level, p`allotment, p`timeSlice, p`remainingSlice
      ensures QueuesOk() && p.level == 0 && p.Value() == Refreshed(old(p.Value()))
    {
      p.level := 0;
      p.allotment := FULL_ALLOTMENT;
      p.timeSlice := Quantum(0);
      p.remainingSlice := p.timeSlice;
      QueuesStillOk();
    }

    /** The head of one queue joins the tail of another, refreshed or as it is. */
    method MoveOne(source: Queue, target: Queue, refresh: bool)
      requires QueuesOk() && IsQueue(source) && IsQueue(target) && source != target && source.Contents != []
      requires |source.View| == |source.Contents|
      modifies `home, source, target, processes`next, processes`level, processes`allotment,
               processes`timeSlice, processes`remainingSlice
      ensures QueuesOk() && home.Keys == old(home).Keys
      ensures source.View == old(source.View)[1..]
      ensures target.View ==
        old(target.View) + [if refresh then Refreshed(old(source.View)[0]) else old(source.View)[0]]
      ensures forall p :: p in processes && p !in old(home) ==> p.Value() == old(p.Value())
      ensures forall p :: p in processes ==> p.level == old(p.level) || p.level == 0
    {
      hide Process.Value, QueuesOk, IsQueue, Refreshed;
      var p := TakeHead(source);
      if refresh {
        Refresh(p);
      }
      Append(target, p);
    }

    /** Every process of one queue, in order, joins the tail of another, refreshed or as it is. */
    method MoveAll(source: Queue, target: Queue, refresh: bool)
      requires QueuesOk() && IsQueue(source) && IsQueue(target) && source != target
      modifies `home, source, target, processes`next, processes`level, processes`allotment,
               processes`timeSlice, processes`remainingSlice
      ensures QueuesOk() && home.Keys == old(home).Keys && source.View == []
      ensures target.View == old(target.View) + if refresh then RefreshAll(old(source.View)) else old(source.View)
      ensures forall p :: p in processes && p !in old(home) ==> p.Value() == old(p.Value())
      ensures forall p :: p in processes ==> p.level == old(p.level) || p.level == 0
    {
      hide Process.Value, QueuesOk, RefreshAll;
      ghost var k := 0;
      ghost var all := source.View;
      HeadOfQueue(source);
      RefreshNone(all);
      while source.head != null
        invariant QueuesOk() && home.Keys == old(home).Keys
        invariant k <= |all| && source.View == all[k..] && |source.View| == |source.Contents|
        invariant source.head == null <==> source.Contents == []
        invariant target.View == old(target.View) + if refresh then RefreshAll(all[..k]) else all[..k]
        invariant forall p :: p in processes && p !in old(home) ==> p.Value() == old(p.Value())
        invariant forall p :: p in processes ==> p.level == old(p.level) || p.level == 0
        decreases |source.View|
      {
        RefreshNext(all, k);
        MoveOne(source, target, refresh);
        k := k + 1;
        HeadOfQueue(source);
      }
      assert all[..k] == all;
    }

    /** The boost under MLFQ: all go on top. */
    method LiftLevels()
      requires Structured() && policy.Mlfq?
      modifies `home, `lastBoost, level0, level1, level2, processes`next, processes`level,
               processes`allotment, processes`timeSlice, processes`remainingSlice
      ensures Structured() && home.Keys == old(home).Keys && View() == Boost(old(View()))
      ensures forall p :: p in processes && p !in old(home) ==> p.Value() == old(p.Value())
    {
      hide Process.Value, QueuesOk, RefreshAll, Stores;
      DistinctQueues();
      MoveAll(level1, level0, true);
      MoveAll(level2, level0, true);
      lastBoost := now;
    }

    lemma BoostIsIdle(s: Sys)
      requires !s.policy.Mlfq?
      ensures Boost(s) == s
    {
    }

    /** scheduler_mlfq_boost. */
    method MlfqBoost()
      requires Valid()
      modifies `home, `lastBoost, level0, level1, level2, processes`next, processes`level,
               processes`allotment, processes`timeSlice, processes`remainingSlice
      ensures Valid() && OthersKept() && View() == Boost(old(View()))
      ensures WorldOf() == SchedulerRuns.Next(old(WorldOf()), BoostAll)
    {
      hide Process.Value, Structured, Boost, Disciplined, OthersKept, WorldOf, DistinctPids;
      BoostPlaces(View(), 0);
      if policy.Mlfq? {
        LiftLevels();
      } else {
        BoostIsIdle(View());
      }
      HomesKept();
      StepOfWorld(BoostAll);
    }

    /** From MLFQ to another policy: the levels are joined, highest first. */
    method MergeLevels()
      requires QueuesOk() && (current != null ==> current in processes && current !in home)
      requires forall p :: p in processes ==> p.level < MLFQ_LEVELS
      modifies `home, ready, level0, level1, level2, processes`next, processes`level, processes`allotment,
               processes`timeSlice, processes`remainingSlice
      ensures QueuesOk() && home.Keys == old(home).Keys
      ensures forall p :: p in processes && p !in old(home) ==> p.Value() == old(p.Value())
      ensures forall p :: p in processes ==> p.level < MLFQ_LEVELS
      ensures var s := old(View());
        View() == s.(ready := s.ready + s.q0 + s.q1 + s.q2, q0 := [], q1 := [], q2 := [])
    {
      hide Process.Value, QueuesOk, RefreshAll;
      DistinctQueues();
      MoveAll(level0, ready, false);
      MoveAll(level1, ready, false);
      MoveAll(level2, ready, false);
    }

    /** The moves of scheduler_set_type: from MLFQ the levels are joined, to MLFQ all go on top. */
    method Migrate(newPolicy: Policy)
      requires Structured()
      modifies `home, `lastBoost, ready, level0, level1, level2, processes`next, processes`level,
               processes`allotment, processes`timeSlice, processes`remainingSlice
      ensures Structured() && home.Keys == old(home).Keys
      ensures forall p :: p in processes && p !in old(home) ==> p.Value() == old(p.Value())
      ensures View() == SetPolicy(old(View()), newPolicy).(policy := policy)
    {
      hide Process.Value, QueuesOk, RefreshAll, Stores;
      DistinctQueues();
      if policy.Mlfq? && !newPolicy.Mlfq? {
        MergeLevels();
      } else if !policy.Mlfq? && newPolicy.Mlfq? {
        MoveAll(ready, level0, true);
        lastBoost := now;
      }
    }

    lemma NewPolicy(s: Sys, newPolicy: Policy, s': Sys)
      requires s'.policy == newPolicy && s'.(policy := s.policy) == SetPolicy(s, newPolicy).(policy := s.policy)
      ensures s' == SetPolicy(s, newPolicy)
    {
    }

    /** scheduler_set_type. */
    method SetType(newPolicy: Policy)
      requires Valid()
      modifies `home, `lastBoost, `policy, ready, level0, level1, level2, processes`next, processes`level,
               processes`allotment, processes`timeSlice, processes`remainingSlice
      ensures Valid() && OthersKept() && View() == SetPolicy(old(View()), newPolicy)
      ensures WorldOf() == SchedulerRuns.Next(old(WorldOf()), ChangePolicy(newPolicy))
    {
      hide Process.Value, QueuesOk, RefreshAll, Stores, Disciplined, SetPolicy, OthersKept, WorldOf;
      SetPolicyPlaces(View(), newPolicy, 0);
      Migrate(newPolicy);
      policy := newPolicy;
      NewPolicy(old(View()), newPolicy, View());
      HomesKept();
      StepOfWorld(ChangePolicy(newPolicy));
    }

    // -------------------------------------------------------------------------------------------
    // The timer step
    // -------------------------------------------------------------------------------------------

    /** log_execution. */
    method LogExecution(process: Process, start: nat, end: nat)
      requires Stores(execLog[..], execLogIndex, log)
      modifies `execLogIndex, `log, execLog
      ensures Stores(execLog[..], execLogIndex, log) && log == old(log) + [Entry(process.Value(), start, end)]
    {
      var entry := LogEntry(process.pid, Truncated(process.name), start, end, (end - start) % WORD);
      WriteStores(execLog[..], execLogIndex, log, entry);
      if execLogIndex >= LOG_SIZE {
        execLogIndex := 0;
      }
      execLog[execLogIndex] := entry;
      execLogIndex := execLogIndex + 1;
      log := log + [entry];
    }

    /** A process that is in no queue is given the CPU. */
    method PutOnCpu(p: Process, timeSlice: nat, remainingSlice: nat, startTick: nat)
      requires QueuesOk() && p !in home
      modifies `current, p`state, p`timeSlice, p`remainingSlice, p`startTick
      ensures QueuesOk() && current == p
      ensures p.Value() == old(p.Value()).(state := Running, timeSlice := timeSlice,
                                           remainingSlice := remainingSlice, startTick := startTick)
    {
      p.state := Running;
      p.timeSlice := timeSlice;
      p.remainingSlice := remainingSlice;
      p.startTick := startTick;
      current := p;
      QueuesStillOk();
    }

    /** The part of scheduler_schedule for an idle CPU. */
    method StartIdle()
      requires Structured() && current == null
      modifies `current, `home, ready, level0, level1, level2, processes
      ensures Structured() && OthersKept() && View() == Dispatch(old(View()))
    {
      hide Process.Value, QueuesOk, Stores, Select;
      var p := SelectNext();
      if p != null {
        FieldsOf(p);
        PutOnCpu(p, p.timeSlice, p.timeSlice, now);
      }
    }

    /** One tick charged to the process on the CPU. */
    method ChargeCurrent()
      requires QueuesOk() && current != null && current !in home
      modifies current`totalTicks, current`remainingSlice, current`remainingTime, current`allotment
      ensures QueuesOk() && current.Value() == Charged(policy, old(current.Value()))
    {
      current.totalTicks := current.totalTicks + 1;
      current.remainingSlice := Dec32(current.remainingSlice);
      if policy.Srtf? && current.remainingTime > 0 {
        current.remainingTime := current.remainingTime - 1;
      }
      if policy.Mlfq? && current.allotment > 0 {
        current.allotment := current.allotment - 1;
      }
      QueuesStillOk();
    }

    /** The switch of scheduler_schedule on the policy: is it time to change? Under MLFQ, a process
        that has used up slice and allotment is demoted here. */
    method DecideSwitch() returns (shouldSwitch: bool)
      requires QueuesOk() && current != null && current !in home
      modifies current`level, current`allotment
      ensures QueuesOk() && shouldSwitch == ShouldSwitch(old(View()), old(current.Value()))
      ensures current.Value() == if shouldSwitch then Demoted(policy, old(current.Value())) else old(current.Value())
      ensures old(current.level) < MLFQ_LEVELS ==> current.level < MLFQ_LEVELS
    {
      shouldSwitch := false;
      match policy {
        case RoundRobin =>
          if current.remainingSlice == 0 {
            shouldSwitch := true;
          }
        case Priority =>
          var best := FindHighestPriority(ready);
          if best != null && best.priority > current.priority {
            shouldSwitch := true;
          }
        case Srtf =>
          var best := FindShortestRemaining(ready);
          if best != null && best.remainingTime < current.remainingTime {
            shouldSwitch := true;
          }
        case Mlfq =>
          if current.remainingSlice == 0 {
            shouldSwitch := true;
            if current.allotment == 0 && current.level < MLFQ_LEVELS - 1 {
              current.level := current.level + 1;
              current.allotment := FULL_ALLOTMENT;
            }
          }
        case _ =>
      }
      QueuesStillOk();
    }

    /** The process that leaves the CPU is READY again. */
    method MarkReady()
      requires QueuesOk() && current != null && current !in home
      modifies current`state, current`timeSlice
      ensures QueuesOk() && current.Value() == Requeued(policy, old(current.Value()))
    {
      current.state := Ready;
      if policy.Mlfq? {
        current.timeSlice := Quantum(current.level);
      }
      QueuesStillOk();
    }

    /** The current process is logged and goes to the tail of its queue. */
    method LeaveCpu()
      requires Structured() && current != null
      modifies `home, `log, `execLogIndex, execLog, ready, level0, level1, level2, processes`next,
               current`state, current`timeSlice
      ensures QueuesOk() && Stores(execLog[..], execLogIndex, log)
      ensures home.Keys == old(home).Keys + {current}
      ensures forall p :: p in processes && p != current ==> p.Value() == old(p.Value())
      ensures Idle() == Enqueue(Vacated(old(View()), old(current.Value())), Requeued(policy, old(current.Value())))
    {
      hide Process.Value, QueuesOk, Stores, Enqueue, Truncated, Requeued;
      FieldsOf(current);
      LogExecution(current, current.startTick, now);
      MarkReady();
      PutInQueue(current);
    }

    /** The next process is chosen and takes the CPU, which counts as a switch. */
    method TakeCpu()
      requires QueuesOk() && HasWaiting(Idle())
      modifies `current, `home, `switches, ready, level0, level1, level2, processes`next, processes`state,
               processes`timeSlice, processes`remainingSlice, processes`startTick
      ensures QueuesOk() && current != null && current in processes
      ensures current in old(home) && home == old(home) - {current}
      ensures forall p :: p in processes && p != current ==> p.Value() == old(p.Value())
      ensures var sel := Select(old(Idle()));
        View() == sel.rest.(cur := Some(SwitchedIn(policy, sel.next.value, now)), switches := old(switches) + 1)
    {
      hide Process.Value, QueuesOk, Select;
      var p := SelectNext();
      FieldsOf(p);
      var slice := if policy.Mlfq? then Quantum(p.level) else p.timeSlice;
      PutOnCpu(p, slice, slice, now);
      switches := switches + 1;
    }

    /** The end of scheduler_schedule. */
    method ContextSwitch()
      requires Structured() && current != null && HasWaiting(View())
      modifies `current, `home, `log, `execLogIndex, `switches, execLog, ready, level0, level1, level2, processes
      ensures Structured() && OthersKept() && View() == Switch(old(View()), old(current.Value()))
    {
      hide Process.Value, QueuesOk, Stores, Select, Enqueue, Requeued, SwitchedIn, OthersKept;
      LeaveCpu();
      ghost var held := home.Keys;
      TakeCpu();
      ExchangeKept(held);
    }

    method AnyWaiting() returns (waiting: bool)
      requires QueuesOk()
      ensures waiting <==> HasWaiting(View())
    {
      if policy.Mlfq? {
        waiting := level0.head != null || level1.head != null || level2.head != null;
      } else {
        waiting := ready.head != null;
      }
    }

    /** The current process goes on with a new slice, nobody else being there to run. */
    method RestartSlice()
      requires QueuesOk() && current != null && current !in home
      modifies current`remainingSlice
      ensures QueuesOk()
      ensures current.Value() == var c := old(current.Value()); c.(remainingSlice := c.timeSlice)
    {
      current.remainingSlice := current.timeSlice;
      QueuesStillOk();
    }

    /** The end of scheduler_schedule once it is time to change: a switch if somebody waits. */
    method Change()
      requires Structured() && current != null
      modifies `current, `home, `log, `execLogIndex, `switches, execLog, ready, level0, level1, level2, processes
      ensures Structured() && OthersKept()
      ensures var s, c := old(View()), old(current.Value());
        View() == if HasWaiting(s) then Switch(s, c) else s.(cur := Some(c.(remainingSlice := c.timeSlice)))
    {
      hide Process.Value, QueuesOk, Stores, Switch, HasWaiting;
      var waiting := AnyWaiting();
      if waiting {
        ContextSwitch();
      } else {
        RestartSlice();
      }
    }

    /** The part of scheduler_schedule for a busy CPU. */
    method StepBusy()
      requires Structured() && current != null
      modifies `current, `home, `log, `execLogIndex, `switches, execLog, ready, level0, level1, level2, processes
      ensures Structured() && OthersKept() && View() == Step(old(View()))
    {
      hide Process.Value, QueuesOk, Stores, ShouldSwitch, Charged, Demoted, Switch, HasWaiting;
      ghost var s, c := View(), current.Value();
      ghost var charged := Charged(policy, c);
      ghost var demoted := Demoted(policy, charged);
      SwitchForgetsCurrent(s, Some(charged), charged);
      SwitchForgetsCurrent(s, Some(demoted), demoted);
      ChargeCurrent();
      var shouldSwitch := DecideSwitch();
      if shouldSwitch {
        Change();
      }
    }

    lemma StepIdle(s: Sys)
      requires s.cur.None?
      ensures Step(s) == Dispatch(s)
    {
    }

    /** scheduler_schedule, the work of one timer interrupt. */
    method Schedule()
      requires Valid()
      modifies `current, `home, `log, `execLogIndex, `switches, `lastBoost, execLog,
               ready, level0, level1, level2, processes
      ensures Valid() && OthersKept() && View() == SchedulerModel.Schedule(old(View()))
    {
      hide Process.Value, QueuesOk, Stores, Step, Boost, Disciplined;
      ghost var s := View();
      BoostPlaces(s, 0);
      StepPlaces(BoostIfDue(s), 0);
      if policy.Mlfq? && now - lastBoost >= BOOST_INTERVAL {
        MlfqBoost();
      }
      if current == null {
        StartIdle();
        assert View() == Step(BoostIfDue(s)) by { StepIdle(BoostIfDue(s)); }
      } else {
        StepBusy();
      }
    }

    /** The timer interrupt with the scheduler enabled. */
    method TimerInterrupt()
      requires Valid()
      modifies `now, `current, `home, `log, `execLogIndex, `switches, `lastBoost, execLog,
               ready, level0, level1, level2, processes
      ensures Valid() && OthersKept() && View() == TimerTick(old(View()))
      ensures WorldOf() == SchedulerRuns.Next(old(WorldOf()), Timer)
    {
      hide Process.Value, SchedulerModel.Schedule, WorldOf, DistinctPids;
      now := now + 1;
      QueuesStillOk();
      Schedule();
      StepOfWorld(Timer);
    }

    // -------------------------------------------------------------------------------------------
    // Adding, blocking and unblocking
    // -------------------------------------------------------------------------------------------

    /** A queued process is READY, by the discipline. */
    lemma QueuedIsReady(p: Process)
      requires Valid() && p in home
      ensures p.state.Ready?
    {
      var q := home[p];
      var k :| 0 <= k < |q.Contents| && q.Contents[k] == p;
      assert Linked(q.Contents, q.View, k);
    }

    /** What scheduler_add_process does to the PCB before queueing it. */
    method Admit(p: Process)
      requires QueuesOk() && p !in home
      modifies p`next, p`state, p`burstTime, p`remainingTime, p`arrivalTime, p`level, p`timeSlice, p`remainingSlice
      ensures QueuesOk() && p.level <= old(p.level)
      ensures p.Value() == Admitted(old(View()), old(p.Value()))
    {
      hide Process.Value, Admitted;
      AdmitProcess(p, policy.Mlfq?, now, View());
      QueuesStillOk();
    }

    /** A process that is in no queue and not on the CPU is admitted and queued. */
    method AddNew(p: Process)
      requires Structured() && p in processes && p !in home && p != current
      modifies `home, ready, level0, level1, level2, processes
      ensures Structured() && current == old(current) && home.Keys == old(home).Keys + {p}
      ensures forall x :: x in processes && x != p ==> x.Value() == old(x.Value())
      ensures View() == Enqueue(old(View()), Admitted(old(View()), old(p.Value())))
    {
      hide QueuesOk, Stores, Enqueue, Process.Value, Admitted;
      ghost var s, a := View(), Admitted(View(), p.Value());
      EnqueueForgetsCurrent(s, None, a);
      Admit(p);
      PutInQueue(p);
    }

    lemma AwayAt(p: Process)
      requires UniquePids() && p in processes
      ensures p.pid in WorldOf().away <==> p !in HeldBy()
      ensures p !in HeldBy() ==> WorldOf().away[p.pid] == p.Value()
    {
    }

    lemma CurrentIs(p: Process)
      requires UniquePids() && p in processes && (current != null ==> current in processes)
      ensures IsCurrent(View(), p.pid) <==> p == current
    {
    }

    lemma WorldView()
      requires UniquePids()
      ensures WorldOf().sys == View()
    {
    }

    /** Adding a process that is READY or RUNNING changes nothing. */
    lemma AddIgnored(p: Process)
      requires Valid() && p in processes && (p.state.Ready? || p.state.Running?)
      ensures SchedulerRuns.Next(WorldOf(), Event.Add(p.pid)) == WorldOf()
    {
      hide Process.Value, QueuesOk, Stores, WorldOf, HeldBy;
      FieldsOf(p);
      AwayAt(p);
      CurrentIs(p);
      WorldView();
      if current != null {
        FieldsOf(current);
      }
    }

    twostate lemma AddedToWorld(p: Process)
      requires UniquePids() && p in processes && p !in old(HeldBy()) && !Schedulable(old(p.Value()))
      requires home.Keys == old(home).Keys + {p} && current == old(current)
      requires forall x :: x in processes && x != p ==> x.Value() == old(x.Value())
      requires View() == AddProcess(old(View()), old(p.Value()))
      ensures WorldOf() == SchedulerRuns.Next(old(WorldOf()), Event.Add(p.pid))
    {
      hide View, AddProcess, Process.Value;
      ghost var away := processes - old(HeldBy());
      assert processes - HeldBy() == away - {p};
      ByPidWithout(away, p);
    }

    lemma NotHeld(p: Process)
      requires Valid() && !p.state.Ready? && !p.state.Running?
      ensures p !in home && p != current
    {
      if p in home {
        QueuedIsReady(p);
      }
    }

    /** scheduler_add_process: a process that is READY or RUNNING already is left alone. */
    method Add(p: Process?)
      requires Valid() && (p != null ==> p in processes)
      modifies `home, ready, level0, level1, level2, processes
      ensures Valid() && current == old(current)
      ensures View() == if p == null then old(View()) else AddProcess(old(View()), old(p.Value()))
      ensures WorldOf() == if p == null then old(WorldOf())
                           else SchedulerRuns.Next(old(WorldOf()), Event.Add(p.pid))
    {
      hide QueuesOk, Stores, Enqueue, Disciplined, Process.Value, WorldOf, DistinctPids;
      if p == null {
        return;
      }
      FieldsOf(p);
      if p.state == Ready || p.state == Running {
        AddIgnored(p);
        return;
      }
      NotHeld(p);
      EnqueuePlaces(View(), Admitted(View(), p.Value()), 0);
      AddNew(p);
      AddedToWorld(p);
    }

    /** The position of a process in a queue, or its length when the process is not there. */
    ghost function At(q: Queue, p: Process): (k: nat)
      reads q
      ensures k <= |q.Contents|
      ensures k < |q.Contents| ==> q.Contents[k] == p
      ensures k == |q.Contents| ==> p !in q.Contents
    {
      if p in q.Contents then
        var k: nat :| k < |q.Contents| && q.Contents[k] == p; k
      else |q.Contents|
    }

    lemma PidsOfQueue(q: Queue)
      requires QueueOk(q) && UniquePids() && forall p :: p in home ==> p in processes
      ensures |q.View| == |q.Contents|
      ensures forall i :: 0 <= i < |q.View| ==> q.View[i].pid == q.Contents[i].pid
      ensures forall p, i :: p in processes && 0 <= i < |q.View| && q.View[i].pid == p.pid ==> q.Contents[i] == p
    {
      forall i | 0 <= i < |q.View| ensures q.View[i].pid == q.Contents[i].pid {
        assert Linked(q.Contents, q.View, i);
      }
    }

    lemma RemovedView(q: Queue, p: Process)
      requires QueueOk(q) && UniquePids() && p in processes && forall x :: x in home ==> x in processes
      ensures var k := At(q, p);
        && |q.View| == |q.Contents|
        && RemovePid(q.View, p.pid) == (if k < |q.View| then Without(q.View, k) else q.View)
        && (k < |q.View| <==> p in home && home[p] == q)
    {
      hide Process.Value, RemovePid;
      var k := At(q, p);
      PidsOfQueue(q);
      if k < |q.View| {
        RemovePidAt(q.View, k);
      } else {
        RemovePidAbsent(q.View, p.pid);
      }
    }

    /** Removing a process removes its pid. */
    method RemoveFrom(q: Queue, p: Process)
      requires QueuesOk() && IsQueue(q) && p in processes && UniquePids()
      modifies `home, q, processes`next
      ensures QueuesOk() && q.View == RemovePid(old(q.View), p.pid)
      ensures home == if p in old(home) && old(home)[p] == q then old(home) - {p} else old(home)
    {
      hide Process.Value, QueuesOk;
      KnownMembers(q);
      RemovedView(q, p);
      TakeAt(q, p, At(q, p));
    }

    /** A queued process is at home in the family of the policy. */
    lemma HomeInFamily(p: Process)
      requires Valid() && p in home
      ensures IsQueue(home[p]) && if policy.Mlfq? then home[p] != ready else home[p] == ready
    {
      var q := home[p];
      assert p in q.Contents && |q.View| == |q.Contents|;
    }

    method RemoveFromLevels(p: Process)
      requires QueuesOk() && UniquePids() && p in processes
      requires p in home ==> IsQueue(home[p])
      modifies `home, level0, level1, level2, processes`next
      ensures QueuesOk() && home == if p in old(home) && old(home)[p] != ready then old(home) - {p} else old(home)
      ensures level0.View == RemovePid(old(level0.View), p.pid)
      ensures level1.View == RemovePid(old(level1.View), p.pid)
      ensures level2.View == RemovePid(old(level2.View), p.pid)
    {
      hide Process.Value, QueuesOk, UniquePids, RemovePid;
      DistinctQueues();
      RemoveFrom(level0, p);
      RemoveFrom(level1, p);
      RemoveFrom(level2, p);
    }

    /** scheduler_remove_process. */
    method Remove(p: Process)
      requires Valid() && p in processes
      modifies `home, ready, level0, level1, level2, processes`next
      ensures Structured() && home.Keys == old(home).Keys - {p} && View() == RemoveProcess(old(View()), p.pid)
    {
      hide Process.Value, QueuesOk, Stores, Disciplined, UniquePids, RemovePid;
      DistinctQueues();
      if p in home {
        HomeInFamily(p);
      }
      if policy.Mlfq? {
        RemoveFromLevels(p);
      } else {
        RemoveFrom(ready, p);
      }
    }

    /** The assignment of BLOCKED. */
    method MarkBlocked(p: Process)
      requires QueuesOk() && p !in home
      modifies p`state
      ensures QueuesOk() && p.Value() == old(p.Value()).(state := Blocked)
    {
      p.state := Blocked;
      QueuesStillOk();
    }

    lemma QueueArePids(q: Queue, p: Process)
      requires QueuesOk() && UniquePids() && p in processes && IsQueue(q)
      ensures forall v :: v in q.View && v.pid == p.pid ==> p in home && v == p.Value()
    {
      KnownMembers(q);
      PidsOfQueue(q);
      forall i | 0 <= i < |q.View| && q.View[i].pid == p.pid ensures p in home && q.View[i] == p.Value() {
        assert Linked(q.Contents, q.View, i);
      }
    }

    /** Whatever is queued with the pid of a process is that process. */
    lemma QueuedArePids(p: Process)
      requires QueuesOk() && UniquePids() && p in processes
      ensures forall v :: v in Queued(View()) && v.pid == p.pid ==> p in home && v == p.Value()
    {
      forall v | v in Queued(View()) && v.pid == p.pid ensures p in home && v == p.Value() {
        var q :| IsQueue(q) && v in q.View;
        QueueArePids(q, p);
      }
    }

    /** The search for a queued process by its pid finds it. */
    lemma FindQueued(p: Process)
      requires Valid() && p in home
      ensures Find(Queued(View()), p.pid) == Some(p.Value())
    {
      hide Process.Value, Stores;
      var q, k := home[p], At(home[p], p);
      QueuedArePids(p);
      FindCorrect(Queued(View()), p.pid);
      assert Linked(q.Contents, q.View, k);
      assert q.View[k] in Queued(View());
      var i :| 0 <= i < |Queued(View())| && Queued(View())[i] == q.View[k];
      FieldsOf(p);
      CountPositive(Queued(View()), i);
    }

    lemma RemoveAbsent(p: Process)
      requires QueuesOk() && UniquePids() && p in processes && p !in home
      ensures RemoveProcess(View(), p.pid) == View()
    {
      QueueArePids(ready, p);
      QueueArePids(level0, p);
      QueueArePids(level1, p);
      QueueArePids(level2, p);
      RemovePidAbsent(ready.View, p.pid);
      RemovePidAbsent(level0.View, p.pid);
      RemovePidAbsent(level1.View, p.pid);
      RemovePidAbsent(level2.View, p.pid);
    }

    /** A process that is not on the CPU leaves its queue, if it is in one, and is BLOCKED. */
    twostate lemma BlockedInWorld(p: Process)
      requires UniquePids() && p in processes && p != current && current == old(current)
      requires home.Keys == old(home).Keys - {p} && p.Value() == old(p.Value()).(state := Blocked)
      requires forall x :: x in processes && x != p ==> x.Value() == old(x.Value())
      requires !IsCurrent(old(View()), p.pid) && View() == RemoveProcess(old(View()), p.pid)
      requires if p in old(home) then Find(Queued(old(View())), p.pid) == Some(old(p.Value()))
               else View() == old(View())
      ensures WorldOf() == SchedulerRuns.Next(old(WorldOf()), Event.Block(p.pid))
    {
      hide View, RemoveProcess, Process.Value, Find, Queued, IsCurrent;
      ghost var away := processes - old(HeldBy());
      assert processes - HeldBy() == away + {p};
      ByPidPut(away, p);
    }

    /** The process on the CPU is BLOCKED, and stays there. */
    twostate lemma CurrentBlocked(p: Process)
      requires UniquePids() && p in processes && p == current && current == old(current)
      requires home.Keys == old(home).Keys && p.Value() == old(p.Value()).(state := Blocked)
      requires forall x :: x in processes && x != p ==> x.Value() == old(x.Value())
      requires IsCurrent(old(View()), p.pid)
      requires View() == RemoveProcess(old(View()), p.pid).(cur := Some(p.Value()))
      ensures WorldOf() == SchedulerRuns.Next(old(WorldOf()), Event.Block(p.pid))
    {
      hide RemoveProcess, Process.Value;
      ByPidSame(processes - HeldBy());
    }

    /** scheduler_block_process. The scheduler stays valid exactly when the process is not the one
        on the CPU, which stays current although it is BLOCKED. */
    method Block(p: Process?)
      requires Valid() && (p != null ==> p in processes)
      modifies `home, ready, level0, level1, level2, processes`next, processes`state
      ensures Structured() && current == old(current)
      ensures Valid() <==> p == null || p != current
      ensures p == null ==> View() == old(View())
      ensures p != null ==> p !in home && p.Value() == old(p.Value()).(state := Blocked)
      ensures p != null && p != current ==> View() == RemoveProcess(old(View()), p.pid)
      ensures p != null && p == current ==>
        View() == RemoveProcess(old(View()), p.pid).(cur := Some(old(p.Value()).(state := Blocked)))
      ensures WorldOf() == if p == null then old(WorldOf())
                           else SchedulerRuns.Next(old(WorldOf()), Event.Block(p.pid))
    {
      hide Process.Value, QueuesOk, Stores, RemoveProcess, WorldOf, DistinctPids, Find, Queued, IsCurrent, BlockPid;
      if p == null {
        return;
      }
      if p in home {
        FindQueued(p);
      } else {
        RemoveAbsent(p);
      }
      CurrentIs(p);
      RemoveKeepsDiscipline(View(), p.pid);
      Remove(p);
      MarkBlocked(p);
      if p == current {
        CurrentBlocked(p);
      } else {
        BlockedInWorld(p);
      }
    }

    method ClearBlockReason(p: Process)
      requires QueuesOk() && p !in home
      modifies p`blockReason
      ensures QueuesOk() && p.state == old(p.state) && p.Value() == old(p.Value()).(blockReason := 0)
    {
      p.blockReason := 0;
      QueuesStillOk();
    }

    /** Unblocking a process that is not BLOCKED changes nothing. */
    lemma UnblockIgnored(p: Process)
      requires Valid() && p in processes && p.state != Blocked
      ensures SchedulerRuns.Next(WorldOf(), Event.Unblock(p.pid)) == WorldOf()
    {
      hide Process.Value, QueuesOk, Stores, WorldOf, HeldBy, AddPid;
      FieldsOf(p);
      AwayAt(p);
      CurrentIs(p);
      WorldView();
      if current != null {
        FieldsOf(current);
      }
    }

    twostate lemma ReasonCleared(p: Process)
      requires UniquePids() && p in processes && p !in HeldBy() && HeldBy() == old(HeldBy()) && View() == old(View())
      requires forall x :: x in processes && x != p ==> x.Value() == old(x.Value())
      ensures var w := old(WorldOf()); WorldOf() == w.(away := w.away[p.pid := p.Value()])
    {
      hide View, Process.Value;
      ghost var away := processes - HeldBy();
      assert away + {p} == away;
      ByPidPut(away, p);
    }

    /** scheduler_unblock_process: only a BLOCKED process is added back. */
    method Unblock(p: Process?)
      requires Valid() && (p != null ==> p in processes)
      modifies `home, ready, level0, level1, level2, processes
      ensures Valid() && current == old(current)
      ensures View() == if p == null || old(p.state) != Blocked then old(View())
                        else AddProcess(old(View()), old(p.Value()).(blockReason := 0))
      ensures WorldOf() == if p == null then old(WorldOf())
                           else SchedulerRuns.Next(old(WorldOf()), Event.Unblock(p.pid))
    {
      hide Process.Value, QueuesOk, Stores, Disciplined, AddProcess, WorldOf, DistinctPids, AddPid;
      if p == null {
        return;
      }
      if p.state != Blocked {
        UnblockIgnored(p);
        return;
      }
      FieldsOf(p);
      AwayAt(p);
      NotHeld(p);
      ClearBlockReason(p);
      ReasonCleared(p);
      Add(p);
    }

    // -------------------------------------------------------------------------------------------
    // The batch simulator
    // -------------------------------------------------------------------------------------------

    /** The start of a simulated tick: an idle CPU loads a process, if there is one. */
    method SimLoad(clock: nat, ghost done: seq<Completion>)
      requires QueuesOk() && current == null
      modifies `current, `home, ready, level0, level1, level2, processes`next, processes`state,
               processes`timeSlice, processes`remainingSlice, processes`startTick
      ensures QueuesOk() && View() == LoadIfIdle(Sim(old(View()), clock, done)).sys
      ensures if current == null then home == old(home)
              else current in processes && current in old(home) && home == old(home) - {current}
      ensures forall p :: p in processes && p != current ==> p.state == old(p.state)
    {
      hide Process.Value, QueuesOk, Select;
      var p := SelectNext();
      if p != null {
        FieldsOf(p);
        var slice := p.remainingSlice;
        if slice == 0 && (policy.RoundRobin? || policy.Mlfq?) {
          slice := if policy.Mlfq? then Quantum(p.level) else DEFAULT_SLICE;
        }
        PutOnCpu(p, p.timeSlice, slice, clock);
      }
    }

    /** One tick of work by the current process. */
    method SimWork()
      requires QueuesOk() && current != null && current !in home
      modifies current`totalTicks, current`remainingSlice, current`remainingTime
      ensures QueuesOk() && current.Value() == Worked(policy, old(current.Value()))
    {
      current.totalTicks := current.totalTicks + 1;
      if current.remainingSlice > 0 && (policy.RoundRobin? || policy.Mlfq?) {
        current.remainingSlice := current.remainingSlice - 1;
      }
      if current.remainingTime > 0 {
        current.remainingTime := current.remainingTime - 1;
      }
      QueuesStillOk();
    }

    /** The entry of a simulated switch, whose end and duration are then written once more. */
    method SimLog(clock: nat)
      requires Stores(execLog[..], execLogIndex, log) && current != null
      modifies `execLogIndex, `log, execLog
      ensures Stores(execLog[..], execLogIndex, log)
      ensures log == old(log) + [Entry(current.Value(), old(current.startTick), clock)]
    {
      LogExecution(current, current.startTick, clock);
      LatestSlot(execLog[..], execLogIndex, log);
      ghost var slots := execLog[..];
      var at := execLogIndex - 1;
      execLog[at] := execLog[at].(end := clock, duration := (clock - current.startTick) % WORD);
      assert execLog[..] == slots;
    }

    method SimMark(state: State, remainingSlice: nat)
      requires QueuesOk() && current != null && current !in home
      modifies current`state, current`remainingSlice
      ensures QueuesOk() && current.state == state
      ensures current.Value() == old(current.Value()).(state := state, remainingSlice := remainingSlice)
    {
      current.state := state;
      current.remainingSlice := remainingSlice;
      QueuesStillOk();
    }

    /** A finished process is TERMINATED, another one is READY with a fresh slice and queued. */
    method SimPutBack()
      requires QueuesOk() && current != null && current in processes && current !in home
      modifies `home, ready, level0, level1, level2, processes`next, current`state, current`remainingSlice
      ensures QueuesOk() && current in processes
      ensures old(current.remainingTime) == 0 ==> Idle() == old(Idle())
      ensures old(current.remainingTime) > 0 ==>
        Idle() == Enqueue(old(Idle()), Yielded(policy, old(current.Value())))
      ensures if current.remainingTime == 0 then home == old(home) && current.state == Terminated
              else home.Keys == old(home).Keys + {current} && current.state == Ready
    {
      hide Process.Value, QueuesOk, Enqueue;
      FieldsOf(current);
      if current.remainingTime == 0 {
        SimMark(Terminated, current.remainingSlice);
      } else {
        SimMark(Ready, if policy.Mlfq? then Quantum(current.level) else DEFAULT_SLICE);
        PutInQueue(current);
      }
    }

    /** The next process takes the simulated CPU, or it is idle. */
    method SimSucceed(clock: nat)
      requires QueuesOk()
      modifies `current, `home, ready, level0, level1, level2, processes`next, processes`state,
               processes`timeSlice, processes`remainingSlice, processes`startTick
      ensures QueuesOk() && View() == Succeed(old(Idle()), clock)
      ensures if current == null then home == old(home)
              else current in processes && current in old(home) && home == old(home) - {current}
      ensures forall p :: p in processes && p != current ==> p.state == old(p.state)
    {
      hide Process.Value, QueuesOk, Select;
      var p := SelectNext();
      if p == null {
        current := null;
      } else {
        FieldsOf(p);
        var slice := p.remainingSlice;
        if slice == 0 {
          slice := if policy.Mlfq? then Quantum(p.level) else DEFAULT_SLICE;
        }
        PutOnCpu(p, p.timeSlice, slice, clock);
      }
    }

    /** The process on the CPU is logged and put back. */
    method SimStop(ghost m: Sim, clock: nat)
      requires Structured() && current != null && m.sys == View() && m.clock == clock
      modifies `home, `log, `execLogIndex, `switches, execLog,
               ready, level0, level1, level2, processes`next, current`state, current`remainingSlice
      ensures QueuesOk() && Stores(execLog[..], execLogIndex, log)
      ensures var c := old(current.Value());
        Idle() == if c.remainingTime == 0 then Logged(m, c) else Enqueue(Logged(m, c), Yielded(policy, c))
      ensures if current.state == Terminated then home == old(home) else home.Keys == old(home).Keys + {current}
    {
      hide Process.Value, QueuesOk, Stores, Enqueue, Yielded, Truncated;
      FieldsOf(current);
      SimLog(clock);
      switches := switches + 1;
      SimPutBack();
    }

    /** Each of these processes is queued, on the CPU or TERMINATED. */
    ghost predicate AllAccounted(ps: set<Process>)
      reads `home, `current, ps
    {
      forall p :: p in ps ==> p in home || p == current || p.state.Terminated?
    }

    /** The process on the CPU leaves it at the end of a simulated tick. */
    method SimLeave(ghost m: Sim, clock: nat)
      requires Structured() && current != null && m.sys == View() && m.clock == clock
      modifies `current, `home, `log, `execLogIndex, `switches, execLog, ready, level0, level1, level2,
               processes`next, processes`state, processes`timeSlice, processes`remainingSlice, processes`startTick
      ensures Structured() && View() == Leave(m, old(current.Value())).sys
      ensures AllAccounted(old(home.Keys) + {old(current)})
      ensures forall p :: p in processes && p !in old(home) && p != old(current) ==>
        p.state == old(p.state) && p !in home && p != current
    {
      hide Process.Value, QueuesOk, Stores, Enqueue, Succeed, Yielded, Logged;
      SimStop(m, clock);
      SimSucceed(clock);
    }

    /** The part of a simulated tick on a loaded CPU. */
    method SimExecute(ghost m: Sim, clock: nat)
      requires Structured() && current != null && m.sys == View() && m.clock == clock
      modifies `current, `home, `log, `execLogIndex, `switches, execLog, ready, level0, level1, level2, processes
      ensures Structured() && View() == Execute(m).sys
      ensures AllAccounted(old(home.Keys) + {old(current)})
      ensures forall p :: p in processes && p !in old(home) && p != old(current) ==>
        p.state == old(p.state) && p !in home && p != current
    {
      hide Process.Value, QueuesOk, Stores, Leave;
      ghost var c := Worked(policy, current.Value());
      LeaveForgetsCurrent(m, m.(sys := m.sys.(cur := Some(c))), c);
      SimWork();
      FieldsOf(current);
      if current.remainingTime == 0
         || ((policy.RoundRobin? || policy.Mlfq?) && current.remainingSlice == 0) {
        SimLeave(m.(sys := m.sys.(cur := Some(c))), clock);
      }
    }

    /** One iteration of the loop of scheduler_simulate. */
    method SimStep(ghost m: Sim, simTick: nat)
      requires Structured() && m.sys == View() && simTick == m.clock + 1
      modifies `current, `home, `log, `execLogIndex, `switches, execLog, ready, level0, level1, level2, processes
      ensures Structured() && View() == SimTick(m).sys
      ensures AllAccounted(old(home.Keys) + if old(current) == null then {} else {old(current)})
      ensures forall p :: p in processes && p !in old(home) && p != old(current) ==>
        p.state == old(p.state) && p !in home && p != current
    {
      hide Process.Value, QueuesOk, Stores, Execute, Select;
      ghost var m1 := LoadIfIdle(m.(clock := simTick));
      if current == null {
        SimLoad(simTick, m.done);
        if current == null {
          return;
        }
      }
      SimExecute(m1, simTick);
    }

    /** The simulator starts with an empty journal and an idle CPU. */
    method SimReset()
      requires Structured()
      modifies `current, `log, `execLogIndex, `switches
      ensures Structured() && current == null && View() == Begin(old(View())).sys
    {
      hide Process.Value, QueuesOk;
      execLogIndex := 0;
      log := [];
      switches := 0;
      current := null;
      QueuesStillOk();
    }

    /** scheduler_simulate. Every process queued at the start ends up queued, on the CPU or
        TERMINATED. */
    method Simulate(ticks: nat) returns (ghost result: Sim)
      requires Valid()
      modifies `current, `home, `log, `execLogIndex, `switches, execLog, ready, level0, level1, level2, processes
      ensures Valid() && View() == result.sys && result == Simulation.Simulate(old(View()), ticks)
      ensures AllAccounted(old(home.Keys))
    {
      hide Process.Value, QueuesOk, SimRun, SimTick, Disciplined;
      ghost var s := View();
      var waiting := AnyWaiting();
      if !waiting && current == null {
        return Sim(s, 0, []);
      }
      SimReset();
      BeginDisciplined(s, ticks);
      result := Begin(s);
      for t := 0 to ticks
        invariant Structured() && UniquePids() && View() == result.sys && result.clock == t
        invariant result == SimRun(Begin(s), t)
        invariant AllAccounted(old(home.Keys))
      {
        SimRunNext(Begin(s), t);
        TickClock(result);
        SimStep(result, t + 1);
        result := SimTick(result);
      }
    }
  }
}
