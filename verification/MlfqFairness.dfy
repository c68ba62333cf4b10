/** MLFQ starves nobody: every ready process reaches the CPU within a bounded number of ticks. The
    bound counts the rest of the slice of the process on the CPU, which no boost touches and which
    may come from another policy. */
module MlfqFairness {
  import opened Wrappers
  import opened Processes
  import opened SchedulerModel
  import opened SchedulerRuns
  import opened RoundRobinWait
  import opened MlfqRanks

  /** At some point of the run, the process is on the CPU. */
  predicate GetsCpu(w: World, es: seq<Event>, pid: nat)
    decreases |es|
  {
    IsCurrent(w.sys, pid) || (es != [] && GetsCpu(Next(w, es[0]), es[1..], pid))
  }

  /** The process is not itself blocked during the run. */
  predicate StaysReady(es: seq<Event>, pid: nat) {
    forall e :: e in es ==> !(e.Block? && e.pid == pid)
  }

  predicate Boosts(w: World, e: Event) {
    e.BoostAll? || (e.Timer? && BoostDue(w.sys.(now := w.sys.now + 1)))
  }

  /** How many processes are queued when the next boost of the run happens. */
  function QueuedAtNextBoost(w: World, es: seq<Event>): nat
    decreases |es|
  {
    if es == [] then 0
    else if Boosts(w, es[0]) then |Queued(w.sys)|
    else QueuedAtNextBoost(Next(w, es[0]), es[1..])
  }

  function TicksToBoost(s: Sys): nat {
    if s.now + 1 >= s.lastBoost + BOOST_INTERVAL then 1 else s.lastBoost + BOOST_INTERVAL - s.now
  }

  function Position(q: seq<Pcb>, pid: nat): nat {
    if q == [] || q[0].pid == pid then 0 else 1 + Position(q[1..], pid)
  }

  lemma PositionAppend(q: seq<Pcb>, r: seq<Pcb>, pid: nat)
    requires Count(q, pid) > 0
    ensures Position(q + r, pid) == Position(q, pid) && Count(q + r, pid) > 0
  {
    assert (q + r)[1..] == q[1..] + r;
    if q[0].pid != pid {
      PositionAppend(q[1..], r, pid);
    }
  }

  lemma PositionBelow(q: seq<Pcb>, pid: nat)
    requires Count(q, pid) > 0
    ensures Position(q, pid) < |q|
  {
  }

  lemma PositionRemove(q: seq<Pcb>, pid: nat, other: nat)
    requires Count(q, pid) > 0 && other != pid
    ensures Count(RemovePid(q, other), pid) > 0
    ensures Position(RemovePid(q, other), pid) <= Position(q, pid)
  {
  }

  predicate WaitsOnTop(s: Sys, pid: nat) {
    Ranks(s) && s.policy.Mlfq? && Count(s.q0, pid) > 0 && !IsCurrent(s, pid)
  }

  /** Ticks before a process of the top level runs: the rest of the current slice, then one
      top-level quantum for each process ahead. */
  function TopWait(s: Sys, pid: nat): nat {
    Handover(s) + Quantum(0) * Position(s.q0, pid)
  }

  /** A switch hands the CPU to the head of the top level, with a full top-level quantum. */
  lemma HandsToTop(s: Sys, c: Pcb)
    requires s.policy.Mlfq? && |s.q0| > 0
    ensures var s' := Switch(s, c);
      && s'.policy.Mlfq? && s'.cur == Some(SwitchedIn(Mlfq, s.q0[0], s.now))
      && s'.q0 == s.q0[1..] + if c.level == 0 then [Requeued(Mlfq, c)] else []
  {
  }

  lemma SwitchCountsTopDown(s: Sys, c: Pcb, pid: nat)
    requires s.policy.Mlfq? && AllRanked(s.q0, 0) && Ranks(Switch(s, c)) && Count(s.q0, pid) > 0
    ensures s.q0[0].pid == pid ==> IsCurrent(Switch(s, c), pid)
    ensures s.q0[0].pid != pid ==>
      WaitsOnTop(Switch(s, c), pid) && TopWait(Switch(s, c), pid) == Quantum(0) * Position(s.q0, pid)
  {
    hide Switch;
    HandsToTop(s, c);
    if s.q0[0].pid != pid {
      PositionAppend(s.q0[1..], if c.level == 0 then [Requeued(Mlfq, c)] else [], pid);
    }
  }

  lemma StepCountsDown(s: Sys, pid: nat)
    requires WaitsOnTop(s, pid)
    ensures TopWait(s, pid) == 1 ==> IsCurrent(Step(s), pid)
    ensures TopWait(s, pid) > 1 ==> WaitsOnTop(Step(s), pid) && TopWait(Step(s), pid) == TopWait(s, pid) - 1
  {
    hide Switch;
    StepRanks(s);
    if s.cur.Some? && s.cur.value.remainingSlice == 1 {
      var c := Demoted(Mlfq, Charged(Mlfq, s.cur.value));
      assert Step(s) == Switch(s, c);
      SwitchCountsTopDown(s, c, pid);
    }
  }

  lemma BoostKeepsTop(s: Sys, pid: nat)
    requires WaitsOnTop(s, pid)
    ensures WaitsOnTop(Boost(s), pid) && TopWait(Boost(s), pid) == TopWait(s, pid)
  {
    PositionAppend(s.q0, RefreshAll(s.q1), pid);
    PositionAppend(s.q0 + RefreshAll(s.q1), RefreshAll(s.q2), pid);
  }

  lemma TimerCountsTopDown(s: Sys, pid: nat)
    requires WaitsOnTop(s, pid)
    ensures TopWait(s, pid) == 1 ==> IsCurrent(TimerTick(s), pid)
    ensures TopWait(s, pid) > 1 ==>
      WaitsOnTop(TimerTick(s), pid) && TopWait(TimerTick(s), pid) == TopWait(s, pid) - 1
  {
    hide Step;
    var s1 := s.(now := s.now + 1);
    BoostKeepsTop(s1, pid);
    StepCountsDown(BoostIfDue(s1), pid);
  }

  lemma OthersKeepTop(w: World, e: Event, pid: nat)
    requires OnePlace(w) && RanksKept(w) && WaitsOnTop(w.sys, pid)
    requires !e.Timer? && (e.Block? ==> e.pid != pid && !IsCurrent(w.sys, e.pid))
    requires e.ChangePolicy? ==> e.policy.Mlfq?
    ensures WaitsOnTop(Next(w, e).sys, pid) && TopWait(Next(w, e).sys, pid) <= TopWait(w.sys, pid)
  {
    hide Boost, RemovePid, Ranks;
    NextKeepsRanks(w, e);
    match e
    case Add(other) =>
      if other in w.away {
        PositionAppend(w.sys.q0, [Admitted(w.sys, w.away[other])], pid);
      }
    case Unblock(other) =>
      if other in w.away {
        PositionAppend(w.sys.q0, [Admitted(w.sys, w.away[other].(blockReason := 0))], pid);
      }
    case Block(other) => PositionRemove(w.sys.q0, pid, other);
    case BoostAll => BoostKeepsTop(w.sys, pid);
    case _ =>
  }

  lemma {:induction false} TopIsServed(w: World, es: seq<Event>, pid: nat)
    requires OnePlace(w) && RanksKept(w) && WaitsOnTop(w.sys, pid)
    requires SparesCurrent(w, es) && MlfqOnly(es) && StaysReady(es, pid)
    requires Ticks(es) >= TopWait(w.sys, pid)
    ensures GetsCpu(w, es, pid)
    decreases |es|
  {
    var e, w' := es[0], Next(w, es[0]);
    assert e in es;
    NextKeepsOnePlace(w, e);
    NextKeepsRanks(w, e);
    if e.Timer? {
      TimerCountsTopDown(w.sys, pid);
      if TopWait(w.sys, pid) > 1 {
        TopIsServed(w', es[1..], pid);
      }
    } else {
      OthersKeepTop(w, e, pid);
      TopIsServed(w', es[1..], pid);
    }
  }

  /** A boost brings every queued process to the top, behind at most the others queued with it. */
  lemma BoostBringsToTop(s: Sys, pid: nat)
    requires Ranks(s) && s.policy.Mlfq? && Disciplined(s) && IsQueued(s, pid) && !IsCurrent(s, pid)
    ensures WaitsOnTop(Boost(s), pid)
    ensures TopWait(Boost(s), pid) <= Handover(s) + Quantum(0) * (|Queued(s)| - 1)
  {
    BoostRanks(s);
    BoostPlaces(s, pid);
    CountQueued(s, pid);
    PositionBelow(Boost(s).q0, pid);
  }

  lemma StillHeld(w: World, e: Event, pid: nat)
    requires OnePlace(w) && IsQueued(w.sys, pid)
    requires e.Block? ==> e.pid != pid && !IsCurrent(w.sys, e.pid)
    ensures IsQueued(Next(w, e).sys, pid) || IsCurrent(Next(w, e).sys, pid)
  {
    NextKeepsOnePlace(w, e);
    assert Places(w, pid) <= 1;
    CountQueued(w.sys, pid);
    CountQueued(Next(w, e).sys, pid);
    assert Places(Next(w, e), pid) == Places(w, pid);
  }

  lemma BoostingTick(s: Sys, pid: nat)
    requires Ranks(s) && s.policy.Mlfq? && Disciplined(s) && IsQueued(s, pid) && !IsCurrent(s, pid)
    requires BoostDue(s.(now := s.now + 1))
    ensures IsCurrent(TimerTick(s), pid)
         || (WaitsOnTop(TimerTick(s), pid)
             && TopWait(TimerTick(s), pid) < Handover(s) + Quantum(0) * (|Queued(s)| - 1))
  {
    hide Step;
    var s1 := s.(now := s.now + 1);
    BoostBringsToTop(s1, pid);
    StepCountsDown(Boost(s1), pid);
  }

  lemma BoostEventServes(w: World, es: seq<Event>, pid: nat)
    requires OnePlace(w) && RanksKept(w) && w.sys.policy.Mlfq? && IsQueued(w.sys, pid) && !IsCurrent(w.sys, pid)
    requires SparesCurrent(w, es) && MlfqOnly(es) && StaysReady(es, pid)
    requires es != [] && Boosts(w, es[0])
    requires Ticks(es) >= Handover(w.sys) + Quantum(0) * (|Queued(w.sys)| - 1)
    ensures GetsCpu(w, es, pid)
  {
    var e, w' := es[0], Next(w, es[0]);
    assert e in es;
    NextKeepsOnePlace(w, e);
    NextKeepsRanks(w, e);
    if e.Timer? {
      BoostingTick(w.sys, pid);
    } else {
      BoostBringsToTop(w.sys, pid);
    }
    if !IsCurrent(w'.sys, pid) {
      TopIsServed(w', es[1..], pid);
    }
  }

  lemma SelectClock(s: Sys)
    ensures Select(s).rest.now == s.now && Select(s).rest.lastBoost == s.lastBoost
  {
  }

  lemma SwitchClock(s: Sys, c: Pcb)
    ensures Switch(s, c).now == s.now && Switch(s, c).lastBoost == s.lastBoost
  {
    hide Select;
    SelectClock(Enqueue(Vacated(s, c), Requeued(s.policy, c)));
  }

  lemma ClockRunsDown(w: World, e: Event)
    requires w.sys.policy.Mlfq? && !Boosts(w, e) && (e.ChangePolicy? ==> e.policy.Mlfq?)
    ensures TicksToBoost(w.sys) == TicksToBoost(Next(w, e).sys) + if e.Timer? then 1 else 0
  {
    hide Switch, Select;
    if e.Timer? && w.sys.cur.Some? {
      SwitchClock(w.sys.(now := w.sys.now + 1), Demoted(Mlfq, Charged(Mlfq, w.sys.cur.value)));
    }
    SelectClock(w.sys.(now := w.sys.now + 1));
  }

  function Max(a: int, b: int): int {
    if a < b then b else a
  }

  lemma HandoverRunsDown(w: World, e: Event)
    requires OnePlace(w) && RanksKept(w) && w.sys.policy.Mlfq?
    requires e.Block? ==> !IsCurrent(w.sys, e.pid)
    ensures if e.Timer? then Handover(Next(w, e).sys) <= Max(Handover(w.sys) - 1, Quantum(2))
            else Handover(Next(w, e).sys) == Handover(w.sys)
  {
    hide TimerTick, Ranks;
    NextKeepsRanks(w, e);
    if e.Timer? {
      TimerRanks(w.sys);
    }
  }

  /** The bound counted from the time left to the next boost. What the process on the CPU still has of
      its slice either ends before the boost, and then the next slice is at most 20, or is all there
      is to wait for besides the processes queued at the boost. */
  lemma {:induction false} ServedAfterBoost(w: World, es: seq<Event>, pid: nat)
    requires OnePlace(w) && RanksKept(w) && w.sys.policy.Mlfq? && (IsQueued(w.sys, pid) || IsCurrent(w.sys, pid))
    requires SparesCurrent(w, es) && MlfqOnly(es) && StaysReady(es, pid)
    requires Ticks(es) >=
      Max(TicksToBoost(w.sys) + Quantum(2), Handover(w.sys)) + Quantum(0) * (QueuedAtNextBoost(w, es) - 1)
    ensures GetsCpu(w, es, pid)
    decreases |es|
  {
    hide Next, Boosts, OnePlace, TicksToBoost, Queued, Handover;
    if !IsCurrent(w.sys, pid) {
      var e, w' := es[0], Next(w, es[0]);
      assert e in es;
      if Boosts(w, e) {
        BoostEventServes(w, es, pid);
      } else {
        NextKeepsOnePlace(w, e);
        NextKeepsRanks(w, e);
        StillHeld(w, e, pid);
        ClockRunsDown(w, e);
        HandoverRunsDown(w, e);
        StaysMlfq(w, e);
        ServedAfterBoost(w', es[1..], pid);
      }
    }
  }

  /** Without leaving MLFQ, a ready process that is not blocked gets the CPU within
      max(500 + 20, H) + 5(n - 1) ticks, H being the rest of the slice on the CPU and n the number of
      processes queued at the next boost. Arrivals after that boost do not count. */
  lemma {:induction false} NoStarvation(w: World, es: seq<Event>, pid: nat)
    requires OnePlace(w) && RanksKept(w) && w.sys.policy.Mlfq? && IsQueued(w.sys, pid)
    requires SparesCurrent(w, es) && MlfqOnly(es) && StaysReady(es, pid)
    requires Ticks(es) >= Max(500 + 20, Handover(w.sys)) + 5 * (QueuedAtNextBoost(w, es) - 1)
    ensures GetsCpu(w, es, pid)
  {
    ServedAfterBoost(w, es, pid);
  }

  // ---------------------------------------------------------------------------------------------
  // The bound of 500 + 20 + 5n, and when it holds
  // ---------------------------------------------------------------------------------------------

  /** A run that stays in MLFQ, and in which neither this queued process nor the one on the CPU is
      blocked. */
  predicate Undisturbed(w: World, es: seq<Event>, pid: nat) {
    IsQueued(w.sys, pid) && SparesCurrent(w, es) && MlfqOnly(es) && StaysReady(es, pid)
  }

  /** Every queued process that is not blocked gets the CPU within 500 + 20 + 5n ticks. */
  ghost predicate KeepsBound(w: World) {
    forall es, pid | Undisturbed(w, es, pid) && Ticks(es) >= 500 + 20 + 5 * QueuedAtNextBoost(w, es) ::
      GetsCpu(w, es, pid)
  }

  lemma ShortSliceKeepsBound(w: World)
    requires OnePlace(w) && RanksKept(w) && w.sys.policy.Mlfq? && Handover(w.sys) <= 525
    ensures KeepsBound(w)
  {
    hide OnePlace, RanksKept, Handover, GetsCpu, SparesCurrent;
    forall es, pid | Undisturbed(w, es, pid) && Ticks(es) >= 500 + 20 + 5 * QueuedAtNextBoost(w, es)
      ensures GetsCpu(w, es, pid)
    {
      NoStarvation(w, es, pid);
    }
  }

  /** The kernel boots with round robin. As long as only round robin and MLFQ are chosen, the bound
      holds whenever the policy is MLFQ. */
  lemma BootKeepsBound(policy: Policy, now: nat, es: seq<Event>)
    requires CountsSlices(policy) && SparesCurrent(Start(policy, now), es) && SlicedOnly(es)
    ensures Run(Start(policy, now), es).sys.policy.Mlfq? ==> KeepsBound(Run(Start(policy, now), es))
  {
    hide KeepsBound, OnePlace, RanksKept, Handover;
    ReachableRanks(policy, now, es);
    BootHandover(policy, now, es);
    if Run(Start(policy, now), es).sys.policy.Mlfq? {
      ShortSliceKeepsBound(Run(Start(policy, now), es));
    }
  }

  lemma OthersKeepCurrent(w: World, e: Event)
    requires OnePlace(w) && w.sys.policy.Mlfq? && (e.ChangePolicy? ==> e.policy.Mlfq?) && !e.Timer?
    requires e.Block? ==> !IsCurrent(w.sys, e.pid)
    ensures Next(w, e).sys.cur == w.sys.cur
  {
  }

  /** The process on the CPU keeps it until its slice is used up, whatever boosts and arrivals come. */
  lemma {:induction false} CurrentKeepsCpu(w: World, es: seq<Event>, pid: nat)
    requires OnePlace(w) && w.sys.policy.Mlfq? && w.sys.cur.Some? && w.sys.cur.value.pid != pid
    requires SparesCurrent(w, es) && MlfqOnly(es) && Ticks(es) < Handover(w.sys)
    ensures !GetsCpu(w, es, pid) && IsCurrent(Run(w, es).sys, w.sys.cur.value.pid)
    decreases |es|
  {
    if es != [] {
      hide OnePlace;
      assert es[0] in es;
      NextKeepsOnePlace(w, es[0]);
      if !es[0].Timer? {
        OthersKeepCurrent(w, es[0]);
      }
      StaysMlfq(w, es[0]);
      CurrentKeepsCpu(Next(w, es[0]), es[1..], pid);
    }
  }

  /** Ticks and nothing else. */
  function Ticking(n: nat): (es: seq<Event>)
    ensures |es| == n && Ticks(es) == n && forall e :: e in es ==> e == Timer
  {
    if n == 0 then [] else [Timer] + Ticking(n - 1)
  }

  lemma TickingSpares(w: World, n: nat)
    ensures SparesCurrent(w, Ticking(n))
    decreases n
  {
    if n > 0 {
      assert Ticking(n)[1..] == Ticking(n - 1);
      TickingSpares(Next(w, Timer), n - 1);
    }
  }

  lemma NotOnTop(s: Sys, pid: nat)
    requires WaitsOnTop(s, pid)
    ensures !IsCurrent(s, pid)
  {
  }

  /** The wait on top is exact when nothing but ticks happens. */
  lemma {:induction false} TopNotBefore(w: World, n: nat, pid: nat)
    requires WaitsOnTop(w.sys, pid) && n < TopWait(w.sys, pid)
    ensures !GetsCpu(w, Ticking(n), pid)
    decreases n
  {
    if n > 0 {
      hide WaitsOnTop, TopWait;
      assert Ticking(n)[1..] == Ticking(n - 1);
      TimerCountsTopDown(w.sys, pid);
      TopNotBefore(Next(w, Timer), n - 1, pid);
    }
    assert !IsCurrent(w.sys, pid) by {
      NotOnTop(w.sys, pid);
    }
  }

  lemma {:induction false} NobodyLeavesBeforeBoost(w: World, n: nat)
    requires w.sys.policy.Mlfq? && w.sys.cur.Some?
    requires TicksToBoost(w.sys) < Handover(w.sys) && TicksToBoost(w.sys) <= n
    ensures QueuedAtNextBoost(w, Ticking(n)) == |Queued(w.sys)|
    decreases n
  {
    assert Ticking(n)[1..] == Ticking(n - 1);
    if !Boosts(w, Timer) {
      NobodyLeavesBeforeBoost(Next(w, Timer), n - 1);
    }
  }

  lemma PositionAt(q: seq<Pcb>, k: nat)
    requires k < |q| && Count(q, q[k].pid) <= 1
    ensures Position(q, q[k].pid) == k
  {
    if k > 0 {
      CountPositive(q[1..], k - 1);
      PositionAt(q[1..], k - 1);
    }
  }

  lemma HeldOnce(w: World, k: nat)
    requires OnePlace(w) && RanksKept(w) && k < |w.sys.q0|
    ensures Count(w.sys.q0, w.sys.q0[k].pid) == 1 && !IsCurrent(w.sys, w.sys.q0[k].pid)
    ensures IsQueued(w.sys, w.sys.q0[k].pid) && Ranks(w.sys)
  {
    var pid := w.sys.q0[k].pid;
    assert Places(w, pid) <= 1;
    CountPositive(w.sys.q0, k);
    CountQueued(w.sys, pid);
  }

  /** After a change to MLFQ, every process that was queued is on top, in the order of the queue. */
  lemma ChangeBringsToTop(w: World, k: nat)
    requires OnePlace(w) && RanksKept(w) && !w.sys.policy.Mlfq? && k < |w.sys.ready|
    ensures var w' := Next(w, ChangePolicy(Mlfq)); var pid := w.sys.ready[k].pid;
      && OnePlace(w') && RanksKept(w') && IsQueued(w'.sys, pid)
      && WaitsOnTop(w'.sys, pid) && TopWait(w'.sys, pid) == Handover(w.sys) + 5 * k
  {
    hide OnePlace, RanksKept;
    var w' := Next(w, ChangePolicy(Mlfq));
    var pid := w.sys.ready[k].pid;
    NextKeepsOnePlace(w, ChangePolicy(Mlfq));
    NextKeepsRanks(w, ChangePolicy(Mlfq));
    Discipline(w);
    assert w'.sys.q0 == RefreshAll(w.sys.ready);
    HeldOnce(w', k);
    PositionAt(w'.sys.q0, k);
  }

  /** The process at position k of the queue at a change to MLFQ gets the CPU within the rest of the
      current slice and 5k ticks of the change. */
  lemma ServedAfterChange(w: World, es: seq<Event>, k: nat)
    requires OnePlace(w) && RanksKept(w) && !w.sys.policy.Mlfq? && k < |w.sys.ready|
    requires SparesCurrent(Next(w, ChangePolicy(Mlfq)), es) && MlfqOnly(es) && StaysReady(es, w.sys.ready[k].pid)
    requires Ticks(es) >= Handover(w.sys) + 5 * k
    ensures GetsCpu(Next(w, ChangePolicy(Mlfq)), es, w.sys.ready[k].pid)
  {
    ChangeBringsToTop(w, k);
    TopIsServed(Next(w, ChangePolicy(Mlfq)), es, w.sys.ready[k].pid);
  }

  lemma LongSliceBreaksBound(w: World)
    requires OnePlace(w) && RanksKept(w) && !w.sys.policy.Mlfq? && w.sys.ready != [] && Handover(w.sys) > 525
    ensures !KeepsBound(Next(w, ChangePolicy(Mlfq)))
  {
    hide OnePlace, RanksKept, WaitsOnTop, TopWait, GetsCpu;
    var k := |w.sys.ready|;
    var w' := Next(w, ChangePolicy(Mlfq));
    var pid := w.sys.ready[k - 1].pid;
    Discipline(w);
    ChangeBringsToTop(w, k - 1);
    var n := 500 + 20 + 5 * k;
    NobodyLeavesBeforeBoost(w', n);
    TickingSpares(w', n);
    TopNotBefore(w', n, pid);
    assert Undisturbed(w', Ticking(n), pid) && !GetsCpu(w', Ticking(n), pid);
  }

  /** A live change to MLFQ keeps the bound of 500 + 20 + 5n exactly when the process on the CPU has at
      most 525 ticks of its slice left. Under the policies that do not count slices the counter wraps
      at 0, and no boost touches the process on the CPU. */
  lemma ChangeKeepsBoundIff(w: World)
    requires OnePlace(w) && RanksKept(w) && !w.sys.policy.Mlfq? && w.sys.ready != []
    ensures KeepsBound(Next(w, ChangePolicy(Mlfq))) <==>
      w.sys.cur.None? || 1 <= w.sys.cur.value.remainingSlice <= 525
  {
    hide KeepsBound;
    if Handover(w.sys) <= 525 {
      ChangeBringsToTop(w, 0);
      ShortSliceKeepsBound(Next(w, ChangePolicy(Mlfq)));
    } else {
      LongSliceBreaksBound(w);
    }
  }

  /** Under FCFS the process on the CPU only counts its slice down. */
  lemma {:induction false} FcfsCountsDown(w: World, n: nat)
    requires w.sys.policy.Fcfs? && w.sys.cur.Some? && n <= w.sys.cur.value.remainingSlice
    ensures var c := w.sys.cur.value; var w' := Run(w, Ticking(n));
      && w'.away == w.away && w'.sys.policy.Fcfs? && w'.sys.ready == w.sys.ready
      && w'.sys.cur == Some(c.(totalTicks := c.totalTicks + n, remainingSlice := c.remainingSlice - n))
    decreases n
  {
    if n > 0 {
      assert Ticking(n)[1..] == Ticking(n - 1);
      FcfsCountsDown(Next(w, Timer), n - 1);
    }
  }

  /** A second process joins the queue behind the first one. */
  const SECOND: seq<Event> := [Create(2, "b", 0, 50, 50), Add(2)]

  lemma SecondQueues(w: World)
    requires w.sys.policy.Fcfs? && w.away == map[] && w.sys.ready == [] && w.sys.cur == Some(FirstStarted(0))
    requires OnePlace(w)
    ensures var w' := Run(w, SECOND);
      && w'.sys.policy.Fcfs? && |w'.sys.ready| == 1 && w'.sys.ready[0].pid == 2 && w'.sys.cur == w.sys.cur
      && SparesCurrent(w, SECOND)
  {
    assert Places(w, 2) <= 1;
    NoBlockSpares(w, SECOND);
    RunTwo(w, SECOND[0], SECOND[1]);
    CountQueued(w.sys, 2);
  }

  lemma ChangeKeepsCurrent(w: World)
    ensures Next(w, ChangePolicy(Mlfq)).sys.policy.Mlfq? && Next(w, ChangePolicy(Mlfq)).sys.cur == w.sys.cur
  {
  }

  /** Two processes under FCFS, the first of them on the CPU for ten ticks, then the change: the other
      one does not get the CPU for 2^32 - 1 ticks. */
  lemma WrappedSliceStarves()
    ensures var w := Next(Run(Run(Run(Start(Fcfs, 0), FIRST), SECOND), Ticking(10)), ChangePolicy(Mlfq));
      && OnePlace(w) && RanksKept(w) && IsQueued(w.sys, 2) && !KeepsBound(w)
      && forall es :: SparesCurrent(w, es) && MlfqOnly(es) && Ticks(es) < 0x1_0000_0000 ==> !GetsCpu(w, es, 2)
  {
    hide KeepsBound, OnePlace, RanksKept, Run, Next, GetsCpu, SparesCurrent;
    FirstRuns(Fcfs, 0);
    ReachableRanks(Fcfs, 0, FIRST);
    var first := Run(Start(Fcfs, 0), FIRST);
    SecondQueues(first);
    RunKeepsRanks(first, SECOND);
    var start := Run(first, SECOND);
    TickingSpares(start, 10);
    RunKeepsRanks(start, Ticking(10));
    FcfsCountsDown(start, 10);
    var before := Run(start, Ticking(10));
    ChangeBringsToTop(before, 0);
    ChangeKeepsBoundIff(before);
    ChangeKeepsCurrent(before);
    var w := Next(before, ChangePolicy(Mlfq));
    forall es | SparesCurrent(w, es) && MlfqOnly(es) && Ticks(es) < 0x1_0000_0000 ensures !GetsCpu(w, es, 2) {
      CurrentKeepsCpu(w, es, 2);
    }
  }
}
